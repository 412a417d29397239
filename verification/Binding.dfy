/**
 Binding of named parameters: queryx.go. A struct argument is the map from mapped names to
 field values; values have any type `V`.
 */
module Binding {
  import opened Wrappers

  datatype Error = CouldNotFind(name: string) | DriverFailed(attempt: nat) | IterFailed

  type Transformer<!V> = (string, V) -> V

  function Transformed<V>(tr: Option<Transformer<V>>, name: string, v: V): V {
    if tr.Some? then tr.value(name, v) else v
  }

  /** The arguments up to the first name `env` does not define, and that name. */
  datatype Bound<V> = Bound(args: seq<V>, missing: Option<string>)

  function Bind<V>(names: seq<string>, env: map<string, V>, tr: Option<Transformer<V>>): Bound<V> {
    if names == [] then Bound([], None)
    else if names[0] !in env then Bound([], Some(names[0]))
    else
      var rest := Bind(names[1..], env, tr);
      Bound([Transformed(tr, names[0], env[names[0]])] + rest.args, rest.missing)
  }

  /**
   Binding stops at the first undefined name; before it, argument i is the value of name i
   put through the transformer with that name.
   */
  lemma {:induction false} BindMeans<V>(names: seq<string>, env: map<string, V>, tr: Option<Transformer<V>>)
    ensures var b := Bind(names, env, tr);
      && |b.args| <= |names|
      && (forall i :: 0 <= i < |b.args| ==>
            && names[i] in env
            && (tr == None ==> b.args[i] == env[names[i]])
            && (tr.Some? ==> b.args[i] == tr.value(names[i], env[names[i]])))
      && (b.missing == None <==> |b.args| == |names|)
      && (b.missing.Some? ==> names[|b.args|] == b.missing.value && b.missing.value !in env)
  {
    if names != [] && names[0] in env {
      BindMeans(names[1..], env, tr);
      var rest := Bind(names[1..], env, tr);
      var b := Bind(names, env, tr);
      assert forall i :: 1 <= i < |b.args| ==> b.args[i] == rest.args[i - 1] && names[i] == names[1..][i - 1];
    }
  }

  /** The driver query behind a Queryx: its bound arguments, what it has applied, and how it fails. */
  class Driver<V> {
    var args: seq<V>
    var attempts: nat
    var applied: seq<seq<V>>
    const fails: nat -> bool

    constructor (fails: nat -> bool)
      ensures args == [] && attempts == 0 && applied == [] && this.fails == fails
    {
      args, attempts, applied := [], 0, [];
      this.fails := fails;
    }

    method Exec() returns (err: Option<Error>)
      modifies this`attempts, this`applied
      ensures attempts == old(attempts) + 1
      ensures if fails(old(attempts)) then err == Some(DriverFailed(old(attempts))) && applied == old(applied)
              else err == None && applied == old(applied) + [args]
    {
      attempts := attempts + 1;
      if fails(attempts - 1) {
        return Some(DriverFailed(attempts - 1));
      }
      applied := applied + [args];
      return None;
    }
  }

  class Queryx<V> {
    var err: Option<Error>
    var tr: Option<Transformer<V>>
    const names: seq<string>
    const query: Driver<V>

    constructor (query: Driver<V>, names: seq<string>, tr: Option<Transformer<V>>)
      ensures this.query == query && this.names == names && this.tr == tr && err == None
    {
      this.query, this.names, this.tr, err := query, names, tr, None;
    }

    /** The callback loop of `TraversalsByNameFunc`: one call per name, in order, until one fails. */
    method BindStructArgs(arg0: map<string, V>, arg1: map<string, V>) returns (arglist: seq<V>, missing: Option<string>)
      ensures Bound(arglist, missing) == Bind(names, arg1 + arg0, tr)
      ensures |arglist| <= |names| && forall i :: 0 <= i < |arglist| ==>
        && (names[i] in arg0 || names[i] in arg1)
        && (var v := if names[i] in arg0 then arg0[names[i]] else arg1[names[i]];
            arglist[i] == if tr.Some? then tr.value(names[i], v) else v)
    {
      hide Bind;
      BindMeans(names, arg1 + arg0, tr);
      BindNothing(arg1 + arg0, tr);
      arglist := [];
      for i := 0 to |names|
        invariant |arglist| == i
        invariant BoundAfter(arglist, Bind(names[i..], arg1 + arg0, tr)) == Bind(names, arg1 + arg0, tr)
      {
        ghost var before := arglist;
        BindStep(arglist, names[i..], arg1 + arg0, tr);
        if names[i] in arg0 {
          arglist := arglist + [arg0[names[i]]];
        } else {
          if names[i] !in arg1 {
            return arglist, Some(names[i]);
          }
          arglist := arglist + [arg1[names[i]]];
        }
        if tr.Some? {
          arglist := arglist[i := tr.value(names[i], arglist[i])];
        }
        assert arglist == before + [Transformed(tr, names[i], (arg1 + arg0)[names[i]])];
        assert names[i..][1..] == names[i + 1..];
      }
      assert names[|names|..] == [];
      return arglist, None;
    }

    method BindMapArgs(arg: map<string, V>) returns (arglist: seq<V>, missing: Option<string>)
      ensures Bound(arglist, missing) == Bind(names, arg, tr)
      ensures |arglist| <= |names| && forall i :: 0 <= i < |arglist| ==>
        names[i] in arg && arglist[i] == if tr.Some? then tr.value(names[i], arg[names[i]]) else arg[names[i]]
    {
      hide Bind;
      BindMeans(names, arg, tr);
      BindNothing(arg, tr);
      arglist := [];
      for i := 0 to |names|
        invariant BoundAfter(arglist, Bind(names[i..], arg, tr)) == Bind(names, arg, tr)
      {
        BindStep(arglist, names[i..], arg, tr);
        var name := names[i];
        if name !in arg {
          return arglist, Some(name);
        }
        var val := arg[name];
        if tr.Some? {
          val := tr.value(name, val);
        }
        arglist := arglist + [val];
        assert names[i..][1..] == names[i + 1..];
      }
      assert names[|names|..] == [];
      return arglist, None;
    }

    /** A failed bind keeps the arguments bound before it and is remembered; a later success clears it. */
    method BindMap(arg: map<string, V>)
      modifies this`err, query`args
      ensures var b := Bind(names, arg, tr);
        if b.missing.Some? then err == Some(CouldNotFind(b.missing.value)) && query.args == old(query.args)
        else err == None && query.args == b.args
    {
      var arglist, missing := BindMapArgs(arg);
      if missing.Some? {
        err := Some(CouldNotFind(missing.value));
      } else {
        err := None;
        query.args := arglist;
      }
    }

    method BindStructMap(arg0: map<string, V>, arg1: map<string, V>)
      modifies this`err, query`args
      ensures var b := Bind(names, arg1 + arg0, tr);
        if b.missing.Some? then err == Some(CouldNotFind(b.missing.value)) && query.args == old(query.args)
        else err == None && query.args == b.args
    {
      var arglist, missing := BindStructArgs(arg0, arg1);
      if missing.Some? {
        err := Some(CouldNotFind(missing.value));
      } else {
        err := None;
        query.args := arglist;
      }
    }

    /** A query whose last bind failed is not sent. */
    method Exec() returns (e: Option<Error>)
      modifies query`attempts, query`applied
      ensures err.Some? ==> e == err && query.attempts == old(query.attempts) && query.applied == old(query.applied)
      ensures err == None ==>
        var k := old(query.attempts);
        && query.attempts == k + 1
        && if query.fails(k) then e == Some(DriverFailed(k)) && query.applied == old(query.applied)
           else e == None && query.applied == old(query.applied) + [query.args]
    {
      if err.Some? {
        return err;
      }
      e := query.Exec();
    }
  }

  function BoundAfter<V>(done: seq<V>, rest: Bound<V>): Bound<V> {
    Bound(done + rest.args, rest.missing)
  }

  lemma {:induction false} BindNothing<V>(env: map<string, V>, tr: Option<Transformer<V>>)
    ensures Bind([], env, tr) == Bound([], None)
  {
  }

  lemma {:induction false} BindStep<V>(done: seq<V>, names: seq<string>, env: map<string, V>,
                                       tr: Option<Transformer<V>>)
    requires names != []
    ensures names[0] !in env ==> BoundAfter(done, Bind(names, env, tr)) == Bound(done, Some(names[0]))
    ensures names[0] in env ==>
      BoundAfter(done, Bind(names, env, tr)) ==
      BoundAfter(done + [Transformed(tr, names[0], env[names[0]])], Bind(names[1..], env, tr))
  {
  }
}
