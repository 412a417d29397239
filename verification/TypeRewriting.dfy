/**
 `rewriteUDTTypeInfo` of cmd/schemagen/schemagen.go as it runs: tuple elements are rewritten
 in the driver's own arrays, and a type reached along several ways is rewritten several
 times.
 */
module TypeRewriting {
  import opened CqlTypes

  /** A type in memory. Only tuples hold their parts in a shared array. */
  datatype GoType =
    | Plain(t: Type)
    | GoList(isSet: bool, elem: GoType)
    | GoMap(key: GoType, elem: GoType)
    | GoTuple(elems: array<GoType>)

  predicate IsLeaf(t: Type) {
    t.Nil? || t.Native? || t.Udt? || t.Opaque?
  }

  /** For every tuple array the trees of its elements. */
  type Trees = map<array<GoType>, seq<Type>>

  /** `t` shows itself to be `tree`, arrays of tuples only by what `trees` says of them. */
  predicate Exact(t: GoType, tree: Type, trees: Trees) {
    match t
    case Plain(leaf) => IsLeaf(leaf) && tree == leaf
    case GoList(isSet, elem) => tree.ListOf? && tree.isSet == isSet && Exact(elem, tree.elem, trees)
    case GoMap(key, elem) => tree.MapOf? && Exact(key, tree.key, trees) && Exact(elem, tree.elem, trees)
    case GoTuple(a) => tree.Tuple? && a in trees && trees[a] == tree.elems
  }

  /** `t` is the type `tree`, all the way down in memory. */
  ghost predicate Denotes(t: GoType, tree: Type, trees: Trees)
    reads trees.Keys
    decreases tree
  {
    Exact(t, tree, trees) &&
    match t
    case Plain(_) => true
    case GoList(_, elem) => Denotes(elem, tree.elem, trees)
    case GoMap(key, elem) => Denotes(key, tree.key, trees) && Denotes(elem, tree.elem, trees)
    case GoTuple(a) =>
      a.Length == |tree.elems| && forall i :: 0 <= i < a.Length ==> Denotes(a[i], tree.elems[i], trees)
  }

  /** `t` is `goal` or still has to be rewritten into it. */
  predicate Toward(t: GoType, goal: Type, goals: Trees, udts: set<string>, keyspace: string) {
    match t
    case Plain(leaf) => IsLeaf(leaf) && Rewrite(leaf, udts, keyspace) == goal
    case GoList(isSet, elem) => goal.ListOf? && goal.isSet == isSet && Toward(elem, goal.elem, goals, udts, keyspace)
    case GoMap(key, elem) =>
      goal.MapOf? && Toward(key, goal.key, goals, udts, keyspace) && Toward(elem, goal.elem, goals, udts, keyspace)
    case GoTuple(a) => goal.Tuple? && a in goals && goals[a] == goal.elems
  }

  /** All arrays are on the way to their goals. */
  ghost predicate AllToward(goals: Trees, udts: set<string>, keyspace: string)
    reads goals.Keys
  {
    forall a :: a in goals ==>
      a.Length == |goals[a]| && forall i :: 0 <= i < a.Length ==> Toward(a[i], goals[a][i], goals, udts, keyspace)
  }

  /** What has reached its goal is left alone. */
  twostate predicate Settled(goals: Trees)
    reads goals.Keys
  {
    forall a, i :: a in goals && 0 <= i < a.Length && i < |goals[a]| && Exact(old(a[i]), goals[a][i], goals) ==>
      a[i] == old(a[i])
  }

  /** `t` shows itself to be `goal`, and its arrays are among the finished ones. */
  predicate Finished(t: GoType, goal: Type, goals: Trees, done: set<array<GoType>>) {
    match t
    case Plain(_) => Exact(t, goal, goals)
    case GoList(isSet, elem) => goal.ListOf? && goal.isSet == isSet && Finished(elem, goal.elem, goals, done)
    case GoMap(key, elem) =>
      goal.MapOf? && Finished(key, goal.key, goals, done) && Finished(elem, goal.elem, goals, done)
    case GoTuple(a) => Exact(t, goal, goals) && a in done
  }

  /** In finished arrays everything is finished. */
  ghost predicate Closed(goals: Trees, done: set<array<GoType>>)
    reads goals.Keys
  {
    forall a :: a in done ==>
      && a in goals && a.Length == |goals[a]|
      && forall i :: 0 <= i < a.Length ==> Finished(a[i], goals[a][i], goals, done)
  }

  lemma {:induction false} FinishedIsExact(t: GoType, goal: Type, goals: Trees, done: set<array<GoType>>)
    requires Finished(t, goal, goals, done)
    ensures Exact(t, goal, goals)
    decreases t
  {
    match t
    case GoList(_, elem) => FinishedIsExact(elem, goal.elem, goals, done);
    case GoMap(key, elem) =>
      FinishedIsExact(key, goal.key, goals, done);
      FinishedIsExact(elem, goal.elem, goals, done);
    case _ =>
  }

  lemma {:induction false} FinishedMore(t: GoType, goal: Type, goals: Trees, done: set<array<GoType>>,
                                        more: set<array<GoType>>)
    requires Finished(t, goal, goals, done) && done <= more
    ensures Finished(t, goal, goals, more)
    decreases t
  {
    match t
    case GoList(_, elem) => FinishedMore(elem, goal.elem, goals, done, more);
    case GoMap(key, elem) =>
      FinishedMore(key, goal.key, goals, done, more);
      FinishedMore(elem, goal.elem, goals, done, more);
    case _ =>
  }

  /** A finished type is its goal, all the way down. */
  lemma {:induction false} FinishedDenotes(t: GoType, goal: Type, goals: Trees, done: set<array<GoType>>)
    requires Closed(goals, done) && Finished(t, goal, goals, done)
    ensures Denotes(t, goal, goals)
    decreases goal
  {
    FinishedIsExact(t, goal, goals, done);
    match t
    case GoList(_, elem) => FinishedDenotes(elem, goal.elem, goals, done);
    case GoMap(key, elem) =>
      FinishedDenotes(key, goal.key, goals, done);
      FinishedDenotes(elem, goal.elem, goals, done);
    case GoTuple(a) =>
      forall i | 0 <= i < a.Length ensures Denotes(a[i], goal.elems[i], goals) {
        FinishedDenotes(a[i], goal.elems[i], goals, done);
      }
    case _ =>
  }

  /**
   Rewrites a type in place. Whatever has been rewritten before, by way of other types that
   share arrays with this one, it ends up as its goal, and nothing that had reached its
   goal changes.
   */
  method RewriteInPlace(t: GoType, udts: set<string>, keyspace: string, ghost goals: Trees, ghost goal: Type,
                        ghost done: set<array<GoType>>) returns (r: GoType, ghost more: set<array<GoType>>)
    requires AllToward(goals, udts, keyspace) && Toward(t, goal, goals, udts, keyspace) && Closed(goals, done)
    modifies goals.Keys
    ensures AllToward(goals, udts, keyspace) && Toward(r, goal, goals, udts, keyspace) && Settled(goals)
    ensures done <= more && Closed(goals, more) && Finished(r, goal, goals, more)
    ensures Exact(t, goal, goals) ==> r == t
    decreases goal, 1
  {
    match t
    case GoList(isSet, elem) =>
      var e;
      e, more := RewriteInPlace(elem, udts, keyspace, goals, goal.elem, done);
      r := GoList(isSet, e);
    case GoMap(key, elem) =>
      var k, e;
      ghost var mid;
      k, mid := RewriteInPlace(key, udts, keyspace, goals, goal.key, done);
      e, more := RewriteInPlace(elem, udts, keyspace, goals, goal.elem, mid);
      FinishedMore(k, goal.key, goals, mid, more);
      r := GoMap(k, e);
    case GoTuple(a) =>
      more := RewriteElems(a, udts, keyspace, goals, goal, done);
      r := t;
    case Plain(leaf) =>
      RewriteTwice(leaf, udts, keyspace);
      r, more := t, done;
      if leaf.Opaque? {
        var name := Strip(leaf.validator);
        if name in udts {
          r := Plain(Udt(keyspace, name));
        }
      }
  }

  /** The loop over a tuple's elements. */
  method RewriteElems(a: array<GoType>, udts: set<string>, keyspace: string, ghost goals: Trees, ghost goal: Type,
                      ghost done: set<array<GoType>>) returns (ghost more: set<array<GoType>>)
    requires AllToward(goals, udts, keyspace) && Closed(goals, done)
    requires goal.Tuple? && a in goals && goals[a] == goal.elems
    modifies goals.Keys
    ensures AllToward(goals, udts, keyspace) && Settled(goals)
    ensures done <= more && a in more && Closed(goals, more)
    decreases goal, 0
  {
    more := done;
    for i := 0 to a.Length
      invariant AllToward(goals, udts, keyspace) && Settled(goals)
      invariant done <= more && Closed(goals, more)
      invariant forall j :: 0 <= j < i ==> Finished(a[j], goal.elems[j], goals, more)
    {
      more := RewriteElem(a, i, udts, keyspace, goals, goal.elems, more);
    }
    ClosedMore(goals, more, a);
    more := more + {a};
  }

  lemma {:induction false} ClosedMore(goals: Trees, done: set<array<GoType>>, a: array<GoType>)
    requires Closed(goals, done) && a in goals && a.Length == |goals[a]|
    requires forall i :: 0 <= i < a.Length ==> Finished(a[i], goals[a][i], goals, done)
    ensures Closed(goals, done + {a})
  {
    forall b, i | b in done + {a} && 0 <= i < b.Length ensures Finished(b[i], goals[b][i], goals, done + {a}) {
      FinishedMore(b[i], goals[b][i], goals, done, done + {a});
    }
  }

  /** `tt.Elems[i] = rewriteUDTTypeInfo(e, ...)`. */
  method RewriteElem(a: array<GoType>, i: nat, udts: set<string>, keyspace: string, ghost goals: Trees,
                     ghost elems: seq<Type>, ghost done: set<array<GoType>>) returns (ghost more: set<array<GoType>>)
    requires AllToward(goals, udts, keyspace) && Closed(goals, done) && a in goals && goals[a] == elems && i < a.Length
    requires forall j :: 0 <= j < i ==> Finished(a[j], elems[j], goals, done)
    modifies goals.Keys
    ensures AllToward(goals, udts, keyspace) && Settled(goals) && done <= more && Closed(goals, more)
    ensures forall j :: 0 <= j < i + 1 ==> Finished(a[j], elems[j], goals, more)
    decreases elems[i], 3
  {
    ghost var before := a[..];
    forall j | 0 <= j < i ensures Exact(a[j], elems[j], goals) {
      FinishedIsExact(a[j], elems[j], goals, done);
    }
    var r;
    r, more := RewriteInPlace(a[i], udts, keyspace, goals, elems[i], done);
    if a in more {
      FinishedIsExact(a[i], elems[i], goals, more);
    }
    a[i] := r;
    forall j | 0 <= j < i ensures Finished(a[j], elems[j], goals, more) {
      FinishedMore(before[j], elems[j], goals, done, more);
    }
  }
}
