/** `RewriteTable` of dbutil/rewrite.go over a sequence of source rows. */
module Rewrite {
  import opened Wrappers
  import opened Binding

  type Row<V> = map<string, V>
  type Transform<!V> = Row<V> -> Row<V>

  function Apply<V>(transform: Option<Transform<V>>, row: Row<V>): Row<V> {
    if transform.Some? then transform.value(row) else row
  }

  /** The rows to insert: transformed, in source order, without the empty ones. */
  function Todo<V>(rows: seq<Row<V>>, transform: Option<Transform<V>>): seq<Row<V>> {
    if rows == [] then []
    else
      var m := Apply(transform, rows[0]);
      if |m| == 0 then Todo(rows[1..], transform) else [m] + Todo(rows[1..], transform)
  }

  /** Row by row: a row is transformed if there is a transform, and dropped if it is empty then. */
  lemma {:induction false} TodoOfOne<V>(row: Row<V>, f: Transform<V>)
    ensures Todo([row], None) == if row == map[] then [] else [row]
    ensures Todo([row], Some(f)) == if f(row) == map[] then [] else [f(row)]
  {
    assert [row][1..] == [];
  }

  /** The rows of two parts are worked off one part after the other. */
  lemma {:induction false} TodoOfParts<V>(a: seq<Row<V>>, b: seq<Row<V>>, transform: Option<Transform<V>>)
    ensures Todo(a + b, transform) == Todo(a, transform) + Todo(b, transform)
  {
    hide Apply;
    if a == [] {
      assert a + b == b;
    } else {
      assert (a + b)[1..] == a[1..] + b;
      TodoOfParts(a[1..], b, transform);
    }
  }

  datatype Outcome<V> = Outcome(applied: seq<seq<V>>, err: Option<Error>)

  /** Inserting the rows one by one, the first of them being attempt `k`; `end` is the iterator's own error. */
  function Inserts<V>(todo: seq<Row<V>>, names: seq<string>, tr: Option<Transformer<V>>, fails: nat -> bool,
                      k: nat, end: Option<Error>): Outcome<V> {
    if todo == [] then Outcome([], end)
    else
      var b := Bind(names, todo[0], tr);
      if b.missing.Some? then Outcome([], Some(CouldNotFind(b.missing.value)))
      else if fails(k) then Outcome([], Some(DriverFailed(k)))
      else
        var rest := Inserts(todo[1..], names, tr, fails, k + 1, end);
        Outcome([b.args] + rest.applied, rest.err)
  }

  /**
   What has been inserted is the bound non-empty rows up to the first failure; success
   means that every one of them was inserted and that reading the source did not fail.
   */
  lemma {:induction false} InsertsMeans<V>(todo: seq<Row<V>>, names: seq<string>, tr: Option<Transformer<V>>,
                                           fails: nat -> bool, k: nat, end: Option<Error>)
    ensures var o := Inserts(todo, names, tr, fails, k, end); var n := |o.applied|;
      && n <= |todo|
      && (forall i :: 0 <= i < n ==> Bind(names, todo[i], tr) == Bound(o.applied[i], None) && !fails(k + i))
      && (n == |todo| ==> o.err == end)
      && (n < |todo| ==>
            var b := Bind(names, todo[n], tr);
            if b.missing.Some? then o.err == Some(CouldNotFind(b.missing.value))
            else fails(k + n) && o.err == Some(DriverFailed(k + n)))
    ensures var o := Inserts(todo, names, tr, fails, k, end);
      o.err == None <==> |o.applied| == |todo| && end == None
  {
    hide Bind;
    if todo != [] {
      var b := Bind(names, todo[0], tr);
      if b.missing == None && !fails(k) {
        var tail := todo[1..];
        var rest := Inserts(tail, names, tr, fails, k + 1, end);
        InsertsMeans(tail, names, tr, fails, k + 1, end);
        var o := Inserts(todo, names, tr, fails, k, end);
        var n := |o.applied|;
        assert o == Outcome([b.args] + rest.applied, rest.err) && b == Bound(b.args, None);
        assert n < |todo| ==> todo[n] == tail[n - 1] && k + n == k + 1 + (n - 1);
        forall i | 0 <= i < n ensures Bind(names, todo[i], tr) == Bound(o.applied[i], None) && !fails(k + i) {
          if i > 0 {
            assert todo[i] == tail[i - 1] && o.applied[i] == rest.applied[i - 1];
            assert k + 1 + (i - 1) == k + i && !fails(k + 1 + (i - 1));
          } else {
            assert todo[0] == todo[i] && o.applied[i] == b.args && k + i == k;
          }
        }
      }
    }
  }

  lemma {:induction false} TodoStep<V>(rows: seq<Row<V>>, i: nat, transform: Option<Transform<V>>)
    requires i < |rows|
    ensures var m := if transform.Some? then transform.value(rows[i]) else rows[i];
      Todo(rows[i..], transform) ==
        if |m| == 0 then Todo(rows[i + 1..], transform) else [m] + Todo(rows[i + 1..], transform)
  {
    assert rows[i..][1..] == rows[i + 1..];
  }

  /**
   The loop of `RewriteTable`. The map is filled by the row scan on top of what it holds,
   changed by the transform and replaced after an insert; `end` is the error of
   `iter.Close`.
   */
  method RewriteTable<V>(insert: Queryx<V>, rows: seq<Row<V>>, end: Option<Error>, transform: Option<Transform<V>>)
    returns (err: Option<Error>)
    modifies insert`err, insert.query
    ensures var q := insert.query;
      var o := Inserts(Todo(rows, transform), insert.names, insert.tr, q.fails, old(q.attempts), end);
      err == o.err && q.applied == old(q.applied) + o.applied
  {
    hide Inserts, Todo, Apply;
    var q := insert.query;
    ghost var names, tr, k0 := insert.names, insert.tr, q.attempts;
    ghost var todo := Todo(rows, transform);
    ghost var all := Inserts(todo, names, tr, q.fails, k0, end);
    ghost var done: seq<seq<V>> := [];
    TodoStart(rows, transform);
    var m: Row<V> := map[];
    for i := 0 to |rows|
      invariant m == map[] && insert.tr == tr
      invariant q.applied == old(q.applied) + done
      invariant todo == Todo(rows[i..], transform)
      invariant all == OutcomeAfter(done, Inserts(todo, names, tr, q.fails, q.attempts, end))
    {
      TodoStep(rows, i, transform);
      m := m + rows[i];
      assert m == rows[i];
      if transform.Some? {
        m := transform.value(m);
      }
      if |m| == 0 {
        continue;
      }
      todo := Todo(rows[i + 1..], transform);
      var e := BindAndExec(insert, m, done, todo, all, end);
      if e.Some? {
        return e;
      }
      done := done + [q.args];
      m := map[];
    }
    InsertsEnd(done, names, tr, q.fails, q.attempts, end);
    return end;
  }

  lemma {:induction false} TodoStart<V>(rows: seq<Row<V>>, transform: Option<Transform<V>>)
    ensures rows[0..] == rows && Todo(rows[|rows|..], transform) == []
  {
  }

  lemma {:induction false} InsertsEnd<V>(done: seq<seq<V>>, names: seq<string>, tr: Option<Transformer<V>>,
                                         fails: nat -> bool, k: nat, end: Option<Error>)
    ensures OutcomeAfter(done, Inserts([], names, tr, fails, k, end)) == Outcome(done, end)
  {
  }

  function OutcomeAfter<V>(done: seq<seq<V>>, rest: Outcome<V>): Outcome<V> {
    Outcome(done + rest.applied, rest.err)
  }

  /** `insert.BindMap(m).Exec()`: one step of the run `all`, of which `done` is behind and `todo` ahead. */
  method BindAndExec<V>(insert: Queryx<V>, m: Row<V>, ghost done: seq<seq<V>>, ghost todo: seq<Row<V>>,
                        ghost all: Outcome<V>, ghost end: Option<Error>) returns (e: Option<Error>)
    requires var q := insert.query;
      all == OutcomeAfter(done, Inserts([m] + todo, insert.names, insert.tr, q.fails, q.attempts, end))
    modifies insert`err, insert.query
    ensures var q := insert.query;
      if e.Some? then all == Outcome(done, e) && q.applied == old(q.applied)
      else all == OutcomeAfter(done + [q.args], Inserts(todo, insert.names, insert.tr, q.fails, q.attempts, end))
           && q.applied == old(q.applied) + [q.args]
  {
    insert.BindMap(m);
    e := insert.Exec();
  }
}
