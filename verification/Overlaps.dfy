/**
 Where sharing shows: two lists that grow in place behind one slice, in slices themselves, in
 builders that were given the same slice, and in the names that a table hands out.
 */
module Overlaps {
  import opened Comparators
  import opened Slices
  import opened SelectBuilders
  import opened UpdateBuilders
  import opened Tables

  /** Two lists appended in place to one slice agree where both have elements. */
  predicate AgreeAtStart<T(==)>(a: seq<T>, b: seq<T>) {
    forall i :: 0 <= i < |a| && i < |b| ==> a[i] == b[i]
  }

  /** What is left of the elements of `v + a` once `b` has been written behind `v`. */
  function Overlaid<T>(v: seq<T>, a: seq<T>, b: seq<T>): (now: seq<T>)
    ensures |now| == |v| + |a|
  {
    if |b| < |a| then v + b + a[|b|..] else v + b[..|a|]
  }

  lemma {:induction false} OverlaidParts<T>(v: seq<T>, a: seq<T>, b: seq<T>, now: seq<T>, m: nat)
    requires |now| == |v| + |a| && m == (if |b| < |a| then |v| + |b| else |v| + |a|)
    requires now[..m] == (v + b)[..m] && forall k :: m <= k < |now| ==> now[k] == (v + a)[k]
    ensures now == Overlaid(v, a, b)
  {
    assert now == now[..m] + now[m..];
  }

  lemma {:induction false} OverlaidKeeps<T>(v: seq<T>, a: seq<T>, b: seq<T>)
    ensures Overlaid(v, a, b) == v + a <==> AgreeAtStart(a, b)
  {
    var now := Overlaid(v, a, b);
    assert forall k :: 0 <= k < |a| ==> now[|v| + k] == if k < |b| then b[k] else a[k];
    if now == v + a {
      assert forall k :: 0 <= k < |a| ==> now[|v| + k] == a[k];
    }
  }

  lemma {:induction false} SameStart<T>(r: Slice<T>, q: Slice<T>, m: nat)
    requires r.Valid() && q.Valid() && r.arr == q.arr && r.off == q.off && m <= r.len && m <= q.len
    ensures r.View()[..m] == q.View()[..m]
  {
  }

  /** `If` while somebody else reads `v + a` through `r`, which begins where the builder's own slice does. */
  method IfBeneath(y: UpdateBuilder, w: Slice<Cmp>, ghost r: Slice<Cmp>, ghost v: seq<Cmp>, ghost a: seq<Cmp>)
    requires y.Valid() && w.Valid() && r.Valid() && v != [] && y.cond.View() == v && r.View() == v + a
    requires r.arr == y.cond.arr ==> r.off == y.cond.off
    modifies y`cond, y.cond.Spare()
    ensures y.Valid() && y.cond.View() == v + old(w.View())
    ensures r.View() ==
      if r.arr == old(y.cond.arr) && |v| + w.len <= old(y.cond.cap) then Overlaid(v, a, old(w.View())) else v + a
  {
    hide UpdateBuilder.State, Overlaid;
    ghost var all, b := r.View(), w.View();
    y.If(w);
    if r.arr != old(y.cond.arr) || |v| + |b| > old(y.cond.cap) {
      assert r.View() == all;
    } else {
      var m := if |b| < |a| then |v| + |b| else |v| + |a|;
      SameStart(r, y.cond, m);
      assert forall k :: m <= k < r.len ==> r.View()[k] == all[k];
      OverlaidParts(v, a, b, r.View(), m);
    }
  }

  method ColumnsBeneath(y: SelectBuilder, w: Slice<string>, ghost r: Slice<string>, ghost v: seq<string>,
                        ghost a: seq<string>)
    requires y.Valid() && w.Valid() && r.Valid() && v != [] && y.columns.View() == v && r.View() == v + a
    requires r.arr == y.columns.arr ==> r.off == y.columns.off
    modifies y`columns, y.columns.Spare()
    ensures y.Valid() && y.columns.View() == v + old(w.View())
    ensures r.View() ==
      if r.arr == old(y.columns.arr) && |v| + w.len <= old(y.columns.cap) then Overlaid(v, a, old(w.View())) else v + a
  {
    hide SelectBuilder.State, Overlaid;
    ghost var all, b := r.View(), w.View();
    y.Columns(w);
    if r.arr != old(y.columns.arr) || |v| + |b| > old(y.columns.cap) {
      assert r.View() == all;
    } else {
      var m := if |b| < |a| then |v| + |b| else |v| + |a|;
      SameStart(r, y.columns, m);
      assert forall k :: m <= k < r.len ==> r.View()[k] == all[k];
      OverlaidParts(v, a, b, r.View(), m);
    }
  }

  /**
   Two updates given the same comparators for IF, and then comparators of their own: the
   first one keeps what it asked for if and only if the shared slice has no room for one of
   the two additions, or they agree as far as both go.
   */
  method ShareIf(x: UpdateBuilder, y: UpdateBuilder, ws: Slice<Cmp>, wa: Slice<Cmp>, wb: Slice<Cmp>)
    requires x != y && x.Valid() && y.Valid() && x.cond.len == y.cond.len == 0
    requires ws.Valid() && wa.Valid() && wb.Valid() && ws.len > 0
    requires wa.arr != ws.arr && wb.arr != ws.arr
    requires x.cond.Full() && y.cond.Full()
    modifies x`cond, y`cond, ws.arr
    ensures x.Valid() && y.Valid() && y.cond.View() == old(ws.View() + wb.View())
    ensures x.cond.View() == old(ws.View() + wa.View()) <==>
      ws.len + wa.len > ws.cap || ws.len + wb.len > ws.cap || AgreeAtStart(old(wa.View()), old(wb.View()))
  {
    hide Overlaid, AgreeAtStart, UpdateBuilder.State;
    ghost var v, a, b := ws.View(), wa.View(), wb.View();
    x.If(ws);
    y.If(ws);
    x.If(wa);
    IfBeneath(y, wb, x.cond, v, a);
    assert old(ws.View() + wa.View()) == v + a;
    OverlaidKeeps(v, a, b);
  }

  /** The same for the columns of two selects. */
  method ShareColumns(x: SelectBuilder, y: SelectBuilder, cols: Slice<string>, a: Slice<string>, b: Slice<string>)
    requires x != y && x.Valid() && y.Valid() && x.columns.len == y.columns.len == 0
    requires cols.Valid() && a.Valid() && b.Valid() && cols.len > 0
    requires a.arr != cols.arr && b.arr != cols.arr
    requires x.columns.Full() && y.columns.Full()
    modifies x`columns, y`columns, cols.arr
    ensures x.Valid() && y.Valid() && y.columns.View() == old(cols.View() + b.View())
    ensures x.columns.View() == old(cols.View() + a.View()) <==>
      cols.len + a.len > cols.cap || cols.len + b.len > cols.cap || AgreeAtStart(old(a.View()), old(b.View()))
  {
    hide Overlaid, AgreeAtStart, SelectBuilder.State;
    ghost var v, va, vb := cols.View(), a.View(), b.View();
    x.Columns(cols);
    y.Columns(cols);
    x.Columns(a);
    ColumnsBeneath(y, b, x.columns, v, va);
    assert old(cols.View() + a.View()) == v + va;
    OverlaidKeeps(v, va, vb);
  }

  // ---- the names a table hands out ----

  /** `append(s, a...)` and then `append(s, b...)`: exactly when the first result survives the second. */
  method AppendTwice<T(0)>(s: Slice<T>, a: Slice<T>, b: Slice<T>) returns (first: Slice<T>, second: Slice<T>)
    requires s.Valid() && a.Valid() && b.Valid() && a.arr != s.arr && b.arr != s.arr
    modifies s.Spare()
    ensures first.Valid() && second.Valid() && second.View() == old(s.View() + b.View())
    ensures first.View() == old(s.View() + a.View()) <==>
      s.len + a.len > s.cap || s.len + b.len > s.cap || AgreeAtStart(old(a.View()), old(b.View()))
    ensures s.View() == old(s.View())
  {
    hide AgreeAtStart, Overlaid;
    ghost var v, va, vb := s.View(), a.View(), b.View();
    first := Append(s, a);
    assert s.View() == v;
    second := AppendBeneath(s, b, first, v, va);
    assert old(s.View() + a.View()) == v + va;
    OverlaidKeeps(v, va, vb);
  }

  method AppendBeneath<T(0)>(s: Slice<T>, w: Slice<T>, ghost r: Slice<T>, ghost v: seq<T>, ghost a: seq<T>)
    returns (second: Slice<T>)
    requires s.Valid() && w.Valid() && r.Valid() && s.View() == v && r.View() == v + a
    requires r.arr == s.arr ==> r.off == s.off
    modifies s.Spare()
    ensures second.Valid() && second.View() == v + old(w.View()) && s.View() == v
    ensures r.View() == if r.arr == s.arr && |v| + w.len <= s.cap then Overlaid(v, a, old(w.View())) else v + a
  {
    hide Overlaid;
    ghost var all, b := r.View(), w.View();
    second := Append(s, w);
    assert s.View() == v;
    if r.arr != s.arr || |v| + |b| > s.cap {
      assert r.View() == all;
    } else {
      var m := if |b| < |a| then |v| + |b| else |v| + |a|;
      SameStart(r, second, m);
      assert forall k :: m <= k < r.len ==> r.View()[k] == all[k];
      OverlaidParts(v, a, b, r.View(), m);
    }
  }

  /**
   Two clients that extend the names `Insert` handed to both: the table does not notice, but
   they may notice each other.
   */
  method ShareNames(t: Table, a: Slice<string>, b: Slice<string>) returns (first: Slice<string>, second: Slice<string>)
    requires t.Valid() && a.Valid() && b.Valid() && a.arr !in t.Arrays() && b.arr !in t.Arrays()
    modifies t.insert.names.Spare()
    ensures t.Valid()
    ensures first.Valid() && second.Valid() && second.View() == t.metadata.columns + old(b.View())
    ensures var room := t.insert.names.cap - |t.metadata.columns|;
      first.View() == t.metadata.columns + old(a.View()) <==>
      a.len > room || b.len > room || AgreeAtStart(old(a.View()), old(b.View()))
  {
    hide AgreeAtStart, InsertAll, SelectBy, ToCql, Eqs;
    TableNames(t.metadata, []);
    var _, names := t.Insert();
    first, second := AppendTwice(names, a, b);
  }

  /** A client that writes into the names `Insert` handed out breaks the table's cache unless the name is the same. */
  method OverwriteName(t: Table, i: nat, name: string)
    requires t.Valid() && i < |t.metadata.columns|
    modifies t.insert.names.arr
    ensures t.Valid() <==> name == t.metadata.columns[i]
  {
    hide InsertAll, SelectBy, ToCql, Eqs;
    TableNames(t.metadata, []);
    var _, names := t.Insert();
    ghost var before := names.View();
    names.arr[names.off + i] := name;
    assert names.View()[i] == name && forall k :: 0 <= k < |before| && k != i ==> names.View()[k] == before[k];
  }
}
