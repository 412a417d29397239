/**
 Go slices: a window of `len` elements into a shared array, with room for `cap`, and the
 built-in `append` of the Go Programming Language Specification, section "Appending to and
 copying slices". A nil slice is a window into an array without elements.
 */
module Slices {

  datatype Slice<T> = Slice(arr: array<T>, off: nat, len: nat, cap: nat)
  {
    predicate Valid() {
      len <= cap && off + cap <= arr.Length
    }

    function View(): seq<T>
      requires Valid()
      reads arr
    {
      arr[off..off + len]
    }

    /** An append to a full slice never writes into its array. */
    predicate Full() {
      len == cap
    }

    /** The arrays an append to this slice may write into. */
    function Spare(): set<object> {
      if Full() then {} else {arr}
    }
  }

  /** A slice over a fresh array that holds exactly `xs`. */
  method Make<T>(xs: seq<T>) returns (s: Slice<T>)
    ensures s.Valid() && s.Full() && fresh(s.arr) && s.View() == xs
  {
    var arr := new T[|xs|](i requires 0 <= i < |xs| => xs[i]);
    s := Slice(arr, 0, |xs|, |xs|);
    assert arr[..] == xs;
  }

  /** The same with any room to spare, as a list that has grown by `append` may have. */
  method MakeGrown<T(0)>(xs: seq<T>) returns (s: Slice<T>)
    ensures s.Valid() && fresh(s.arr) && s.View() == xs
  {
    var cap :| cap >= |xs|;
    var arr := new T[cap];
    forall i | 0 <= i < |xs| {
      arr[i] := xs[i];
    }
    s := Slice(arr, 0, |xs|, cap);
    assert s.View() == arr[..|xs|] == xs;
  }

  /** `make([]T, 0, cap)`. */
  method MakeEmpty<T(0)>(cap: nat) returns (s: Slice<T>)
    ensures s.Valid() && s.len == 0 && s.cap == cap && fresh(s.arr) && s.View() == []
  {
    var arr := new T[cap];
    s := Slice(arr, 0, 0, cap);
  }

  /** `append(s, xs...)`; how much a grown array exceeds what is needed is left open. */
  method Append<T(0)>(s: Slice<T>, xs: Slice<T>) returns (r: Slice<T>)
    requires s.Valid() && xs.Valid()
    modifies s.Spare()
    ensures r.Valid() && Appended(s, xs, r)
  {
    var m, n := s.len, xs.len;
    if n == 0 {
      return s;
    }
    if m + n <= s.cap {
      ghost var both := s.View() + xs.View();
      forall i | 0 <= i < n {
        s.arr[s.off + m + i] := xs.arr[xs.off + i];
      }
      r := s.(len := m + n);
      assert forall k :: 0 <= k < m + n ==> r.arr[r.off + k] == both[k];
      return;
    }
    ghost var both := s.View() + xs.View();
    var newCap :| newCap >= m + n;
    var arr := new T[newCap];
    forall i | 0 <= i < m {
      arr[i] := s.arr[s.off + i];
    }
    forall i | 0 <= i < n {
      arr[m + i] := xs.arr[xs.off + i];
    }
    r := Slice(arr, 0, m + n, newCap);
    assert forall k :: 0 <= k < m + n ==> arr[k] == both[k];
  }

  /** `append(s, x)`. */
  method Append1<T(0)>(s: Slice<T>, x: T) returns (r: Slice<T>)
    requires s.Valid()
    modifies s.Spare()
    ensures r.Valid() && r.View() == old(s.View()) + [x]
    ensures if s.len < s.cap then r == s.(len := s.len + 1) else fresh(r.arr)
  {
    var one := Make([x]);
    r := Append(s, one);
  }

  /** `dst := make([]T, n); copy(dst, src[:n])`. */
  method Copy<T(0)>(src: Slice<T>, n: nat) returns (dst: Slice<T>)
    requires src.Valid() && n <= src.len
    ensures dst.Valid() && dst.Full() && fresh(dst.arr) && dst.View() == src.View()[..n]
  {
    var arr := new T[n];
    forall i | 0 <= i < n {
      arr[i] := src.arr[src.off + i];
    }
    dst := Slice(arr, 0, n, n);
    assert dst.View() == src.View()[..n];
  }

  /** `s[0:n]`: same array and capacity, shorter. */
  function Prefix<T>(s: Slice<T>, n: nat): (r: Slice<T>)
    requires s.Valid() && n <= s.len
    ensures r.Valid() && r.arr == s.arr && r.cap == s.cap
  {
    s.(len := n)
  }

  /** Nothing but the `n` elements after the end of `s` has changed in its array. */
  twostate predicate KeptOutside<T>(s: Slice<T>, n: nat)
    requires s.Valid()
    reads s.arr
  {
    forall k :: 0 <= k < s.arr.Length && !(s.off + s.len <= k < s.off + s.len + n) ==> s.arr[k] == old(s.arr[k])
  }

  /** `r` is what `append(s, w...)` makes of `s`. */
  twostate predicate Appended<T>(s: Slice<T>, w: Slice<T>, new r: Slice<T>)
    requires s.Valid() && w.Valid() && r.Valid()
    reads s.arr, r.arr
  {
    && r.View() == old(s.View()) + old(w.View())
    && (w.len == 0 ==> r == s)
    && (w.len > 0 ==> if s.len + w.len <= s.cap then r == s.(len := s.len + w.len) else fresh(r.arr))
    && KeptOutside(s, if s.len + w.len <= s.cap then w.len else 0)
  }

  /**
   The builders' way to extend a list: an empty one is replaced by `w`, array and all, any
   other one is appended to. `r` is the result.
   */
  twostate predicate Extended<T>(s: Slice<T>, w: Slice<T>, new r: Slice<T>)
    requires s.Valid() && w.Valid() && r.Valid()
    reads s.arr, r.arr
  {
    if s.len == 0 then r == w && r.View() == old(w.View()) && KeptOutside(s, 0) else Appended(s, w, r)
  }
}
