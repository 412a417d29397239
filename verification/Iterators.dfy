/**
 Struct scanning of iterx.go. A struct is a record of cells under field paths; the mapper
 gives every column name the path of its field, or the empty path when there is none. The
 driver's iterator is a list of rows, any of which may turn out undecodable at some column.
 */
module Iterators {
  import opened Wrappers

  type Path = seq<nat>

  datatype StructType = StructType(name: string, paths: map<string, Path>)
  {
    /** The traversal of a column: empty if no field has its name. */
    function Traversal(column: string): Path {
      if column in paths then paths[column] else []
    }
  }

  class Record<V> {
    const typ: StructType
    var cells: map<Path, V>

    constructor (typ: StructType)
      ensures this.typ == typ && cells == map[]
    {
      this.typ, cells := typ, map[];
    }
  }

  class Flag {
    var on: bool

    constructor ()
      ensures !on
    {
      on := false;
    }
  }

  /** What one destination handed to the driver points to. */
  datatype Dest<V> = Nowhere | ToFlag(flag: Flag) | ToCell(rec: Record<V>, path: Path)

  /** The same without the object. */
  datatype Slot = Skipped | Applied | Cell(path: Path)

  datatype Error =
    | MissingDestination(column: string)
    | WrongCount
    | Undecodable(row: nat)
    | StructOnly
    | TooManyColumns
    | SourceFailed
    | NotFound

  /** A row; `bad` is the column the driver cannot decode, if there is one. */
  datatype Row<V> = Row(cells: seq<V>, bad: Option<nat>)
  {
    /** The cells that are written before the row is given up. */
    function Written(): seq<V> {
      if bad.Some? && bad.value < |cells| then cells[..bad.value] else cells
    }

    predicate Good() {
      bad.Some? ==> bad.value >= |cells|
    }
  }

  /** Cells written to the slots from left to right. */
  function Decode<V>(slots: seq<Slot>, cells: seq<V>, m: map<Path, V>): map<Path, V>
    requires |cells| <= |slots|
    decreases |cells|
  {
    if cells == [] then m
    else
      var n := |cells| - 1;
      var d := Decode(slots, cells[..n], m);
      if slots[n].Cell? then d[slots[n].path := cells[n]] else d
  }

  function DecodeFlag<V>(slots: seq<Slot>, cells: seq<V>, truth: V -> bool, on: bool): bool
    requires |cells| <= |slots|
    decreases |cells|
  {
    if cells == [] then on
    else
      var n := |cells| - 1;
      if slots[n].Applied? then truth(cells[n]) else DecodeFlag(slots, cells[..n], truth, on)
  }

  /** A path ends up with the last column mapped to it, and with its old content if there is none. */
  lemma {:induction false} DecodeMeans<V>(slots: seq<Slot>, cells: seq<V>, m: map<Path, V>, p: Path)
    requires |cells| <= |slots|
    ensures
      || (exists j :: 0 <= j < |cells| && slots[j] == Cell(p) && (forall k :: j < k < |cells| ==> slots[k] != Cell(p))
            && p in Decode(slots, cells, m) && Decode(slots, cells, m)[p] == cells[j])
      || ((forall j :: 0 <= j < |cells| ==> slots[j] != Cell(p))
            && (p in Decode(slots, cells, m) <==> p in m)
            && (p in m ==> Decode(slots, cells, m)[p] == m[p]))
    decreases |cells|
  {
    if cells != [] {
      DecodeMeans(slots, cells[..|cells| - 1], m, p);
    }
  }

  const APPLIED := "[applied]"

  predicate Cas(columns: seq<string>) {
    |columns| > 0 && columns[0] == APPLIED
  }

  /** Where the columns of a row go, computed afresh. A field named `[applied]` wins over the flag. */
  function SlotAt(typ: StructType, columns: seq<string>, i: nat): Slot
    requires i < |columns|
  {
    if typ.Traversal(columns[i]) != [] then Cell(typ.Traversal(columns[i]))
    else if i == 0 && Cas(columns) then Applied
    else Skipped
  }

  function Slots(typ: StructType, columns: seq<string>): (slots: seq<Slot>)
    ensures |slots| == |columns|
  {
    seq(|columns|, i requires 0 <= i < |columns| => SlotAt(typ, columns, i))
  }

  /** A column goes to the field of its name, the first one without a field to the flag of a CAS result. */
  lemma {:induction false} SlotsMean(typ: StructType, columns: seq<string>)
    ensures forall i :: 0 <= i < |columns| ==>
      Slots(typ, columns)[i] ==
        (if columns[i] in typ.paths && typ.paths[columns[i]] != [] then Cell(typ.paths[columns[i]])
         else if i == 0 && columns[0] == "[applied]" then Applied
         else Skipped)
  {
  }

  /** A row in a struct: a field ends up with the last column of its name and keeps its content without one. */
  lemma {:induction false} RowMeans<V>(typ: StructType, columns: seq<string>, cells: seq<V>, m: map<Path, V>, p: Path)
    requires |cells| == |columns| && p != []
    ensures
      || (exists j :: 0 <= j < |columns| && columns[j] in typ.paths && typ.paths[columns[j]] == p
            && (forall k :: j < k < |columns| ==> !(columns[k] in typ.paths && typ.paths[columns[k]] == p))
            && p in Decode(Slots(typ, columns), cells, m) && Decode(Slots(typ, columns), cells, m)[p] == cells[j])
      || ((forall j :: 0 <= j < |columns| ==> !(columns[j] in typ.paths && typ.paths[columns[j]] == p))
            && (p in Decode(Slots(typ, columns), cells, m) <==> p in m)
            && (p in m ==> Decode(Slots(typ, columns), cells, m)[p] == m[p]))
  {
    hide Slots, Decode;
    SlotsMean(typ, columns);
    DecodeMeans(Slots(typ, columns), cells, m, p);
    assert forall j :: 0 <= j < |columns| ==>
      (Slots(typ, columns)[j] == Cell(p) <==> columns[j] in typ.paths && typ.paths[columns[j]] == p);
  }

  /** The flag gets the first column of a CAS result that has no field for it, and nothing else. */
  lemma {:induction false} FlagMeans<V>(typ: StructType, columns: seq<string>, cells: seq<V>, truth: V -> bool,
                                        on: bool)
    requires |cells| <= |columns|
    ensures DecodeFlag(Slots(typ, columns), cells, truth, on) ==
      (if cells != [] && columns[0] == "[applied]" && !("[applied]" in typ.paths && typ.paths["[applied]"] != [])
       then truth(cells[0]) else on)
    decreases |cells|
  {
    if cells != [] {
      var n := |cells| - 1;
      FlagMeans(typ, columns, cells[..n], truth, on);
      assert n > 0 ==> cells[..n][0] == cells[0];
    }
  }

  /** The first column without a field, if there is one. */
  lemma {:induction false} FirstMissingMeans(typ: StructType, columns: seq<string>)
    ensures FirstMissing(typ, columns) == None <==>
      forall i :: 0 <= i < |columns| ==> columns[i] in typ.paths && typ.paths[columns[i]] != []
    ensures FirstMissing(typ, columns).Some? ==>
      (var i := FirstMissing(typ, columns).value;
       && i < |columns| && !(columns[i] in typ.paths && typ.paths[columns[i]] != [])
       && forall j :: 0 <= j < i ==> columns[j] in typ.paths && typ.paths[columns[j]] != [])
  {
    assert forall i :: 0 <= i < |columns| ==>
      (typ.Traversal(columns[i]) != [] <==> columns[i] in typ.paths && typ.paths[columns[i]] != []);
  }

  predicate FirstAt(typ: StructType, columns: seq<string>, i: nat) {
    i < |columns| && typ.Traversal(columns[i]) == [] && forall j :: 0 <= j < i ==> typ.Traversal(columns[j]) != []
  }

  /** The first column without a destination field, if any. */
  function FirstMissing(typ: StructType, columns: seq<string>): (r: Option<nat>)
    ensures r == None <==> forall i :: 0 <= i < |columns| ==> typ.Traversal(columns[i]) != []
    ensures r.Some? ==> FirstAt(typ, columns, r.value)
  {
    if columns == [] then None
    else
      var r := FirstMissing(typ, columns[..|columns| - 1]);
      if r.Some? then r
      else if typ.Traversal(columns[|columns| - 1]) == [] then Some(|columns| - 1)
      else None
  }

  /** The driver's iterator. */
  class Iter<V> {
    const columns: seq<string>
    const rows: seq<Row<V>>
    const end: Option<Error>
    const truth: V -> bool
    var pos: nat
    var err: Option<Error>
    var closed: bool

    /** Every row has a cell for every column. */
    predicate Rectangular() {
      forall i :: 0 <= i < |rows| ==> |rows[i].cells| == |columns|
    }

    predicate Valid()
      reads this
    {
      pos <= |rows| && Rectangular()
    }

    predicate HasNext()
      requires Valid()
      reads this
    {
      err == None && pos < |rows|
    }

    /** A closed iterator gives up its buffers, so it may be scanned only if no row would be read. */
    predicate Readable()
      requires Valid()
      reads this
    {
      closed ==> !HasNext()
    }

    constructor (columns: seq<string>, rows: seq<Row<V>>, end: Option<Error>, truth: V -> bool)
      requires forall i :: 0 <= i < |rows| ==> |rows[i].cells| == |columns|
      ensures Valid() && pos == 0 && err == None && !closed
      ensures this.columns == columns && this.rows == rows && this.end == end && this.truth == truth
    {
      this.columns, this.rows, this.end, this.truth := columns, rows, end, truth;
      pos, err, closed := 0, None, false;
    }

    /**
     Writes the next row to the destinations. All of them belong to the record `rec` or
     are the flag: a destination left over from another record is not accepted here.
     */
    method Scan(dests: seq<Dest<V>>, slots: seq<Slot>, rec: Record<V>, flag: Flag) returns (ok: bool)
      requires Valid() && Readable() && Aimed(dests, slots, rec, flag)
      modifies this`pos, this`err, rec`cells, flag
      ensures Valid()
      ensures !old(HasNext()) ==> !ok && unchanged(this) && unchanged(rec) && unchanged(flag)
      ensures old(HasNext()) && |dests| != |columns| ==>
        !ok && pos == old(pos) && err == Some(WrongCount) && unchanged(rec) && unchanged(flag)
      ensures old(HasNext()) && |dests| == |columns| ==>
        var row := rows[old(pos)];
        && ok == row.Good()
        && rec.cells == Decode(slots, row.Written(), old(rec.cells))
        && flag.on == DecodeFlag(slots, row.Written(), truth, old(flag.on))
        && (if ok then pos == old(pos) + 1 && err == None else pos == old(pos) && err == Some(Undecodable(old(pos))))
    {
      if err.Some? || pos >= |rows| {
        return false;
      }
      if |dests| != |columns| {
        err := Some(WrongCount);
        return false;
      }
      var row := rows[pos];
      ghost var before, on := rec.cells, flag.on;
      for i := 0 to |columns|
        invariant Valid() && unchanged(this) && i <= |row.Written()|
        invariant rec.cells == Decode(slots, row.cells[..i], before)
        invariant flag.on == DecodeFlag(slots, row.cells[..i], truth, on)
      {
        if row.bad == Some(i) {
          err := Some(Undecodable(pos));
          return false;
        }
        assert row.cells[..i + 1][..i] == row.cells[..i];
        match dests[i]
        case Nowhere =>
        case ToFlag(f) => f.on := truth(row.cells[i]);
        case ToCell(r, path) => r.cells := r.cells[path := row.cells[i]];
      }
      assert row.cells[..|columns|] == row.cells;
      pos := pos + 1;
      return true;
    }

    method Close() returns (e: Option<Error>)
      modifies this`closed
      ensures closed && e == if err.Some? then err else end
    {
      closed := true;
      e := if err.Some? then err else end;
    }
  }

  /** The destinations are the slots of `rec` and the flag. */
  ghost predicate Aimed<V>(dests: seq<Dest<V>>, slots: seq<Slot>, rec: Record<V>, flag: Flag) {
    && |slots| == |dests|
    && forall i :: 0 <= i < |dests| ==>
         dests[i] == match slots[i]
                     case Skipped => Nowhere
                     case Applied => ToFlag(flag)
                     case Cell(path) => ToCell(rec, path)
  }

  function Traversals(typ: StructType, columns: seq<string>): (fields: seq<Path>)
    ensures |fields| == |columns|
  {
    seq(|columns|, i requires 0 <= i < |columns| => typ.Traversal(columns[i]))
  }

  predicate AllGood<V>(rows: seq<Row<V>>, p: nat, q: nat)
    requires q <= |rows|
  {
    forall i :: p <= i < q ==> rows[i].Good()
  }

  /** The number of decodable rows from `p` on. */
  function GoodFrom<V>(rows: seq<Row<V>>, p: nat): (n: nat)
    requires p <= |rows|
    ensures p + n <= |rows| && AllGood(rows, p, p + n)
    ensures p + n < |rows| ==> !rows[p + n].Good()
    decreases |rows| - p
  {
    if p < |rows| && rows[p].Good() then 1 + GoodFrom(rows, p + 1) else 0
  }

  /** An element of the caller's slice: a pointer to a struct, or the struct itself. */
  datatype Element<V> = Pointer(rec: Record<V>) | Plain(cells: map<Path, V>)
  {
    function Content(): map<Path, V>
      reads if Pointer? then {rec} else {}
    {
      if Pointer? then rec.cells else cells
    }
  }

  /** The caller's slice. */
  class Destination<V> {
    var elems: seq<Element<V>>
  }

  /** The elements are the rows from `p` on, each decoded into an empty struct. */
  ghost predicate Collected<V>(v: seq<Element<V>>, isPtr: bool, slots: seq<Slot>, rows: seq<Row<V>>, p: nat)
    reads set e | e in v && e.Pointer? :: e.rec
  {
    && p + |v| <= |rows|
    && forall i :: 0 <= i < |v| ==>
         && v[i].Pointer? == isPtr && |rows[p + i].cells| <= |slots|
         && v[i].Content() == Decode(slots, rows[p + i].cells, map[])
  }

  /** Pointers to different structs. */
  predicate Separate<V>(v: seq<Element<V>>) {
    forall i, j :: 0 <= i < j < |v| && v[i].Pointer? && v[j].Pointer? ==> v[i].rec != v[j].rec
  }

  lemma {:induction false} CollectedNone<V>(isPtr: bool, slots: seq<Slot>, rows: seq<Row<V>>, p: nat)
    requires p <= |rows|
    ensures Collected([], isPtr, slots, rows, p)
  {
  }

  lemma {:induction false} CollectedMore<V>(v: seq<Element<V>>, e: Element<V>, isPtr: bool, slots: seq<Slot>,
                                            rows: seq<Row<V>>, p: nat)
    requires Collected(v, isPtr, slots, rows, p)
    requires p + |v| < |rows| && |rows[p + |v|].cells| <= |slots|
    requires e.Pointer? == isPtr && e.Content() == Decode(slots, rows[p + |v|].cells, map[])
    ensures Collected(v + [e], isPtr, slots, rows, p)
  {
  }

  /** The flag after the rows from `p` up to `q` have been written to it, as far as each could be decoded. */
  function FlagAfter<V>(slots: seq<Slot>, rows: seq<Row<V>>, p: nat, q: nat, truth: V -> bool, on: bool): bool
    requires p <= q <= |rows| && forall i :: p <= i < q ==> |rows[i].cells| <= |slots|
    decreases q
  {
    if p == q then on
    else DecodeFlag(slots, rows[q - 1].Written(), truth, FlagAfter(slots, rows, p, q - 1, truth, on))
  }

  /** `before` after each of the rows has been decoded into it. */
  function DecodeRows<V>(slots: seq<Slot>, rows: seq<Row<V>>, before: map<Path, V>): map<Path, V>
    requires forall i :: 0 <= i < |rows| ==> |rows[i].cells| <= |slots|
  {
    if rows == [] then before
    else Decode(slots, rows[|rows| - 1].cells, DecodeRows(slots, rows[..|rows| - 1], before))
  }

  class Iterx<V(==)> {
    const iter: Iter<V>
    const strict: bool
    const structOnly: bool
    const applied: Flag
    var err: Option<Error>
    var fields: Option<seq<Path>>
    var values: array<Dest<V>>

    /**
     The cached traversals are those of `typ`, and the cached destinations are right where
     no field is filled in; in the other places they may still point into an earlier row.
     */
    ghost predicate Valid(typ: StructType)
      reads this, iter, values
    {
      && iter.Valid()
      && (fields.Some? ==>
            && fields.value == Traversals(typ, iter.columns) && values.Length == |iter.columns|
            && forall i :: 0 <= i < values.Length && typ.Traversal(iter.columns[i]) == [] ==>
                 values[i] == if i == 0 && Cas(iter.columns) then ToFlag(applied) else Nowhere)
    }

    constructor (iter: Iter<V>, strict: bool, structOnly: bool)
      requires iter.Valid()
      ensures forall typ :: Valid(typ)
      ensures this.iter == iter && this.strict == strict && this.structOnly == structOnly
      ensures err == None && fields == None && fresh(applied) && !applied.on && fresh(values)
    {
      this.iter, this.strict, this.structOnly := iter, strict, structOnly;
      err, fields := None, None;
      applied := new Flag();
      values := new Dest<V>[0];
    }

    /** Strict scanning of anything but a CAS result wants a field for every column. */
    predicate Rejects(typ: StructType)
      reads this
    {
      fields == None && strict && !Cas(iter.columns) && FirstMissing(typ, iter.columns).Some?
    }

    /**
     The next row, if there was one at `p`, went into the slots: `before` became `after`.
     The driver refuses a wrong number of slots.
     */
    ghost predicate Scanned(had: bool, p: nat, ok: bool, slots: seq<Slot>, before: map<Path, V>, after: map<Path, V>,
                            on: bool)
      requires iter.Valid() && (had ==> p < |iter.rows|)
      reads this, iter, applied
    {
      if !had then !ok && after == before && applied.on == on
      else if |slots| != |iter.columns| then
        !ok && after == before && applied.on == on && iter.pos == p && iter.err == Some(WrongCount)
      else
        var row := iter.rows[p];
        && ok == row.Good()
        && after == Decode(slots, row.Written(), before)
        && applied.on == DecodeFlag(slots, row.Written(), iter.truth, on)
        && (if ok then iter.pos == p + 1 && iter.err == None else iter.pos == p && iter.err == Some(Undecodable(p)))
    }

    predicate Refuses(typ: StructType, scannable: bool)
      reads this
    {
      !scannable && Rejects(typ)
    }

    method StructScan(value: Record<V>) returns (ok: bool)
      requires Valid(value.typ) && iter.Readable()
      modifies this`err, this`fields, this`values, values, iter`pos, iter`err, value`cells, applied
      ensures fresh(values) || values == old(values)
      ensures old(Rejects(value.typ)) ==>
        !ok && Rejected(value.typ) && unchanged(iter) && unchanged(value) && applied.on == old(applied.on)
      ensures !old(Rejects(value.typ)) ==>
        && Valid(value.typ) && fields.Some? && err == old(err)
        && Scanned(old(iter.HasNext()), old(iter.pos), ok, Slots(value.typ, iter.columns),
                   old(value.cells), value.cells, old(applied.on))
        && (!old(iter.HasNext()) ==> unchanged(iter))
    {
      ok := FillCache(value.typ);
      if !ok {
        return;
      }
      FieldsByTraversal(value, fields.value, values);
      assert Aimed(values[..], Slots(value.typ, iter.columns), value, applied);
      ok := iter.Scan(values[..], Slots(value.typ, iter.columns), value, applied);
    }

    /** `scan`: the whole row into one value, kept under the empty path. */
    method ScanValue(value: Record<V>) returns (ok: bool)
      requires iter.Valid() && iter.Readable()
      modifies iter`pos, iter`err, value`cells, applied
      ensures iter.Valid()
      ensures Scanned(old(iter.HasNext()), old(iter.pos), ok, [Cell([])], old(value.cells), value.cells,
                      old(applied.on))
      ensures !old(iter.HasNext()) ==> unchanged(iter)
    {
      ok := iter.Scan([ToCell(value, [])], [Cell([])], value, applied);
    }

    /** The error of strict scanning: the first column without a field. */
    ghost predicate Rejected(typ: StructType)
      reads this
    {
      var missing := FirstMissing(typ, iter.columns);
      missing.Some? && err == Some(MissingDestination(iter.columns[missing.value]))
    }

    /** The first part of `structScan`, done once. */
    method FillCache(typ: StructType) returns (ok: bool)
      requires Valid(typ)
      modifies this`err, this`fields, this`values
      ensures fresh(values) || values == old(values)
      ensures ok == !old(Rejects(typ))
      ensures !ok ==> Rejected(typ)
      ensures ok ==> Valid(typ) && fields.Some? && err == old(err)
    {
      if fields == None {
        var columns := iter.columns;
        var cas := Cas(columns);
        fields := Some(Traversals(typ, columns));
        if strict && !cas {
          var missing := MissingField(fields.value);
          if missing.Some? {
            FirstUnique(typ, columns, missing.value);
            err := Some(MissingDestination(columns[missing.value]));
            return false;
          }
          assert forall i :: 0 <= i < |columns| ==> fields.value[i] == typ.Traversal(columns[i]);
        }
        values := new Dest<V>[|columns|](_ => Nowhere);
        if cas {
          values[0] := ToFlag(applied);
        }
      }
      return true;
    }

    /** The slots of a whole row: one for a scannable base type, else one for each column. */
    function RowSlots(typ: StructType, scannable: bool): seq<Slot> {
      if scannable then [Cell([])] else Slots(typ, iter.columns)
    }

    /** How many rows a scan of everything delivers that starts at `p`; `had` says that the driver could go on. */
    function Rest(slots: seq<Slot>, p: nat, had: bool): (n: nat)
      requires p <= |iter.rows|
      ensures p + n <= |iter.rows|
    {
      if !had || |slots| != |iter.columns| then 0 else GoodFrom(iter.rows, p)
    }

    /** The applied flag after it; the row that ends it may still have been written in part. */
    function FlagAtEnd(slots: seq<Slot>, p: nat, had: bool, on: bool): bool
      requires iter.Rectangular() && p <= |iter.rows|
    {
      var q := p + Rest(slots, p, had);
      if !had || |slots| != |iter.columns| then on
      else FlagAfter(slots, iter.rows, p, if q < |iter.rows| then q + 1 else q, iter.truth, on)
    }

    /** The driver's error after it. */
    function ErrAtEnd(slots: seq<Slot>, p: nat, had: bool, e: Option<Error>): Option<Error>
      requires p <= |iter.rows|
    {
      var q := p + Rest(slots, p, had);
      if !had then e
      else if |slots| != |iter.columns| then Some(WrongCount)
      else if q < |iter.rows| then Some(Undecodable(q))
      else None
    }

    /** One turn of the loop of `scanAll`: the next row in a new struct, if it can be had. */
    method NextRow(typ: StructType, isPtr: bool, scannable: bool) returns (e: Option<Element<V>>)
      requires Valid(typ) && iter.Readable()
      modifies this`err, this`fields, this`values, values, iter`pos, iter`err, applied
      ensures old(Refuses(typ, scannable)) ==>
        e == None && Rejected(typ) && unchanged(iter) && applied.on == old(applied.on)
      ensures !old(Refuses(typ, scannable)) ==> !Refuses(typ, scannable) && err == old(err)
      ensures !old(Refuses(typ, scannable)) ==> Valid(typ) && (fresh(values) || values == old(values))
      ensures !old(Refuses(typ, scannable)) ==> var slots := RowSlots(typ, scannable); var p := old(iter.pos);
        if !old(iter.HasNext()) then e == None && unchanged(iter) && applied.on == old(applied.on)
        else if |slots| != |iter.columns| then
          e == None && iter.pos == p && applied.on == old(applied.on) && iter.err == Some(WrongCount)
        else
          && applied.on == DecodeFlag(slots, iter.rows[p].Written(), iter.truth, old(applied.on))
          && (e.Some? <==> iter.rows[p].Good())
          && (e == None ==> iter.pos == p && iter.err == Some(Undecodable(p)))
          && (e.Some? ==>
                && iter.pos == p + 1 && iter.err == None
                && e.value.Pointer? == isPtr && (isPtr ==> fresh(e.value.rec))
                && e.value.Content() == Decode(slots, iter.rows[p].cells, map[]))
    {
      var vp := new Record<V>(typ);
      var ok;
      if !scannable {
        ok := StructScan(vp);
      } else {
        ok := ScanValue(vp);
      }
      e := if !ok then None else Some(if isPtr then Pointer(vp) else Plain(vp.cells));
    }

    /** So far `n` rows from `p` on have been delivered, and the scan has not come to its end. */
    ghost predicate Underway(slots: seq<Slot>, p: nat, n: nat, had: bool, on: bool)
      reads iter, applied
    {
      && iter.Valid() && iter.pos == p + n && AllGood(iter.rows, p, p + n)
      && (if n == 0 then iter.HasNext() == had && applied.on == on
          else had && iter.err == None && |slots| == |iter.columns|
               && applied.on == FlagAfter(slots, iter.rows, p, p + n, iter.truth, on))
    }

    /** The next row, while the scan is under way; without one, the scan has delivered what it could. */
    method NextUnderway(typ: StructType, isPtr: bool, scannable: bool, ghost slots: seq<Slot>, ghost p: nat,
                        ghost n: nat, ghost had: bool, ghost on: bool) returns (e: Option<Element<V>>)
      requires Valid(typ) && iter.Readable()
      requires slots == RowSlots(typ, scannable) && Underway(slots, p, n, had, on)
      modifies this`err, this`fields, this`values, values, iter`pos, iter`err, applied
      ensures old(Refuses(typ, scannable)) ==>
        e == None && Rejected(typ) && unchanged(iter) && applied.on == old(applied.on)
      ensures !old(Refuses(typ, scannable)) ==> !Refuses(typ, scannable) && err == old(err)
      ensures !old(Refuses(typ, scannable)) ==> Valid(typ) && (fresh(values) || values == old(values))
      ensures e.Some? ==>
        && !iter.closed && Underway(slots, p, n + 1, had, on)
        && e.value.Pointer? == isPtr && (isPtr ==> fresh(e.value.rec))
        && |iter.rows[p + n].cells| == |slots| && e.value.Content() == Decode(slots, iter.rows[p + n].cells, map[])
      ensures !old(Refuses(typ, scannable)) && e == None ==>
        && n == Rest(slots, p, had) && iter.pos == p + n && applied.on == FlagAtEnd(slots, p, had, on)
        && iter.err == ErrAtEnd(slots, p, had, old(iter.err))
    {
      hide RowSlots, Refuses, Element.Content, FlagAtEnd, Rest, FlagAfter, DecodeFlag, Decode, Row.Written;
      ScanStep(slots, p, n, had, on);
      e := NextRow(typ, isPtr, scannable);
    }

    /** What one more row means for a scan under way. */
    lemma {:induction false} ScanStep(slots: seq<Slot>, p: nat, n: nat, had: bool, on: bool)
      requires Underway(slots, p, n, had, on)
      ensures !iter.HasNext() || |slots| != |iter.columns| ==>
        Rest(slots, p, had) == n && FlagAtEnd(slots, p, had, on) == applied.on
      ensures iter.HasNext() && |slots| == |iter.columns| ==>
        var flag := DecodeFlag(slots, iter.rows[p + n].Written(), iter.truth, applied.on);
        if iter.rows[p + n].Good() then
          AllGood(iter.rows, p, p + n + 1) && FlagAfter(slots, iter.rows, p, p + n + 1, iter.truth, on) == flag
        else
          Rest(slots, p, had) == n && FlagAtEnd(slots, p, had, on) == flag
    {
      hide DecodeFlag, Row.Written, Row.Good;
      if had && |slots| == |iter.columns| && (iter.HasNext() ==> !iter.rows[p + n].Good()) {
        GoodFromIs(iter.rows, p, n);
        assert FlagAfter(slots, iter.rows, p, p + n, iter.truth, on) == applied.on;
      }
    }

    /** The loop of `scanAll`. */
    method ScanRows(typ: StructType, isPtr: bool, scannable: bool) returns (v: seq<Element<V>>)
      requires Valid(typ) && iter.Readable()
      modifies this`err, this`fields, this`values, values, iter`pos, iter`err, applied
      ensures old(Refuses(typ, scannable)) ==>
        v == [] && Rejected(typ) && unchanged(iter) && applied.on == old(applied.on)
      ensures !old(Refuses(typ, scannable)) ==> Valid(typ) && err == old(err)
      ensures !old(Refuses(typ, scannable)) ==>
        var slots, p, had := RowSlots(typ, scannable), old(iter.pos), old(iter.HasNext());
        && |v| == Rest(slots, p, had) && iter.pos == p + |v|
        && Collected(v, isPtr, slots, iter.rows, p) && Separate(v)
        && applied.on == FlagAtEnd(slots, p, had, old(applied.on))
        && iter.err == ErrAtEnd(slots, p, had, old(iter.err))
      ensures forall i :: 0 <= i < |v| && v[i].Pointer? ==> fresh(v[i].rec)
    {
      hide RowSlots, Refuses, Rejected, Collected, Element.Content, FlagAtEnd, Rest, Iter.HasNext;
      v := [];
      ghost var slots, p, had, on := RowSlots(typ, scannable), iter.pos, iter.HasNext(), applied.on;
      CollectedNone(isPtr, slots, iter.rows, p);
      while true
        invariant Valid(typ) && (fresh(values) || values == old(values)) && err == old(err)
        invariant Refuses(typ, scannable) == old(Refuses(typ, scannable))
        invariant Refuses(typ, scannable) ==> v == [] && unchanged(iter)
        invariant !had ==> iter.err == old(iter.err)
        invariant iter.Readable() && Underway(slots, p, |v|, had, on) && Collected(v, isPtr, slots, iter.rows, p)
        invariant Separate(v) && forall i :: 0 <= i < |v| && v[i].Pointer? ==> fresh(v[i].rec)
        decreases |iter.rows| - iter.pos
      {
        var e := NextUnderway(typ, isPtr, scannable, slots, p, |v|, had, on);
        if e == None {
          break;
        }
        CollectedMore(v, e.value, isPtr, slots, iter.rows, p);
        v := v + [e.value];
      }
    }

    /** `structOnly` turns a scannable struct into an ordinary one and refuses other scannable types. */
    method Check(scannable: bool, isStruct: bool) returns (ok: bool, whole: bool)
      modifies this`err
      ensures ok ==> err == old(err)
      ensures ok == (CheckError(scannable, isStruct) == None) && (!ok ==> err == CheckError(scannable, isStruct))
      ensures ok ==> whole == (scannable && !structOnly)
    {
      whole := scannable;
      if structOnly && whole {
        if isStruct {
          whole := false;
        } else {
          err := Some(StructOnly);
          return false, whole;
        }
      }
      if whole && |iter.columns| > 1 {
        err := Some(TooManyColumns);
        return false, whole;
      }
      return true, whole;
    }

    function CheckError(scannable: bool, isStruct: bool): Option<Error> {
      if scannable && structOnly then if isStruct then None else Some(StructOnly)
      else if scannable && |iter.columns| > 1 then Some(TooManyColumns)
      else None
    }

    /** Exactly when a destination is refused for its kind, and with which error. */
    lemma {:induction false} CheckErrorMeans(scannable: bool, isStruct: bool)
      ensures CheckError(scannable, isStruct) == Some(StructOnly) <==> scannable && structOnly && !isStruct
      ensures CheckError(scannable, isStruct) == Some(TooManyColumns) <==>
        scannable && !structOnly && |iter.columns| > 1
      ensures CheckError(scannable, isStruct) == None <==>
        !scannable || (structOnly && isStruct) || (!structOnly && |iter.columns| <= 1)
    {
    }

    /** Exactly when strict scanning refuses a struct: before the first row, outside CAS results. */
    lemma {:induction false} RefusesMeans(typ: StructType, whole: bool)
      ensures Refuses(typ, whole) <==>
        (!whole && strict && fields == None
         && (iter.columns == [] || iter.columns[0] != "[applied]")
         && exists c :: c in iter.columns && !(c in typ.paths && typ.paths[c] != []))
    {
      FirstMissingMeans(typ, iter.columns);
      if FirstMissing(typ, iter.columns).Some? {
        assert iter.columns[FirstMissing(typ, iter.columns).value] in iter.columns;
      }
    }

    /**
     The caller's slice got the rows up to the first undecodable one, each decoded into a
     struct of its own, and stayed as it was if there were none.
     */
    twostate predicate Delivered(dest: Destination<V>, typ: StructType, isPtr: bool, whole: bool)
      requires old(iter.Valid()) && iter.Valid()
      reads this, iter, applied, dest, set e | e in dest.elems && e.Pointer? :: e.rec
    {
      var slots, p, had := RowSlots(typ, whole), old(iter.pos), old(iter.HasNext());
      var n := Rest(slots, p, had);
      && iter.pos == p + n && iter.err == ErrAtEnd(slots, p, had, old(iter.err))
      && (if n == 0 then dest.elems == old(dest.elems)
          else |dest.elems| == n && Collected(dest.elems, isPtr, slots, iter.rows, p) && Separate(dest.elems))
      && applied.on == FlagAtEnd(slots, p, had, old(applied.on))
    }

    /**
     `scanAll` for a slice of structs of type `typ`, or of pointers to them; `scannable` says
     that the driver scans the base type as one value.
     */
    method ScanAll(dest: Destination<V>, typ: StructType, isPtr: bool, scannable: bool, isStruct: bool)
      returns (ok: bool)
      requires Valid(typ) && iter.Readable()
      modifies this`err, this`fields, this`values, values, iter`pos, iter`err, applied, dest
      ensures iter.Valid() && ok == (CheckError(scannable, isStruct) == None)
      ensures !ok ==> err == CheckError(scannable, isStruct) && unchanged(dest) && unchanged(iter) && unchanged(applied)
      ensures ok && old(Refuses(typ, scannable && !structOnly)) ==>
        Rejected(typ) && unchanged(dest) && unchanged(iter) && applied.on == old(applied.on)
      ensures ok && !old(Refuses(typ, scannable && !structOnly)) ==>
        err == old(err) && Delivered(dest, typ, isPtr, scannable && !structOnly)
    {
      var whole;
      ok, whole := Check(scannable, isStruct);
      if !ok {
        return;
      }
      var v := ScanRows(typ, isPtr, whole);
      if v != [] {
        dest.elems := v;
      }
      return true;
    }

    /** The first error wins: one of this iterator over the driver's. */
    method Close() returns (e: Option<Error>)
      modifies this`err, iter`closed
      ensures iter.closed
      ensures e == err == if old(err).Some? then old(err) else if iter.err.Some? then iter.err else iter.end
    {
      e := iter.Close();
      if err == None {
        err := e;
      }
      return err;
    }

    /** Without an error, all rows that were left have been delivered. */
    method Select(dest: Destination<V>, typ: StructType, isPtr: bool, scannable: bool, isStruct: bool)
      returns (e: Option<Error>)
      requires Valid(typ) && iter.Readable()
      modifies this`err, this`fields, this`values, values, iter, applied, dest
      ensures e == err && iter.Valid() && iter.closed
      ensures CheckError(scannable, isStruct).Some? ==> e == CheckError(scannable, isStruct) && unchanged(dest)
      ensures CheckError(scannable, isStruct) == None && old(Refuses(typ, scannable && !structOnly)) ==>
        Rejected(typ) && unchanged(dest)
      ensures CheckError(scannable, isStruct) == None && !old(Refuses(typ, scannable && !structOnly)) ==>
        && Delivered(dest, typ, isPtr, scannable && !structOnly)
        && e == (if old(err).Some? then old(err) else if iter.err.Some? then iter.err else iter.end)
        && (e == None ==> iter.pos == |iter.rows|)
    {
      var _ := ScanAll(dest, typ, isPtr, scannable, isStruct);
      var _ := Close();
      e := err;
    }

    /** `scanAny`: one row, straight into the caller's value. */
    method ScanAny(value: Record<V>, scannable: bool, isStruct: bool) returns (ok: bool)
      requires Valid(value.typ) && iter.Readable()
      modifies this`err, this`fields, this`values, values, iter`pos, iter`err, value`cells, applied
      ensures iter.Valid()
      ensures CheckError(scannable, isStruct).Some? ==>
        !ok && err == CheckError(scannable, isStruct) && unchanged(value) && unchanged(iter)
      ensures CheckError(scannable, isStruct) == None && old(Refuses(value.typ, scannable && !structOnly)) ==>
        !ok && Rejected(value.typ) && unchanged(value) && unchanged(iter)
      ensures CheckError(scannable, isStruct) == None && !old(Refuses(value.typ, scannable && !structOnly)) ==>
        Valid(value.typ) && !Refuses(value.typ, scannable && !structOnly) && (fresh(values) || values == old(values))
      ensures CheckError(scannable, isStruct) == None && !old(Refuses(value.typ, scannable && !structOnly)) ==>
        && err == old(err) && (!old(iter.HasNext()) ==> unchanged(iter))
        && Scanned(old(iter.HasNext()), old(iter.pos), ok, RowSlots(value.typ, scannable && !structOnly),
                   old(value.cells), value.cells, old(applied.on))
    {
      var whole;
      ok, whole := Check(scannable, isStruct);
      if !ok {
        return;
      }
      if whole {
        ok := ScanValue(value);
      } else {
        ok := StructScan(value);
      }
    }

    /** `checkErrAndNotFound`: an iterator without rows is an error of its own. */
    method CheckErrAndNotFound() returns (e: Option<Error>)
      ensures e == if err.Some? then err else if |iter.rows| == 0 then Some(NotFound) else None
    {
      if err.Some? {
        return err;
      } else if |iter.rows| == 0 {
        return Some(NotFound);
      }
      return None;
    }

    /**
     Reports no error exactly when none stood before, there are rows at all, and the next row
     can be decoded or there is none left. Without an error, the next row has been decoded
     into the value, unless all rows had been delivered before: then the value stays as it was.
     */
    method Get(value: Record<V>, scannable: bool, isStruct: bool) returns (e: Option<Error>)
      requires Valid(value.typ) && iter.Readable()
      modifies this`err, this`fields, this`values, values, iter, value`cells, applied
      ensures iter.Valid() && iter.closed
      ensures CheckError(scannable, isStruct) == None && !old(Refuses(value.typ, scannable && !structOnly)) ==>
        Valid(value.typ) && !Refuses(value.typ, scannable && !structOnly)
      ensures e == None <==>
        && CheckError(scannable, isStruct) == None && !old(Refuses(value.typ, scannable && !structOnly))
        && old(err) == None && old(iter.err) == None && iter.end == None && |iter.rows| > 0
        && (old(iter.pos) < |iter.rows| ==>
              iter.rows[old(iter.pos)].Good() && |RowSlots(value.typ, scannable && !structOnly)| == |iter.columns|)
      ensures e == None ==>
        var slots, p := RowSlots(value.typ, scannable && !structOnly), old(iter.pos);
        && |iter.rows| > 0 && old(err) == err == None && iter.err == None && iter.end == None
        && (fresh(values) || values == old(values))
        && (if old(iter.HasNext()) then
              && iter.pos == p + 1
              && iter.rows[p].Good() && |slots| == |iter.columns|
              && value.cells == Decode(slots, iter.rows[p].cells, old(value.cells))
            else p == iter.pos == |iter.rows| && value.cells == old(value.cells))
      ensures
        |iter.rows| == 0 && CheckError(scannable, isStruct) == None &&
        !old(Refuses(value.typ, scannable && !structOnly)) ==>
        && unchanged(value)
        && e == if old(err).Some? then old(err) else if iter.err.Some? then iter.err
                else if iter.end.Some? then iter.end else Some(NotFound)
    {
      var _ := ScanAny(value, scannable, isStruct);
      var _ := Close();
      e := CheckErrAndNotFound();
    }

    /**
     `Get` after all rows have been scanned: it reports no error either, and the value keeps
     what the rows made of it.
     */
    method GetPastEnd(value: Record<V>, scannable: bool, isStruct: bool) returns (e: Option<Error>)
      requires Valid(value.typ) && !iter.closed && err == None && iter.err == None && iter.end == None
      requires CheckError(scannable, isStruct) == None && !Rejects(value.typ)
      requires |iter.rows| > 0 && iter.pos == 0 && AllGood(iter.rows, 0, |iter.rows|)
      modifies this`err, this`fields, this`values, values, iter, value`cells, applied
      ensures e == None && iter.Valid() && iter.closed
      ensures value.cells == DecodeRows(Slots(value.typ, iter.columns), iter.rows, old(value.cells))
    {
      hide Decode, CheckError, Slots;
      ghost var slots, rows := Slots(value.typ, iter.columns), iter.rows;
      for n := 0 to |iter.rows|
        invariant Valid(value.typ) && !iter.closed && err == None && iter.err == None && iter.pos == n
        invariant !Rejects(value.typ) && (fresh(values) || values == old(values))
        invariant value.cells == DecodeRows(slots, rows[..n], old(value.cells))
      {
        assert rows[..n + 1][..n] == rows[..n];
        var ok := StructScan(value);
        assert ok;
      }
      assert rows[..|rows|] == rows;
      e := Get(value, scannable, isStruct);
    }
  }

  lemma {:induction false} GoodFromIs<V>(rows: seq<Row<V>>, p: nat, n: nat)
    requires p + n <= |rows| && AllGood(rows, p, p + n)
    requires p + n < |rows| ==> !rows[p + n].Good()
    ensures GoodFrom(rows, p) == n
    decreases n
  {
    if n > 0 {
      GoodFromIs(rows, p + 1, n - 1);
    }
  }

  lemma {:induction false} FirstUnique(typ: StructType, columns: seq<string>, i: nat)
    requires i < |columns| && Traversals(typ, columns)[i] == []
    requires forall j :: 0 <= j < i ==> Traversals(typ, columns)[j] != []
    ensures FirstMissing(typ, columns) == Some(i)
  {
    assert typ.Traversal(columns[i]) == [];
    assert forall j :: 0 <= j < i ==> Traversals(typ, columns)[j] == typ.Traversal(columns[j]);
  }

  /** Points every destination that has a field at that field of `value`; leaves the others alone. */
  method FieldsByTraversal<V>(value: Record<V>, traversals: seq<Path>, values: array<Dest<V>>)
    requires |traversals| == values.Length
    modifies values
    ensures forall i :: 0 <= i < values.Length ==>
      values[i] == if traversals[i] == [] then old(values[i]) else ToCell(value, traversals[i])
  {
    for i := 0 to |traversals|
      invariant forall j :: 0 <= j < values.Length ==>
        values[j] == if j >= i || traversals[j] == [] then old(values[j]) else ToCell(value, traversals[j])
    {
      if traversals[i] == [] {
        continue;
      }
      values[i] := ToCell(value, traversals[i]);
    }
  }

  /** The index of the first empty traversal. */
  method MissingField(traversals: seq<Path>) returns (f: Option<nat>)
    ensures f == None <==> forall i :: 0 <= i < |traversals| ==> traversals[i] != []
    ensures f.Some? ==>
      && f.value < |traversals| && traversals[f.value] == []
      && forall j :: 0 <= j < f.value ==> traversals[j] != []
  {
    for i := 0 to |traversals|
      invariant forall j :: 0 <= j < i ==> traversals[j] != []
    {
      if traversals[i] == [] {
        return Some(i);
      }
    }
    return None;
  }
}
