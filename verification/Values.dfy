/** Value expressions: qb/value.go, qb/func.go, and the list writers of qb/utils.go. */
module Values {
  import opened Text
  import opened Docs
  import opened Buffers

  datatype Value =
    | Param(name: string)
    | TupleParam(base: string, count: int)
    | Literal(text: string)
    | Func(fn: string, paramNames: seq<string>)

  /** The parameters `names` with commas between them. */
  function PutList(d: Doc, names: seq<string>): Doc
    decreases |names|
  {
    if names == [] then d
    else if |names| == 1 then PutPar(d, names[0])
    else PutList(Put(PutPar(d, names[0]), ","), names[1..])
  }

  function ElementName(base: string, i: int): string {
    base + "[" + Itoa(i) + "]"
  }

  function ElementNames(base: string, n: nat): (names: seq<string>)
    ensures |names| == n
  {
    if n == 0 then [] else ElementNames(base, n - 1) + [ElementName(base, n - 1)]
  }

  /** The last parameter is always there, so a count below one still gives one, named `base[count-1]`. */
  function TupleNames(base: string, count: int): seq<string> {
    ElementNames(base, if count < 1 then 0 else count - 1) + [ElementName(base, count - 1)]
  }

  function PutValue(d: Doc, v: Value): Doc {
    match v
    case Param(name) => PutPar(d, name)
    case TupleParam(base, count) => Put(PutList(Put(d, "("), TupleNames(base, count)), ")")
    case Literal(text) => Put(d, text)
    case Func(fn, ps) => Put(PutList(Put(Put(d, fn), "("), ps), ")")
  }

  function ValueNames(v: Value): seq<string> {
    match v
    case Param(name) => [name]
    case TupleParam(base, count) => TupleNames(base, count)
    case Literal(_) => []
    case Func(_, ps) => ps
  }

  /** qb/utils.go `placeholders`: marks with commas between them, here for the parameters `names`. */
  method Placeholders(cql: Buffer, count: int, ghost names: seq<string>)
    requires cql.Valid() && count == |names|
    modifies cql
    ensures cql.Valid() && cql.doc == PutList(old(cql.doc), names)
  {
    if count < 1 {
      return;
    }
    for i := 0 to count - 1
      invariant cql.Valid() && PutList(cql.doc, names[i..]) == PutList(old(cql.doc), names)
    {
      assert names[i..][1..] == names[i + 1..];
      cql.WriteMark(names[i]);
      cql.WriteByte(',');
    }
    cql.WriteMark(names[count - 1]);
  }

  /** The `writeCql` methods of `param`, `tupleParam`, `lit` and `Func`. */
  method WriteValue(v: Value, cql: Buffer) returns (names: seq<string>)
    requires cql.Valid()
    modifies cql
    ensures cql.Valid() && cql.doc == PutValue(old(cql.doc), v)
    ensures names == ValueNames(v)
  {
    match v
    case Param(name) =>
      cql.WriteMark(name);
      names := [name];
    case TupleParam(base, count) =>
      names := WriteTuple(base, count, cql);
    case Literal(text) =>
      cql.WriteString(text);
      names := [];
    case Func(fn, ps) =>
      cql.WriteString(fn);
      cql.WriteByte('(');
      Placeholders(cql, |ps|, ps);
      cql.WriteByte(')');
      names := ps;
  }

  method WriteTuple(base: string, count: int, cql: Buffer) returns (names: seq<string>)
    requires cql.Valid()
    modifies cql
    ensures cql.Valid() && cql.doc == PutValue(old(cql.doc), TupleParam(base, count))
    ensures names == TupleNames(base, count)
  {
    ghost var all := TupleNames(base, count);
    names := [];
    cql.WriteByte('(');
    ghost var d := cql.doc;
    var i := 0;
    while i < count - 1
      invariant 0 <= i < |all| && cql.Valid()
      invariant names == ElementNames(base, i)
      invariant PutList(cql.doc, all[i..]) == PutList(d, all)
    {
      ElementAt(base, count - 1, i);
      assert all[i..][1..] == all[i + 1..];
      cql.WriteMark(all[i]);
      cql.WriteByte(',');
      names := names + [ElementName(base, i)];
      i := i + 1;
    }
    assert all[i..] == [all[i]];
    cql.WriteMark(all[i]);
    cql.WriteByte(')');
    names := names + [ElementName(base, count - 1)];
  }

  lemma {:induction false} ElementAt(base: string, n: nat, i: nat)
    requires i < n
    ensures ElementNames(base, n)[i] == ElementName(base, i)
  {
    if i < n - 1 {
      ElementAt(base, n - 1, i);
    }
  }

  /** `name` is `base`, an opening bracket, the numeral of `i` and a closing bracket. */
  predicate Indexed(name: string, base: string, i: int) {
    var n := |base|;
    && |name| > n + 2 && name[..n] == base && name[n] == '[' && name[|name| - 1] == ']'
    && IsNumber(name[n + 1..|name| - 1]) && ReadInt(name[n + 1..|name| - 1]) == i
  }

  lemma {:induction false} ElementNameIs(base: string, i: int)
    ensures Indexed(ElementName(base, i), base, i)
  {
    ReadItoa(i);
    assert ElementName(base, i)[|base| + 1..|ElementName(base, i)| - 1] == Itoa(i);
  }

  /**
   A tuple has as many parameters as it was asked for exactly if that is at least one; else it has
   one all the same.
   */
  lemma {:induction false} TupleCount(base: string, count: int)
    ensures |TupleNames(base, count)| == count <==> count >= 1
    ensures forall i :: 0 <= i < count ==> Indexed(TupleNames(base, count)[i], base, i)
    ensures count < 1 ==> |TupleNames(base, count)| == 1 && Indexed(TupleNames(base, count)[0], base, count - 1)
  {
    forall i: int ensures Indexed(ElementName(base, i), base, i) {
      ElementNameIs(base, i);
    }
    forall i | 0 <= i < count - 1 ensures TupleNames(base, count)[i] == ElementName(base, i) {
      ElementAt(base, count - 1, i);
    }
  }

  /** `columns.writeCql`: the columns with commas between them. */
  function PutColumns(d: Doc, cols: seq<string>): Doc
    decreases |cols|
  {
    if cols == [] then d
    else if |cols| == 1 then Put(d, cols[0])
    else PutColumns(Put(Put(d, cols[0]), ","), cols[1..])
  }

  method WriteColumns(cols: seq<string>, cql: Buffer)
    requires cql.Valid()
    modifies cql
    ensures cql.Valid() && cql.doc == PutColumns(old(cql.doc), cols)
  {
    for i := 0 to |cols|
      invariant cql.Valid() && PutColumns(cql.doc, cols[i..]) == PutColumns(old(cql.doc), cols)
    {
      assert cols[i..][1..] == cols[i + 1..];
      cql.WriteString(cols[i]);
      if i < |cols| - 1 {
        cql.WriteByte(',');
      }
    }
  }
}
