/** Comparators and the WHERE and IF clauses: qb/cmp.go; the LIMIT clause: qb/limit.go. */
module Comparators {
  import opened Docs
  import opened Buffers
  import opened Values

  datatype Op = Eq | Ne | Lt | Leq | Gt | Geq | In | Cnt | CntKey | Like

  datatype Cmp = Cmp(op: Op, column: string, value: Value)

  function PutOp(d: Doc, op: Op): Doc {
    match op
    case Eq => Put(d, "=")
    case Ne => Put(d, "!=")
    case Lt => Put(d, "<")
    case Leq => Put(Put(d, "<"), "=")
    case Gt => Put(d, ">")
    case Geq => Put(Put(d, ">"), "=")
    case In => Put(d, " IN ")
    case Cnt => Put(d, " CONTAINS ")
    case CntKey => Put(d, " CONTAINS KEY ")
    case Like => Put(d, " LIKE ")
  }

  function PutCmp(d: Doc, c: Cmp): Doc {
    PutValue(PutOp(Put(d, c.column), c.op), c.value)
  }

  /** Comparators with ` AND ` between them. */
  function PutCmps(d: Doc, cs: seq<Cmp>): Doc
    decreases |cs|
  {
    if cs == [] then d
    else if |cs| == 1 then PutCmp(d, cs[0])
    else PutCmps(Put(PutCmp(d, cs[0]), " AND "), cs[1..])
  }

  /** A clause is absent without comparators; otherwise it ends with a space. */
  function PutClause(d: Doc, keyword: string, cs: seq<Cmp>): Doc {
    if cs == [] then d else Put(PutCmps(Put(d, keyword), cs), " ")
  }

  function CmpsNames(cs: seq<Cmp>): seq<string> {
    if cs == [] then [] else CmpsNames(cs[..|cs| - 1]) + ValueNames(cs[|cs| - 1].value)
  }

  method WriteCmp(c: Cmp, cql: Buffer) returns (names: seq<string>)
    requires cql.Valid()
    modifies cql
    ensures cql.Valid() && cql.doc == PutCmp(old(cql.doc), c)
    ensures names == ValueNames(c.value)
  {
    cql.WriteString(c.column);
    WriteOp(c.op, cql);
    names := WriteValue(c.value, cql);
  }

  method WriteOp(op: Op, cql: Buffer)
    requires cql.Valid()
    modifies cql
    ensures cql.Valid() && cql.doc == PutOp(old(cql.doc), op)
  {
    match op
    case Eq => cql.WriteByte('=');
    case Ne => cql.WriteString("!=");
    case Lt => cql.WriteByte('<');
    case Leq => cql.WriteByte('<'); cql.WriteByte('=');
    case Gt => cql.WriteByte('>');
    case Geq => cql.WriteByte('>'); cql.WriteByte('=');
    case In => cql.WriteString(" IN ");
    case Cnt => cql.WriteString(" CONTAINS ");
    case CntKey => cql.WriteString(" CONTAINS KEY ");
    case Like => cql.WriteString(" LIKE ");
  }

  method WriteCmps(cs: seq<Cmp>, cql: Buffer) returns (names: seq<string>)
    requires cql.Valid()
    modifies cql
    ensures cql.Valid() && cql.doc == Put(PutCmps(old(cql.doc), cs), " ")
    ensures names == CmpsNames(cs)
  {
    names := [];
    for i := 0 to |cs|
      invariant cql.Valid() && PutCmps(cql.doc, cs[i..]) == PutCmps(old(cql.doc), cs)
      invariant names == CmpsNames(cs[..i])
    {
      assert cs[i..][1..] == cs[i + 1..] && cs[..i + 1][..i] == cs[..i];
      var ns := WriteCmp(cs[i], cql);
      names := names + ns;
      if i < |cs| - 1 {
        cql.WriteString(" AND ");
      }
    }
    assert cs[..|cs|] == cs;
    cql.WriteByte(' ');
  }

  /** The `writeCql` methods of `where` and `_if`, which differ in the keyword only. */
  method WriteClause(keyword: string, cs: seq<Cmp>, cql: Buffer) returns (names: seq<string>)
    requires cql.Valid()
    modifies cql
    ensures cql.Valid() && cql.doc == PutClause(old(cql.doc), keyword, cs)
    ensures names == CmpsNames(cs)
  {
    if |cs| == 0 {
      return [];
    }
    cql.WriteString(keyword);
    names := WriteCmps(cs, cql);
  }

  datatype Limit = NoLimit | Limit(value: Value, perPartition: bool)

  function PutLimit(d: Doc, l: Limit): Doc {
    match l
    case NoLimit => d
    case Limit(v, perPartition) => Put(PutValue(Put(PutIf(d, perPartition, "PER PARTITION "), "LIMIT "), v), " ")
  }

  function LimitNames(l: Limit): seq<string> {
    if l.NoLimit? then [] else ValueNames(l.value)
  }

  method WriteLimit(l: Limit, cql: Buffer) returns (names: seq<string>)
    requires cql.Valid()
    modifies cql
    ensures cql.Valid() && cql.doc == PutLimit(old(cql.doc), l)
    ensures names == LimitNames(l)
  {
    if l.NoLimit? {
      return [];
    }
    if l.perPartition {
      cql.WriteString("PER PARTITION ");
    }
    cql.WriteString("LIMIT ");
    names := WriteValue(l.value, cql);
    cql.WriteByte(' ');
  }
}
