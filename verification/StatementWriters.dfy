/** The optional pieces that several builders write alike. */
module StatementWriters {
  import opened Docs
  import opened Buffers
  import opened Values
  import opened Comparators
  import opened Statements

  /** A fixed text that is there or not. */
  method WriteFlag(on: bool, text: string, cql: Buffer)
    requires cql.Valid()
    modifies cql
    ensures cql.Valid() && cql.doc == PutIf(old(cql.doc), on, text)
  {
    if on {
      cql.WriteString(text);
    }
  }

  /** The GROUP BY and ORDER BY clauses, absent without columns. */
  method WriteColumnClause(keyword: string, cols: seq<string>, cql: Buffer)
    requires cql.Valid()
    modifies cql
    ensures cql.Valid() && cql.doc == PutColumnClause(old(cql.doc), keyword, cols)
  {
    if |cols| > 0 {
      cql.WriteString(keyword);
      WriteColumns(cols, cql);
      cql.WriteByte(' ');
    }
  }

  /** The WHERE and IF clauses of an update or a delete. */
  method WriteConditions(whr: seq<Cmp>, cond: seq<Cmp>, existing: bool, cql: Buffer) returns (names: seq<string>)
    requires cql.Valid()
    modifies cql
    ensures cql.Valid() && cql.doc == PutConditions(old(cql.doc), whr, cond, existing)
    ensures names == CmpsNames(whr) + CmpsNames(cond)
  {
    names := WriteClause("WHERE ", whr, cql);
    var ns := WriteClause("IF ", cond, cql);
    names := names + ns;
    WriteFlag(existing, "IF EXISTS ", cql);
  }
}
