/**
 The statement tree: one constructor per builder of qb, each with the fields of its Go
 struct, and the document every `ToCql` writes. A batch holds the trees that were built
 into it.
 */
module Statements {
  import opened Docs
  import opened Values
  import opened Comparators
  import opened Using

  datatype Initializer = Initializer(column: string, value: Value)

  datatype Assignment = Assignment(column: string, value: Value, valuePrefix: string)

  datatype Statement =
    | Select(table: string, json: bool, distinct: seq<string>, groupBy: seq<string>, columns: seq<string>,
             whr: seq<Cmp>, orderBy: seq<string>, limitPerPartition: Limit, limit: Limit,
             allowFiltering: bool, bypassCache: bool, using: UsingState)
    | Insert(table: string, inits: seq<Initializer>, unique: bool, json: bool, using: UsingState)
    | Update(table: string, assignments: seq<Assignment>, whr: seq<Cmp>, cond: seq<Cmp>,
             existing: bool, allowFiltering: bool, using: UsingState)
    | Delete(table: string, columns: seq<string>, whr: seq<Cmp>, cond: seq<Cmp>,
             existing: bool, using: UsingState)
    | Batch(unlogged: bool, counter: bool, children: seq<Child>, using: UsingState)

  /** A statement added to a batch under a name prefix. */
  datatype Child = Child(prefix: string, stmt: Statement)

  /** Columns under a keyword, with a final space; absent without columns. */
  function PutColumnClause(d: Doc, keyword: string, cols: seq<string>): Doc {
    if cols == [] then d else Put(PutColumns(Put(d, keyword), cols), " ")
  }

  /** DISTINCT hides all other selectors; GROUP BY columns come first. */
  function PutSelectors(d: Doc, distinct: seq<string>, groupBy: seq<string>, columns: seq<string>): Doc {
    if distinct != [] then PutColumns(Put(d, "DISTINCT "), distinct)
    else if groupBy != [] then
      var e := PutColumns(d, groupBy);
      if columns != [] then PutColumns(Put(e, ","), columns) else e
    else if columns == [] then Put(d, "*")
    else PutColumns(d, columns)
  }

  function PutTable(d: Doc, table: string): Doc {
    Put(Put(d, table), " ")
  }

  function PutSelect(d: Doc, s: Statement): Doc
    requires s.Select?
  {
    var d1 := PutSelectors(PutIf(Put(d, "SELECT "), s.json, "JSON "), s.distinct, s.groupBy, s.columns);
    var d2 := PutClause(PutTable(Put(d1, " FROM "), s.table), "WHERE ", s.whr);
    var d3 := PutColumnClause(PutColumnClause(d2, "GROUP BY ", s.groupBy), "ORDER BY ", s.orderBy);
    var d4 := PutLimit(PutLimit(d3, s.limitPerPartition), s.limit);
    PutUsing(PutIf(PutIf(d4, s.allowFiltering, "ALLOW FILTERING "), s.bypassCache, "BYPASS CACHE "), s.using)
  }

  function InitColumns(inits: seq<Initializer>): seq<string> {
    if inits == [] then [] else [inits[0].column] + InitColumns(inits[1..])
  }

  function PutInits(d: Doc, inits: seq<Initializer>): Doc
    decreases |inits|
  {
    if inits == [] then d
    else if |inits| == 1 then PutValue(d, inits[0].value)
    else PutInits(Put(PutValue(d, inits[0].value), ","), inits[1..])
  }

  function PutInsert(d: Doc, s: Statement): Doc
    requires s.Insert?
  {
    var d1 := PutTable(Put(Put(d, "INSERT "), "INTO "), s.table);
    if s.json then Put(d1, "JSON ?")
    else
      var d2 := Put(PutColumns(Put(d1, "("), InitColumns(s.inits)), ") ");
      var d3 := Put(PutInits(Put(d2, "VALUES ("), s.inits), ") ");
      PutUsing(PutIf(d3, s.unique, "IF NOT EXISTS "), s.using)
  }

  function PutAssignment(d: Doc, a: Assignment): Doc {
    PutValue(Put(Put(Put(d, a.column), "="), a.valuePrefix), a.value)
  }

  function PutAssignments(d: Doc, assignments: seq<Assignment>): Doc
    decreases |assignments|
  {
    if assignments == [] then d
    else if |assignments| == 1 then PutAssignment(d, assignments[0])
    else PutAssignments(Put(PutAssignment(d, assignments[0]), ","), assignments[1..])
  }

  function PutConditions(d: Doc, whr: seq<Cmp>, cond: seq<Cmp>, existing: bool): Doc {
    PutIf(PutClause(PutClause(d, "WHERE ", whr), "IF ", cond), existing, "IF EXISTS ")
  }

  function PutUpdate(d: Doc, s: Statement): Doc
    requires s.Update?
  {
    var d1 := PutUsing(PutTable(Put(d, "UPDATE "), s.table), s.using);
    var d2 := Put(PutAssignments(Put(d1, "SET "), s.assignments), " ");
    PutIf(PutConditions(d2, s.whr, s.cond, s.existing), s.allowFiltering, "ALLOW FILTERING ")
  }

  function PutDelete(d: Doc, s: Statement): Doc
    requires s.Delete?
  {
    var d1 := Put(d, "DELETE ");
    var d2 := if s.columns == [] then d1 else Put(PutColumns(d1, s.columns), " ");
    PutConditions(PutUsing(PutTable(Put(d2, "FROM "), s.table), s.using), s.whr, s.cond, s.existing)
  }

  /** The added statements, each closed by a semicolon. */
  function PutChildren(d: Doc, children: seq<Child>): Doc
    decreases children, 0
  {
    if children == [] then d
    else
      var c := children[|children| - 1];
      Put(Put(Then(PutChildren(d, children[..|children| - 1]), Rename(c.prefix, Document(c.stmt))), ";"), " ")
  }

  function PutBatch(d: Doc, s: Statement): Doc
    requires s.Batch?
    decreases s, 0
  {
    var d1 := Put(PutIf(PutIf(Put(d, "BEGIN "), s.unlogged, "UNLOGGED "), s.counter, "COUNTER "), "BATCH ");
    Put(PutChildren(PutUsing(d1, s.using), s.children), "APPLY BATCH ")
  }

  /** The document of a statement. */
  function Document(s: Statement): Doc
    decreases s, 1
  {
    if s.Select? then PutSelect(Empty, s)
    else if s.Insert? then PutInsert(Empty, s)
    else if s.Update? then PutUpdate(Empty, s)
    else if s.Delete? then PutDelete(Empty, s)
    else PutBatch(Empty, s)
  }
}
