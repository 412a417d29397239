/**
 Structural facts about every statement document: which names it has and in which order,
 when its text is free of `?`, and that every parameter is followed by a separator.
 */
module Shape {
  import opened Text
  import opened Docs
  import opened Values
  import opened Durations
  import opened Comparators
  import opened Using
  import opened Statements

  // ---- texts free of `?` ----

  predicate Clean(text: string) {
    '?' !in text
  }

  predicate CleanAll(texts: seq<string>) {
    texts == [] || (Clean(texts[0]) && CleanAll(texts[1..]))
  }

  predicate CleanValue(v: Value) {
    match v
    case Param(_) => true
    case TupleParam(_, _) => true
    case Literal(text) => Clean(text)
    case Func(fn, _) => Clean(fn)
  }

  predicate CleanCmps(cs: seq<Cmp>) {
    cs == [] || (Clean(cs[0].column) && CleanValue(cs[0].value) && CleanCmps(cs[1..]))
  }

  predicate CleanLimit(l: Limit) {
    l.Limit? ==> CleanValue(l.value)
  }

  predicate CleanInitValues(inits: seq<Initializer>) {
    inits == [] || (CleanValue(inits[0].value) && CleanInitValues(inits[1..]))
  }

  predicate CleanAssignments(assignments: seq<Assignment>) {
    assignments == [] ||
    (var a := assignments[0];
     Clean(a.column) && Clean(a.valuePrefix) && CleanValue(a.value) && CleanAssignments(assignments[1..]))
  }

  predicate CleanSelectors(distinct: seq<string>, groupBy: seq<string>, columns: seq<string>) {
    if distinct != [] then CleanAll(distinct) else CleanAll(groupBy) && CleanAll(columns)
  }

  /** The caller's texts that reach the statement hold no `?`, and nothing inserts JSON. */
  predicate CleanStatement(s: Statement) {
    match s
    case Select(table, _, distinct, groupBy, columns, whr, orderBy, perPartition, limit, _, _, _) =>
      && CleanSelectors(distinct, groupBy, columns) && Clean(table) && CleanCmps(whr)
      && CleanAll(groupBy) && CleanAll(orderBy) && CleanLimit(perPartition) && CleanLimit(limit)
    case Insert(table, inits, _, json, _) =>
      Clean(table) && !json && CleanAll(InitColumns(inits)) && CleanInitValues(inits)
    case Update(table, assignments, whr, cond, _, _, _) =>
      Clean(table) && CleanAssignments(assignments) && CleanCmps(whr) && CleanCmps(cond)
    case Delete(table, columns, whr, cond, _, _) =>
      CleanAll(columns) && Clean(table) && CleanCmps(whr) && CleanCmps(cond)
    case Batch(_, _, children, _) => CleanChildren(children)
  }

  predicate CleanChildren(children: seq<Child>) {
    children == [] || (CleanChildren(children[..|children| - 1]) && CleanStatement(children[|children| - 1].stmt))
  }

  // ---- names in order ----

  function InitsNames(inits: seq<Initializer>): seq<string> {
    if inits == [] then [] else InitsNames(inits[..|inits| - 1]) + ValueNames(inits[|inits| - 1].value)
  }

  function AssignmentsNames(assignments: seq<Assignment>): seq<string> {
    if assignments == [] then []
    else AssignmentsNames(assignments[..|assignments| - 1]) + ValueNames(assignments[|assignments| - 1].value)
  }

  function ChildrenNames(children: seq<Child>): seq<string> {
    if children == [] then []
    else
      var c := children[|children| - 1];
      ChildrenNames(children[..|children| - 1]) + Prefixed(c.prefix, StatementNames(c.stmt))
  }

  function StatementNames(s: Statement): seq<string> {
    match s
    case Select(_, _, _, _, _, whr, _, perPartition, limit, _, _, using) =>
      CmpsNames(whr) + LimitNames(perPartition) + LimitNames(limit) + UsingNames(using)
    case Insert(_, inits, _, json, using) => if json then [] else InitsNames(inits) + UsingNames(using)
    case Update(_, assignments, whr, cond, _, _, using) =>
      UsingNames(using) + AssignmentsNames(assignments) + CmpsNames(whr) + CmpsNames(cond)
    case Delete(_, _, whr, cond, _, using) => UsingNames(using) + CmpsNames(whr) + CmpsNames(cond)
    case Batch(_, _, children, using) => UsingNames(using) + ChildrenNames(children)
  }

  // ---- what each writer adds ----

  /** `d` is in order up to its end, which may be a parameter: its names, and texts clean or not. */
  ghost predicate Loose(d: Doc, names: seq<string>, clean: bool) {
    d.Edge() != Broken && d.Names() == names && (d.MarkFree() <==> clean)
  }

  /** The same, not ending in a parameter. */
  ghost predicate Complete(d: Doc, names: seq<string>, clean: bool) {
    d.Edge() == Shut && d.Names() == names && (d.MarkFree() <==> clean)
  }

  lemma {:induction false} AddText(d: Doc, names: seq<string>, clean: bool, s: string)
    requires Loose(d, names, clean) && (d.Edge() == Open ==> s != "" && (s[0] == ',' || s[0] == ')' || s[0] == ' '))
    ensures Complete(Put(d, s), names, clean && Clean(s))
  {
  }

  lemma {:induction false} AddIf(d: Doc, names: seq<string>, clean: bool, on: bool, s: string)
    requires Complete(d, names, clean) && Clean(s)
    ensures Complete(PutIf(d, on, s), names, clean)
  {
  }

  lemma {:induction false} AddList(d: Doc, names: seq<string>, clean: bool, list: seq<string>)
    requires Complete(d, names, clean)
    ensures Loose(PutList(d, list), names + list, clean)
    decreases |list|
  {
    if |list| > 1 {
      AddList(Put(PutPar(d, list[0]), ","), names + [list[0]], clean, list[1..]);
      assert names + [list[0]] + list[1..] == names + list;
    } else if |list| == 1 {
      assert names + list == names + [list[0]];
    } else {
      assert names + list == names;
    }
  }

  lemma {:induction false} AddValue(d: Doc, names: seq<string>, clean: bool, v: Value)
    requires Complete(d, names, clean)
    ensures Loose(PutValue(d, v), names + ValueNames(v), clean && CleanValue(v))
  {
    match v
    case Param(_) =>
    case TupleParam(base, count) => AddList(Put(d, "("), names, clean, TupleNames(base, count));
    case Literal(_) => assert names + [] == names;
    case Func(fn, ps) => AddList(Put(Put(d, fn), "("), names, clean && Clean(fn), ps);
  }

  lemma {:induction false} AddOp(d: Doc, names: seq<string>, clean: bool, op: Op)
    requires Complete(d, names, clean)
    ensures Complete(PutOp(d, op), names, clean)
  {
    match op
    case Leq => AddText(d, names, clean, "<"); AddText(Put(d, "<"), names, clean, "=");
    case Geq => AddText(d, names, clean, ">"); AddText(Put(d, ">"), names, clean, "=");
    case Eq => AddText(d, names, clean, "=");
    case Ne => AddText(d, names, clean, "!=");
    case Lt => AddText(d, names, clean, "<");
    case Gt => AddText(d, names, clean, ">");
    case In => AddText(d, names, clean, " IN ");
    case Cnt => AddText(d, names, clean, " CONTAINS ");
    case CntKey => AddText(d, names, clean, " CONTAINS KEY ");
    case Like => AddText(d, names, clean, " LIKE ");
  }

  lemma {:induction false} AddCmp(d: Doc, names: seq<string>, clean: bool, c: Cmp)
    requires Complete(d, names, clean)
    ensures Loose(PutCmp(d, c), names + ValueNames(c.value), clean && Clean(c.column) && CleanValue(c.value))
  {
    var e := Put(d, c.column);
    AddOp(e, names, clean && Clean(c.column), c.op);
    AddValue(PutOp(e, c.op), names, clean && Clean(c.column), c.value);
  }

  lemma {:induction false} AddCmps(d: Doc, names: seq<string>, clean: bool, cs: seq<Cmp>)
    requires Complete(d, names, clean)
    ensures Loose(PutCmps(d, cs), names + CmpsNames(cs), clean && CleanCmps(cs))
    decreases |cs|
  {
    if cs == [] {
      assert names + [] == names;
    } else {
      AddCmp(d, names, clean, cs[0]);
      CmpsNamesFront(cs);
      var more, c := names + ValueNames(cs[0].value), clean && Clean(cs[0].column) && CleanValue(cs[0].value);
      if |cs| > 1 {
        AddText(PutCmp(d, cs[0]), more, c, " AND ");
        AddCmps(Put(PutCmp(d, cs[0]), " AND "), more, c, cs[1..]);
      }
      assert more + CmpsNames(cs[1..]) == names + CmpsNames(cs);
    }
  }

  lemma {:induction false} CmpsNamesFront(cs: seq<Cmp>)
    requires cs != []
    ensures CmpsNames(cs) == ValueNames(cs[0].value) + CmpsNames(cs[1..])
  {
    var n := |cs| - 1;
    if n > 0 {
      CmpsNamesFront(cs[..n]);
      assert cs[..n][1..] == cs[1..][..n - 1];
    }
  }

  lemma {:induction false} AddClause(d: Doc, names: seq<string>, clean: bool, keyword: string, cs: seq<Cmp>)
    requires Complete(d, names, clean) && Clean(keyword)
    ensures Complete(PutClause(d, keyword, cs), names + CmpsNames(cs), clean && CleanCmps(cs))
  {
    if cs == [] {
      assert names + [] == names;
    } else {
      AddText(d, names, clean, keyword);
      AddCmps(Put(d, keyword), names, clean, cs);
      AddText(PutCmps(Put(d, keyword), cs), names + CmpsNames(cs), clean && CleanCmps(cs), " ");
    }
  }

  lemma {:induction false} AddLimit(d: Doc, names: seq<string>, clean: bool, l: Limit)
    requires Complete(d, names, clean)
    ensures Complete(PutLimit(d, l), names + LimitNames(l), clean && CleanLimit(l))
  {
    if l.NoLimit? {
      assert names + [] == names;
    } else {
      AddIf(d, names, clean, l.perPartition, "PER PARTITION ");
      var e := PutIf(d, l.perPartition, "PER PARTITION ");
      AddText(e, names, clean, "LIMIT ");
      AddValue(Put(e, "LIMIT "), names, clean, l.value);
      AddText(PutValue(Put(e, "LIMIT "), l.value), names + LimitNames(l), clean && CleanLimit(l), " ");
    }
  }

  lemma {:induction false} AddColumns(d: Doc, names: seq<string>, clean: bool, cols: seq<string>)
    requires Complete(d, names, clean)
    ensures Complete(PutColumns(d, cols), names, clean && CleanAll(cols))
    decreases |cols|
  {
    if cols != [] {
      AddText(d, names, clean, cols[0]);
      if |cols| > 1 {
        AddText(Put(d, cols[0]), names, clean && Clean(cols[0]), ",");
        AddColumns(Put(Put(d, cols[0]), ","), names, clean && Clean(cols[0]), cols[1..]);
      }
    }
  }

  lemma {:induction false} AddColumnClause(d: Doc, names: seq<string>, clean: bool, keyword: string, cols: seq<string>)
    requires Complete(d, names, clean) && Clean(keyword)
    ensures Complete(PutColumnClause(d, keyword, cols), names, clean && CleanAll(cols))
  {
    AddText(d, names, clean, keyword);
    AddColumns(Put(d, keyword), names, clean, cols);
    AddText(PutColumns(Put(d, keyword), cols), names, clean && CleanAll(cols), " ");
  }

  lemma {:induction false} AddSelectors(d: Doc, names: seq<string>, clean: bool,
                                        distinct: seq<string>, groupBy: seq<string>, columns: seq<string>)
    requires Complete(d, names, clean)
    ensures Complete(PutSelectors(d, distinct, groupBy, columns), names,
                     clean && CleanSelectors(distinct, groupBy, columns))
  {
    if distinct != [] {
      AddText(d, names, clean, "DISTINCT ");
      AddColumns(Put(d, "DISTINCT "), names, clean, distinct);
    } else if groupBy != [] {
      AddColumns(d, names, clean, groupBy);
      var e := PutColumns(d, groupBy);
      if columns != [] {
        AddText(e, names, clean && CleanAll(groupBy), ",");
        AddColumns(Put(e, ","), names, clean && CleanAll(groupBy), columns);
      }
    } else if columns != [] {
      AddColumns(d, names, clean, columns);
    } else {
      AddText(d, names, clean, "*");
    }
  }

  predicate CleanAsk(a: Ask) {
    a.Fixed? ==> Clean(a.text)
  }

  lemma {:induction false} AddAsk(d: Doc, names: seq<string>, clean: bool, first: bool, keyword: string, a: Ask)
    requires Complete(d, names, clean) && Clean(keyword) && CleanAsk(a)
    ensures Complete(PutAsk(d, first, keyword, a), names + AskNames(a), clean)
  {
    assert names + [] == names;
    if !a.Nothing? {
      var pre := if first then "USING " else "AND ";
      var e := Put(Put(d, pre), keyword);
      AddText(d, names, clean, pre);
      AddText(Put(d, pre), names, clean, keyword);
      if a.Fixed? {
        AddText(e, names, clean, a.text);
        AddText(Put(e, a.text), names, clean, " ");
      } else {
        AddText(PutPar(e, a.name), names + [a.name], clean, " ");
      }
    }
  }

  lemma {:induction false} AddAsks(d: Doc, names: seq<string>, clean: bool, a: Ask, b: Ask, c: Ask)
    requires Complete(d, names, clean) && CleanAsk(a) && CleanAsk(b) && CleanAsk(c)
    ensures Complete(PutAsks(d, a, b, c), names + (AskNames(a) + AskNames(b) + AskNames(c)), clean)
  {
    var d1 := PutAsk(d, true, "TTL ", a);
    var d2 := PutAsk(d1, a.Nothing?, "TIMESTAMP ", b);
    AddAsk(d, names, clean, true, "TTL ", a);
    AddAsk(d1, names + AskNames(a), clean, a.Nothing?, "TIMESTAMP ", b);
    AddAsk(d2, names + AskNames(a) + AskNames(b), clean, a.Nothing? && b.Nothing?, "TIMEOUT ", c);
    assert names + AskNames(a) + AskNames(b) + AskNames(c) == names + (AskNames(a) + AskNames(b) + AskNames(c));
  }

  lemma {:induction false} AddUsing(d: Doc, names: seq<string>, clean: bool, u: UsingState)
    requires Complete(d, names, clean)
    ensures Complete(PutUsing(d, u), names + UsingNames(u), clean)
  {
    AddAsks(d, names, clean, TtlAsk(u), TimestampAsk(u), TimeoutAsk(u));
  }

  lemma {:induction false} AddInits(d: Doc, names: seq<string>, clean: bool, inits: seq<Initializer>)
    requires Complete(d, names, clean)
    ensures Loose(PutInits(d, inits), names + InitsNames(inits), clean && CleanInitValues(inits))
    decreases |inits|
  {
    if inits == [] {
      assert names + [] == names;
    } else {
      var v := inits[0].value;
      AddValue(d, names, clean, v);
      InitsNamesFront(inits);
      if |inits| > 1 {
        AddText(PutValue(d, v), names + ValueNames(v), clean && CleanValue(v), ",");
        AddInits(Put(PutValue(d, v), ","), names + ValueNames(v), clean && CleanValue(v), inits[1..]);
      }
      assert names + ValueNames(v) + InitsNames(inits[1..]) == names + InitsNames(inits);
    }
  }

  lemma {:induction false} InitsNamesFront(inits: seq<Initializer>)
    requires inits != []
    ensures InitsNames(inits) == ValueNames(inits[0].value) + InitsNames(inits[1..])
  {
    var n := |inits| - 1;
    if n > 0 {
      InitsNamesFront(inits[..n]);
      assert inits[..n][1..] == inits[1..][..n - 1];
    }
  }

  lemma {:induction false} AddAssignments(d: Doc, names: seq<string>, clean: bool, assignments: seq<Assignment>)
    requires Complete(d, names, clean)
    ensures Loose(PutAssignments(d, assignments), names + AssignmentsNames(assignments),
                  clean && CleanAssignments(assignments))
    decreases |assignments|
  {
    if assignments == [] {
      assert names + [] == names;
    } else {
      var a := assignments[0];
      var c := clean && Clean(a.column) && Clean(a.valuePrefix) && CleanValue(a.value);
      var more := names + ValueNames(a.value);
      AddAssignment(d, names, clean, a);
      AssignmentsNamesFront(assignments);
      if |assignments| > 1 {
        AddText(PutAssignment(d, a), more, c, ",");
        AddAssignments(Put(PutAssignment(d, a), ","), more, c, assignments[1..]);
      }
      assert more + AssignmentsNames(assignments[1..]) == names + AssignmentsNames(assignments);
    }
  }

  lemma {:induction false} AddAssignment(d: Doc, names: seq<string>, clean: bool, a: Assignment)
    requires Complete(d, names, clean)
    ensures Loose(PutAssignment(d, a), names + ValueNames(a.value),
                  clean && Clean(a.column) && Clean(a.valuePrefix) && CleanValue(a.value))
  {
    var e := Put(Put(d, a.column), "=");
    AddText(d, names, clean, a.column);
    AddText(Put(d, a.column), names, clean && Clean(a.column), "=");
    AddText(e, names, clean && Clean(a.column), a.valuePrefix);
    AddValue(Put(e, a.valuePrefix), names, clean && Clean(a.column) && Clean(a.valuePrefix), a.value);
  }

  lemma {:induction false} AssignmentsNamesFront(assignments: seq<Assignment>)
    requires assignments != []
    ensures AssignmentsNames(assignments) == ValueNames(assignments[0].value) + AssignmentsNames(assignments[1..])
  {
    var n := |assignments| - 1;
    if n > 0 {
      AssignmentsNamesFront(assignments[..n]);
      assert assignments[..n][1..] == assignments[1..][..n - 1];
    }
  }

  // ---- the statements ----

  lemma {:induction false} SelectShape(s: Statement)
    requires s.Select?
    ensures Complete(PutSelect(Empty, s),
                     [] + CmpsNames(s.whr) + LimitNames(s.limitPerPartition) + LimitNames(s.limit)
                     + UsingNames(s.using),
                     CleanStatement(s))
  {
    var c := true;
    AddText(Empty, [], c, "SELECT ");
    AddIf(Put(Empty, "SELECT "), [], c, s.json, "JSON ");
    var d0 := PutIf(Put(Empty, "SELECT "), s.json, "JSON ");
    AddSelectors(d0, [], c, s.distinct, s.groupBy, s.columns);
    var d1 := PutSelectors(d0, s.distinct, s.groupBy, s.columns);
    c := CleanSelectors(s.distinct, s.groupBy, s.columns);
    AddText(d1, [], c, " FROM ");
    SelectRest(s, PutTable(Put(d1, " FROM "), s.table), c && Clean(s.table));
  }

  lemma {:induction false} SelectRest(s: Statement, d1: Doc, clean: bool)
    requires s.Select? && Complete(d1, [], clean)
    ensures
      var d2 := PutClause(d1, "WHERE ", s.whr);
      var d3 := PutColumnClause(PutColumnClause(d2, "GROUP BY ", s.groupBy), "ORDER BY ", s.orderBy);
      var d4 := PutLimit(PutLimit(d3, s.limitPerPartition), s.limit);
      var d5 := PutUsing(PutIf(PutIf(d4, s.allowFiltering, "ALLOW FILTERING "), s.bypassCache, "BYPASS CACHE "),
                         s.using);
      Complete(d5, [] + CmpsNames(s.whr) + LimitNames(s.limitPerPartition) + LimitNames(s.limit) + UsingNames(s.using),
               clean && CleanCmps(s.whr) && CleanAll(s.groupBy) && CleanAll(s.orderBy)
               && CleanLimit(s.limitPerPartition) && CleanLimit(s.limit))
  {
    var c, names := clean, [] + CmpsNames(s.whr);
    AddClause(d1, [], c, "WHERE ", s.whr);
    c := c && CleanCmps(s.whr);
    var d2 := PutClause(d1, "WHERE ", s.whr);
    AddColumnClause(d2, names, c, "GROUP BY ", s.groupBy);
    c := c && CleanAll(s.groupBy);
    AddColumnClause(PutColumnClause(d2, "GROUP BY ", s.groupBy), names, c, "ORDER BY ", s.orderBy);
    c := c && CleanAll(s.orderBy);
    var d3 := PutColumnClause(PutColumnClause(d2, "GROUP BY ", s.groupBy), "ORDER BY ", s.orderBy);
    AddLimits(d3, names, c, s.limitPerPartition, s.limit, s.allowFiltering, s.bypassCache, s.using);
  }

  lemma {:induction false} AddLimits(d3: Doc, names0: seq<string>, clean: bool, perPartition: Limit, limit: Limit,
                                     allowFiltering: bool, bypassCache: bool, using: UsingState)
    requires Complete(d3, names0, clean)
    ensures
      var d4 := PutLimit(PutLimit(d3, perPartition), limit);
      Complete(PutUsing(PutIf(PutIf(d4, allowFiltering, "ALLOW FILTERING "), bypassCache, "BYPASS CACHE "), using),
               names0 + LimitNames(perPartition) + LimitNames(limit) + UsingNames(using),
               clean && CleanLimit(perPartition) && CleanLimit(limit))
  {
    AddLimit(d3, names0, clean, perPartition);
    var c, names := clean && CleanLimit(perPartition), names0 + LimitNames(perPartition);
    AddLimit(PutLimit(d3, perPartition), names, c, limit);
    c, names := c && CleanLimit(limit), names + LimitNames(limit);
    var d4 := PutLimit(PutLimit(d3, perPartition), limit);
    AddIf(d4, names, c, allowFiltering, "ALLOW FILTERING ");
    AddIf(PutIf(d4, allowFiltering, "ALLOW FILTERING "), names, c, bypassCache, "BYPASS CACHE ");
    AddUsing(PutIf(PutIf(d4, allowFiltering, "ALLOW FILTERING "), bypassCache, "BYPASS CACHE "), names, c, using);
  }

  lemma {:induction false} InsertShape(s: Statement)
    requires s.Insert?
    ensures Complete(PutInsert(Empty, s), [] + StatementNames(s), CleanStatement(s))
  {
    AddText(Empty, [], true, "INSERT ");
    AddText(Put(Empty, "INSERT "), [], true, "INTO ");
    var d0 := Put(Put(Empty, "INSERT "), "INTO ");
    if s.json {
      AddText(PutTable(d0, s.table), [], Clean(s.table), "JSON ?");
      assert "JSON ?"[5] == '?';
    } else {
      AddText(PutTable(d0, s.table), [], Clean(s.table), "(");
      InsertRest(s, Put(PutTable(d0, s.table), "("), Clean(s.table));
    }
  }

  lemma {:induction false} InsertRest(s: Statement, d1: Doc, clean: bool)
    requires s.Insert? && Complete(d1, [], clean)
    ensures
      var d2 := Put(PutColumns(d1, InitColumns(s.inits)), ") ");
      var d3 := Put(PutInits(Put(d2, "VALUES ("), s.inits), ") ");
      Complete(PutUsing(PutIf(d3, s.unique, "IF NOT EXISTS "), s.using),
               [] + (InitsNames(s.inits) + UsingNames(s.using)),
               clean && CleanAll(InitColumns(s.inits)) && CleanInitValues(s.inits))
  {
    hide Complete, CleanAll, CleanInitValues, PutColumns, PutUsing, PutIf;
    var d2, c := Put(PutColumns(d1, InitColumns(s.inits)), ") "), clean && CleanAll(InitColumns(s.inits));
    AddInsertColumns(d1, clean, InitColumns(s.inits));
    AddInsertValues(d2, c, s.inits);
    var d3 := Put(PutInits(Put(d2, "VALUES ("), s.inits), ") ");
    var names := [] + InitsNames(s.inits);
    c := c && CleanInitValues(s.inits);
    assert Clean("IF NOT EXISTS ");
    AddIf(d3, names, c, s.unique, "IF NOT EXISTS ");
    AddUsing(PutIf(d3, s.unique, "IF NOT EXISTS "), names, c, s.using);
    assert names + UsingNames(s.using) == [] + (InitsNames(s.inits) + UsingNames(s.using));
  }

  /** The columns of an insert. */
  lemma {:induction false} AddInsertColumns(d1: Doc, clean: bool, columns: seq<string>)
    requires Complete(d1, [], clean)
    ensures Complete(Put(PutColumns(d1, columns), ") "), [], clean && CleanAll(columns))
  {
    AddColumns(d1, [], clean, columns);
    AddText(PutColumns(d1, columns), [], clean && CleanAll(columns), ") ");
  }

  /** Its values. */
  lemma {:induction false} AddInsertValues(d2: Doc, clean: bool, inits: seq<Initializer>)
    requires Complete(d2, [], clean)
    ensures Complete(Put(PutInits(Put(d2, "VALUES ("), inits), ") "), [] + InitsNames(inits),
                     clean && CleanInitValues(inits))
  {
    AddText(d2, [], clean, "VALUES (");
    AddInits(Put(d2, "VALUES ("), [], clean, inits);
    AddText(PutInits(Put(d2, "VALUES ("), inits), [] + InitsNames(inits), clean && CleanInitValues(inits), ") ");
  }

  lemma {:induction false} AddConditions(d: Doc, names: seq<string>, clean: bool, whr: seq<Cmp>, cond: seq<Cmp>,
                                         existing: bool, filtering: bool)
    requires Complete(d, names, clean)
    ensures var e := PutConditions(d, whr, cond, existing);
      && Complete(e, names + CmpsNames(whr) + CmpsNames(cond), clean && CleanCmps(whr) && CleanCmps(cond))
      && Complete(PutIf(e, filtering, "ALLOW FILTERING "),
                  names + CmpsNames(whr) + CmpsNames(cond), clean && CleanCmps(whr) && CleanCmps(cond))
  {
    AddClause(d, names, clean, "WHERE ", whr);
    AddClause(PutClause(d, "WHERE ", whr), names + CmpsNames(whr), clean && CleanCmps(whr), "IF ", cond);
    var c := clean && CleanCmps(whr) && CleanCmps(cond);
    AddIf(PutClause(PutClause(d, "WHERE ", whr), "IF ", cond), names + CmpsNames(whr) + CmpsNames(cond), c, existing,
          "IF EXISTS ");
    AddIf(PutConditions(d, whr, cond, existing), names + CmpsNames(whr) + CmpsNames(cond), c, filtering,
          "ALLOW FILTERING ");
  }

  lemma {:induction false} UpdateShape(s: Statement)
    requires s.Update?
    ensures Complete(PutUpdate(Empty, s),
                     [] + UsingNames(s.using) + AssignmentsNames(s.assignments) + CmpsNames(s.whr) + CmpsNames(s.cond),
                     Clean(s.table) && CleanAssignments(s.assignments) && CleanCmps(s.whr) && CleanCmps(s.cond))
  {
    UpdateHead(s);
    var d1 := PutUsing(PutTable(Put(Empty, "UPDATE "), s.table), s.using);
    var names := [] + UsingNames(s.using) + AssignmentsNames(s.assignments);
    var c := Clean(s.table) && CleanAssignments(s.assignments);
    var d2 := Put(PutAssignments(Put(d1, "SET "), s.assignments), " ");
    AddConditions(d2, names, c, s.whr, s.cond, s.existing, s.allowFiltering);
  }

  lemma {:induction false} UpdateHead(s: Statement)
    requires s.Update?
    ensures
      var d1 := PutUsing(PutTable(Put(Empty, "UPDATE "), s.table), s.using);
      Complete(Put(PutAssignments(Put(d1, "SET "), s.assignments), " "),
               [] + UsingNames(s.using) + AssignmentsNames(s.assignments),
               Clean(s.table) && CleanAssignments(s.assignments))
  {
    AddText(Empty, [], true, "UPDATE ");
    AddUsing(PutTable(Put(Empty, "UPDATE "), s.table), [], Clean(s.table), s.using);
    var d1 := PutUsing(PutTable(Put(Empty, "UPDATE "), s.table), s.using);
    var names, c := [] + UsingNames(s.using), Clean(s.table);
    AddText(d1, names, c, "SET ");
    AddAssignments(Put(d1, "SET "), names, c, s.assignments);
    names, c := names + AssignmentsNames(s.assignments), c && CleanAssignments(s.assignments);
    AddText(PutAssignments(Put(d1, "SET "), s.assignments), names, c, " ");
  }

  lemma {:induction false} DeleteShape(s: Statement)
    requires s.Delete?
    ensures Complete(PutDelete(Empty, s), [] + UsingNames(s.using) + CmpsNames(s.whr) + CmpsNames(s.cond),
                     CleanAll(s.columns) && Clean(s.table) && CleanCmps(s.whr) && CleanCmps(s.cond))
  {
    var d1 := Put(Empty, "DELETE ");
    AddText(Empty, [], true, "DELETE ");
    AddColumns(d1, [], true, s.columns);
    AddText(PutColumns(d1, s.columns), [], CleanAll(s.columns), " ");
    var d2 := if s.columns == [] then d1 else Put(PutColumns(d1, s.columns), " ");
    AddText(d2, [], CleanAll(s.columns), "FROM ");
    var d3, c := PutTable(Put(d2, "FROM "), s.table), CleanAll(s.columns) && Clean(s.table);
    AddUsing(d3, [], c, s.using);
    AddConditions(PutUsing(d3, s.using), [] + UsingNames(s.using), c, s.whr, s.cond, s.existing, false);
  }

  lemma {:induction false} AddChildren(d: Doc, names: seq<string>, clean: bool, children: seq<Child>)
    requires Complete(d, names, clean)
    ensures Complete(PutChildren(d, children), names + ChildrenNames(children), clean && CleanChildren(children))
    decreases children, 0
  {
    if children == [] {
      assert names + [] == names;
    } else {
      var n := |children| - 1;
      var c := children[n];
      AddChildren(d, names, clean, children[..n]);
      StatementShape(c.stmt);
      AddChild(PutChildren(d, children[..n]), names + ChildrenNames(children[..n]),
               clean && CleanChildren(children[..n]),
               c.prefix, Document(c.stmt), StatementNames(c.stmt), CleanStatement(c.stmt));
      Regroup(names, ChildrenNames(children[..n]), Prefixed(c.prefix, StatementNames(c.stmt)));
    }
  }

  lemma {:induction false} Regroup(a: seq<string>, b: seq<string>, c: seq<string>)
    ensures a + b + c == a + (b + c)
  {
  }

  lemma {:induction false} AddChild(d: Doc, names: seq<string>, clean: bool,
                                    prefix: string, e: Doc, childNames: seq<string>, childClean: bool)
    requires Complete(d, names, clean) && Complete(e, childNames, childClean)
    ensures Complete(Put(Put(Then(d, Rename(prefix, e)), ";"), " "), names + Prefixed(prefix, childNames),
                     clean && childClean)
  {
    RenameChannels(prefix, e);
    ThenChannels(d, Rename(prefix, e));
    ThenEdge(d, Rename(prefix, e));
    var f, all := Then(d, Rename(prefix, e)), names + Prefixed(prefix, childNames);
    AddText(f, all, clean && childClean, ";");
    AddText(Put(f, ";"), all, clean && childClean, " ");
  }

  lemma {:induction false} BatchShape(s: Statement)
    requires s.Batch?
    ensures Complete(PutBatch(Empty, s), [] + UsingNames(s.using) + ChildrenNames(s.children),
                     CleanChildren(s.children))
    decreases s, 0
  {
    BatchHead(s);
    var d0 := Put(Empty, "BEGIN ");
    var d1 := Put(PutIf(PutIf(d0, s.unlogged, "UNLOGGED "), s.counter, "COUNTER "), "BATCH ");
    AddChildren(PutUsing(d1, s.using), [] + UsingNames(s.using), true, s.children);
    AddText(PutChildren(PutUsing(d1, s.using), s.children), [] + UsingNames(s.using) + ChildrenNames(s.children),
            CleanChildren(s.children), "APPLY BATCH ");
  }

  lemma {:induction false} BatchHead(s: Statement)
    requires s.Batch?
    ensures
      var d1 := Put(PutIf(PutIf(Put(Empty, "BEGIN "), s.unlogged, "UNLOGGED "), s.counter, "COUNTER "), "BATCH ");
      Complete(PutUsing(d1, s.using), [] + UsingNames(s.using), true)
  {
    var d0 := Put(Empty, "BEGIN ");
    AddText(Empty, [], true, "BEGIN ");
    AddIf(d0, [], true, s.unlogged, "UNLOGGED ");
    AddIf(PutIf(d0, s.unlogged, "UNLOGGED "), [], true, s.counter, "COUNTER ");
    AddText(PutIf(PutIf(d0, s.unlogged, "UNLOGGED "), s.counter, "COUNTER "), [], true, "BATCH ");
    AddUsing(Put(PutIf(PutIf(d0, s.unlogged, "UNLOGGED "), s.counter, "COUNTER "), "BATCH "), [], true, s.using);
  }

  /**
   The structure of every statement: every parameter is followed by `,`, `)` or a space,
   the parameters come in clause order, and the text is free of `?` exactly when the
   caller's texts are and nothing inserts JSON.
   */
  lemma {:induction false} StatementShape(s: Statement)
    ensures Complete(Document(s), StatementNames(s), CleanStatement(s))
    decreases s, 1
  {
    match s {
      case Select(_, _, _, _, _, _, _, _, _, _, _, _) => SelectShape(s);
      case Insert(_, _, _, _, _) => InsertShape(s);
      case Update(_, _, _, _, _, _, _) => UpdateShape(s);
      case Delete(_, _, _, _, _, _) => DeleteShape(s);
      case Batch(_, _, _, _) => BatchShape(s);
    }
    NoNamesBefore(s);
  }

  lemma {:induction false} NoNamesBefore(s: Statement)
    ensures [] + StatementNames(s) == StatementNames(s)
    ensures s.Select? ==> [] + CmpsNames(s.whr) == CmpsNames(s.whr)
    ensures s.Update? ==> [] + UsingNames(s.using) == UsingNames(s.using)
    ensures s.Delete? || s.Batch? ==> [] + UsingNames(s.using) == UsingNames(s.using)
  {
  }
}
