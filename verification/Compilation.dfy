/**
 The main results about statements: what every builder tree compiles to, for all trees,
 batches of batches included. `ToCql` of a builder with tree `s` is proved to return
 `Stmt(s)` and `Names(s)`, the two readings of the document it writes.
 */
module Compilation {
  import opened Wrappers
  import opened Text
  import opened Templates
  import opened Docs
  import opened Values
  import opened Comparators
  import opened Using
  import opened UsingHistory
  import opened Statements
  import opened Shape
  import Meaning
  import NamedQuery
  import Binding

  function Stmt(s: Statement): string { Document(s).Stmt() }
  function Names(s: Statement): seq<string> { Document(s).Names() }
  function Bytes(s: Statement): Template { Document(s).Flat() }

  lemma {:induction false} BytesFacts(s: Statement)
    ensures Templates.Stmt(Bytes(s)) == Stmt(s) && Templates.Names(Bytes(s)) == Names(s)
    ensures Separated(Bytes(s))
    ensures Marks(Bytes(s)) == 0 <==> CleanStatement(s)
    ensures Names(s) == StatementNames(s)
  {
    StatementShape(s);
    FlatChannels(Document(s));
    FlatSeparated(Document(s));
  }

  /**
   The two channels agree, mark for name, exactly when the caller's texts hold no `?` and
   nothing inserts JSON; in any case there are never fewer `?` than names.
   */
  lemma {:induction false} PlaceholderAgreement(s: Statement)
    ensures Count(Stmt(s), '?') == |Names(s)| <==> CleanStatement(s)
    ensures Count(Stmt(s), '?') >= |Names(s)|
  {
    BytesFacts(s);
    HoleCount(Bytes(s));
  }

  /** The names come clause by clause, in the order of the statement text. */
  lemma {:induction false} NamesInClauseOrder(s: Statement)
    ensures Names(s) == StatementNames(s)
  {
    StatementShape(s);
  }

  /** Every parameter is followed by `,`, `)` or a space. */
  lemma {:induction false} HolesAreSeparated(s: Statement)
    ensures Separated(Bytes(s))
  {
    BytesFacts(s);
  }

  /** The statement with its parameters as `:name` and its text colons doubled. */
  function NamedForm(s: Statement): string {
    Named(Bytes(s))
  }

  /**
   Round trip through the named form: compiling it gives back exactly the text and names
   of `ToCql`, if and only if all names are plain and the named form has a colon at all.
   */
  lemma {:induction false} StatementRoundTrip(s: Statement)
    ensures NamedQuery.Compile(NamedForm(s)) == NamedQuery.Compiled(Stmt(s), Names(s), None) <==>
      && (forall name, i :: name in Names(s) && 0 <= i < |name| ==>
            var b := name[i]; 'A' <= b <= 'Z' || 'a' <= b <= 'z' || '0' <= b <= '9' || b == '_' || b == '.')
      && ':' in NamedForm(s)
  {
    BytesFacts(s);
    NamedQuery.RoundTrip(Bytes(s));
    NamedQuery.ColonInNamed(Bytes(s));
    NamedQuery.PlainByNames(Bytes(s));
  }

  /** An ordinary input where it fails: every statement that has an element of a tuple among its parameters. */
  lemma {:induction false} TupleBreaksRoundTrip(s: Statement, base: string, i: int)
    requires ElementName(base, i) in Names(s)
    ensures NamedQuery.Compile(NamedForm(s)) != NamedQuery.Compiled(Stmt(s), Names(s), None)
  {
    assert ElementName(base, i)[|base|] == '[';
    StatementRoundTrip(s);
  }

  /** Such a statement is any with a tuple in its WHERE clause. */
  lemma {:induction false} TupleInWhere(s: Statement, j: nat)
    requires (s.Select? || s.Update? || s.Delete?) && j < |s.whr| && s.whr[j].value.TupleParam?
    ensures var v := s.whr[j].value; ElementName(v.base, v.count - 1) in Names(s)
    ensures NamedQuery.Compile(NamedForm(s)) != NamedQuery.Compiled(Stmt(s), Names(s), None)
  {
    var v := s.whr[j].value;
    var last := ElementName(v.base, v.count - 1);
    assert TupleNames(v.base, v.count)[|TupleNames(v.base, v.count)| - 1] == last;
    assert last in ValueNames(v);
    NamesOfCmp(s.whr, j, last);
    NamesInClauseOrder(s);
    TupleBreaksRoundTrip(s, v.base, v.count - 1);
  }

  lemma {:induction false} NamesOfCmp(cs: seq<Cmp>, j: nat, name: string)
    requires j < |cs| && name in ValueNames(cs[j].value)
    ensures name in CmpsNames(cs)
  {
    if j < |cs| - 1 {
      NamesOfCmp(cs[..|cs| - 1], j, name);
    }
  }

  /**
   Compilation preserves meaning: for a clean statement and a map that defines all its names,
   putting the bound arguments at the `?` in order gives what the tree says when every
   parameter is its value in the map, put through the transformer if there is one.
   */
  lemma {:induction false} CompilationPreservesMeaning(s: Statement, env: map<string, string>,
                                                       tr: Option<Binding.Transformer<string>>, value: string -> string)
    requires CleanStatement(s)
    requires forall name :: name in Names(s) ==>
      name in env && value(name) == if tr.Some? then tr.value(name, env[name]) else env[name]
    ensures Binding.Bind(Names(s), env, tr).missing == None
    ensures Fill(Stmt(s), Binding.Bind(Names(s), env, tr).args) == Meaning.StatementText(s, value)
  {
    BytesFacts(s);
    NoMarksLast(Bytes(s));
    FillIsDirect(Bytes(s), value);
    BindIsValues(Names(s), env, tr, value);
    BytesSay(s, value);
  }

  lemma {:induction false} BytesSay(s: Statement, env: string -> string)
    ensures Direct(Bytes(s), env) == Meaning.StatementText(s, env)
  {
    hide Meaning.StatementText, Document;
    Meaning.DocTextIsDirect(Document(s), env);
    Meaning.StatementSays(s, env);
  }

  lemma {:induction false} BindIsValues(names: seq<string>, env: map<string, string>,
                                        tr: Option<Binding.Transformer<string>>, value: string -> string)
    requires forall name :: name in names ==>
      name in env && value(name) == if tr.Some? then tr.value(name, env[name]) else env[name]
    ensures Binding.Bind(names, env, tr) == Binding.Bound(Arguments(names, value), None)
  {
    if names != [] {
      BindIsValues(names[1..], env, tr, value);
    }
  }

  /**
   Positional binding means what the tree says, whatever the values, exactly when no text `?`
   precedes a parameter.
   */
  lemma {:induction false} MeaningExactly(s: Statement)
    ensures (forall env: string -> string ::
               Fill(Stmt(s), Arguments(Names(s), env)) == Meaning.StatementText(s, env)) <==>
            MarksLast(Bytes(s))
  {
    hide Meaning.StatementText, Document;
    BytesFacts(s);
    if MarksLast(Bytes(s)) {
      forall env: string -> string ensures Fill(Stmt(s), Arguments(Names(s), env)) == Meaning.StatementText(s, env) {
        FillIsDirect(Bytes(s), env);
        BytesSay(s, env);
      }
    } else {
      FillShifts(Bytes(s));
      BytesSay(s, _ => "x");
    }
  }

  // ---- writing a statement twice ----

  /** The builder's tree after `ToCql`: a JSON insert returns before its USING clause. */
  function After(s: Statement): Statement {
    if s.Insert? && s.json then s else s.(using := Written(s.using))
  }

  predicate ZeroTtlPending(s: Statement) {
    s.using.ttl == -1 && !(s.Insert? && s.json)
  }

  /**
   A second `ToCql` returns the same text and names exactly when no zero TTL is pending;
   from the second one on the result is stable.
   */
  lemma {:induction false} SecondToCql(s: Statement)
    ensures Stmt(After(s)) == Stmt(s) && Names(After(s)) == Names(s) <==> !ZeroTtlPending(s)
    ensures After(After(s)) == After(s)
  {
    if ZeroTtlPending(s) {
      NamesInClauseOrder(s);
      NamesInClauseOrder(After(s));
      PendingDiffers(s);
    } else {
      assert After(s) == s;
    }
  }

  lemma {:induction false} PendingDiffers(s: Statement)
    requires ZeroTtlPending(s)
    ensures |Stmt(After(s))| < |Stmt(s)| || |StatementNames(After(s))| == |StatementNames(s)| + 1
  {
    var d := UsingAt(s);
    PendingZeroTtlChanges(d, s.using);
    AfterUsing(s, PutUsing(d, Written(s.using)), PutUsing(d, s.using));
  }

  /** What a statement has written before its USING clause. */
  function UsingAt(s: Statement): Doc
    requires !(s.Insert? && s.json)
  {
    match s
    case Select(table, json, distinct, groupBy, columns, whr, orderBy, perPartition, limit, filtering, bypass, _) =>
      var d1 := PutSelectors(PutIf(Put(Empty, "SELECT "), json, "JSON "), distinct, groupBy, columns);
      var d2 := PutClause(PutTable(Put(d1, " FROM "), table), "WHERE ", whr);
      var d3 := PutColumnClause(PutColumnClause(d2, "GROUP BY ", groupBy), "ORDER BY ", orderBy);
      PutIf(PutIf(PutLimit(PutLimit(d3, perPartition), limit), filtering, "ALLOW FILTERING "), bypass, "BYPASS CACHE ")
    case Insert(table, inits, unique, _, _) =>
      var d1 := Put(PutTable(Put(Put(Empty, "INSERT "), "INTO "), table), "(");
      var d2 := Put(PutInits(Put(Put(PutColumns(d1, InitColumns(inits)), ") "), "VALUES ("), inits), ") ");
      PutIf(d2, unique, "IF NOT EXISTS ")
    case Update(table, _, _, _, _, _, _) => PutTable(Put(Empty, "UPDATE "), table)
    case Delete(table, columns, _, _, _, _) =>
      var d1 := Put(Empty, "DELETE ");
      PutTable(Put(if columns == [] then d1 else Put(PutColumns(d1, columns), " "), "FROM "), table)
    case Batch(unlogged, counter, _, _) =>
      Put(PutIf(PutIf(Put(Empty, "BEGIN "), unlogged, "UNLOGGED "), counter, "COUNTER "), "BATCH ")
  }

  /** What a statement writes after its USING clause. */
  function Rest(d: Doc, s: Statement): Doc {
    match s
    case Select(_, _, _, _, _, _, _, _, _, _, _, _) => d
    case Insert(_, _, _, _, _) => d
    case Update(_, assignments, whr, cond, existing, filtering, _) =>
      PutIf(PutConditions(Put(PutAssignments(Put(d, "SET "), assignments), " "), whr, cond, existing),
            filtering, "ALLOW FILTERING ")
    case Delete(_, _, whr, cond, existing, _) => PutConditions(d, whr, cond, existing)
    case Batch(_, _, children, _) => Put(PutChildren(d, children), "APPLY BATCH ")
  }

  lemma {:induction false} AroundUsing(s: Statement)
    requires !(s.Insert? && s.json)
    ensures Document(s) == Rest(PutUsing(UsingAt(s), s.using), s)
    ensures s.Select? || s.Insert? ==> Document(s) == PutUsing(UsingAt(s), s.using)
  {
    if s.Batch? {
      assert Document(s) == PutBatch(Empty, s);
    }
  }

  lemma {:induction false} RestOfDelete(s: Statement)
    requires s.Delete?
    ensures Document(s) == PutConditions(PutUsing(UsingAt(s), s.using), s.whr, s.cond, s.existing)
  {
  }

  /** The names before, in and after the USING clause. */
  lemma {:induction false} NamesAroundUsing(s: Statement)
    ensures s.Select? ==>
      StatementNames(s) ==
        CmpsNames(s.whr) + LimitNames(s.limitPerPartition) + LimitNames(s.limit) + UsingNames(s.using)
    ensures s.Insert? && !s.json ==> StatementNames(s) == InitsNames(s.inits) + UsingNames(s.using)
    ensures s.Update? ==>
      StatementNames(s) ==
        UsingNames(s.using) + (AssignmentsNames(s.assignments) + CmpsNames(s.whr) + CmpsNames(s.cond))
    ensures s.Delete? ==> StatementNames(s) == UsingNames(s.using) + (CmpsNames(s.whr) + CmpsNames(s.cond))
  {
    if s.Update? {
      var a, b, c, d := UsingNames(s.using), AssignmentsNames(s.assignments), CmpsNames(s.whr), CmpsNames(s.cond);
      Regroup(a, b, c);
      Regroup(a, b + c, d);
    } else if s.Delete? {
      Regroup(UsingNames(s.using), CmpsNames(s.whr), CmpsNames(s.cond));
    }
  }

  /** A statement with another USING clause is longer or shorter by exactly the difference of the clauses. */
  lemma {:induction false} AfterUsing(s: Statement, d: Doc, e: Doc)
    requires !(s.Insert? && s.json)
    requires d == PutUsing(UsingAt(s), Written(s.using)) && e == PutUsing(UsingAt(s), s.using)
    ensures |Stmt(After(s))| + |e.Stmt()| == |Stmt(s)| + |d.Stmt()|
    ensures |StatementNames(After(s))| + |UsingNames(s.using)| == |StatementNames(s)| + |UsingNames(Written(s.using))|
  {
    AroundUsing(s);
    AroundUsing(After(s));
    GrowRest(d, e, s);
  }

  lemma {:induction false} GrowRest(d: Doc, e: Doc, s: Statement)
    ensures Same(d, e, Rest(d, s), Rest(e, s))
  {
    match s {
      case Select(_, _, _, _, _, _, _, _, _, _, _, _) =>
      case Insert(_, _, _, _, _) =>
      case Update(_, assignments, whr, cond, existing, filtering, _) =>
        GrowUpdate(d, e, assignments, whr, cond, existing, filtering);
      case Delete(_, _, whr, cond, existing, _) =>
        GrowConditions(d, e, whr, cond, existing);
      case Batch(_, _, children, _) =>
        GrowChildren(d, e, children);
        GrowText(PutChildren(d, children), PutChildren(e, children), "APPLY BATCH ");
    }
  }

  lemma {:induction false} GrowUpdate(d: Doc, e: Doc, assignments: seq<Assignment>, whr: seq<Cmp>, cond: seq<Cmp>,
                                      existing: bool, filtering: bool)
    ensures
      var d2 := Put(PutAssignments(Put(d, "SET "), assignments), " ");
      var e2 := Put(PutAssignments(Put(e, "SET "), assignments), " ");
      Same(d, e, PutIf(PutConditions(d2, whr, cond, existing), filtering, "ALLOW FILTERING "),
           PutIf(PutConditions(e2, whr, cond, existing), filtering, "ALLOW FILTERING "))
  {
    var d1, e1 := PutAssignments(Put(d, "SET "), assignments), PutAssignments(Put(e, "SET "), assignments);
    GrowText(d, e, "SET ");
    GrowAssignments(Put(d, "SET "), Put(e, "SET "), assignments);
    GrowText(d1, e1, " ");
    GrowConditions(Put(d1, " "), Put(e1, " "), whr, cond, existing);
    GrowText(PutConditions(Put(d1, " "), whr, cond, existing), PutConditions(Put(e1, " "), whr, cond, existing),
             "ALLOW FILTERING ");
  }

  /** Two documents that the same writer extends grow by the same number of bytes. */
  ghost predicate Same(d: Doc, e: Doc, d': Doc, e': Doc) {
    |d'.Stmt()| + |e.Stmt()| == |e'.Stmt()| + |d.Stmt()|
  }

  lemma {:induction false} GrowText(d: Doc, e: Doc, s: string)
    ensures Same(d, e, Put(d, s), Put(e, s))
  {
  }

  lemma {:induction false} GrowList(d: Doc, e: Doc, names: seq<string>)
    ensures Same(d, e, PutList(d, names), PutList(e, names))
    decreases |names|
  {
    if |names| > 1 {
      GrowText(PutPar(d, names[0]), PutPar(e, names[0]), ",");
      GrowList(Put(PutPar(d, names[0]), ","), Put(PutPar(e, names[0]), ","), names[1..]);
    }
  }

  lemma {:induction false} GrowValue(d: Doc, e: Doc, v: Value)
    ensures Same(d, e, PutValue(d, v), PutValue(e, v))
  {
    match v
    case Param(_) =>
    case TupleParam(base, count) => GrowCall(Put(d, "("), Put(e, "("), TupleNames(base, count));
    case Literal(_) =>
    case Func(fn, ps) =>
      GrowText(d, e, fn);
      GrowText(Put(d, fn), Put(e, fn), "(");
      GrowCall(Put(Put(d, fn), "("), Put(Put(e, fn), "("), ps);
  }

  lemma {:induction false} GrowCall(d: Doc, e: Doc, names: seq<string>)
    ensures Same(d, e, Put(PutList(d, names), ")"), Put(PutList(e, names), ")"))
  {
    GrowList(d, e, names);
    GrowText(PutList(d, names), PutList(e, names), ")");
  }

  lemma {:induction false} GrowCmps(d: Doc, e: Doc, cs: seq<Cmp>)
    ensures Same(d, e, PutCmps(d, cs), PutCmps(e, cs))
    decreases |cs|
  {
    if cs != [] {
      GrowCmp(d, e, cs[0]);
      if |cs| > 1 {
        GrowText(PutCmp(d, cs[0]), PutCmp(e, cs[0]), " AND ");
        GrowCmps(Put(PutCmp(d, cs[0]), " AND "), Put(PutCmp(e, cs[0]), " AND "), cs[1..]);
      }
    }
  }

  lemma {:induction false} GrowCmp(d: Doc, e: Doc, c: Cmp)
    ensures Same(d, e, PutCmp(d, c), PutCmp(e, c))
  {
    var d0, e0 := Put(d, c.column), Put(e, c.column);
    GrowText(d, e, c.column);
    assert Same(d0, e0, PutOp(d0, c.op), PutOp(e0, c.op)) by {
      if c.op.Leq? {
        GrowText(d0, e0, "<");
      } else if c.op.Geq? {
        GrowText(d0, e0, ">");
      }
    }
    GrowValue(PutOp(d0, c.op), PutOp(e0, c.op), c.value);
  }

  lemma {:induction false} GrowConditions(d: Doc, e: Doc, whr: seq<Cmp>, cond: seq<Cmp>, existing: bool)
    ensures Same(d, e, PutConditions(d, whr, cond, existing), PutConditions(e, whr, cond, existing))
  {
    GrowClause(d, e, "WHERE ", whr);
    var d1, e1 := PutClause(d, "WHERE ", whr), PutClause(e, "WHERE ", whr);
    GrowClause(d1, e1, "IF ", cond);
    GrowText(PutClause(d1, "IF ", cond), PutClause(e1, "IF ", cond), "IF EXISTS ");
  }

  lemma {:induction false} GrowClause(d: Doc, e: Doc, keyword: string, cs: seq<Cmp>)
    ensures Same(d, e, PutClause(d, keyword, cs), PutClause(e, keyword, cs))
  {
    GrowText(d, e, keyword);
    GrowCmps(Put(d, keyword), Put(e, keyword), cs);
    GrowText(PutCmps(Put(d, keyword), cs), PutCmps(Put(e, keyword), cs), " ");
  }

  lemma {:induction false} GrowAssignments(d: Doc, e: Doc, assignments: seq<Assignment>)
    ensures Same(d, e, PutAssignments(d, assignments), PutAssignments(e, assignments))
    decreases |assignments|
  {
    if assignments != [] {
      var a := assignments[0];
      var d1, e1 := Put(Put(d, a.column), "="), Put(Put(e, a.column), "=");
      GrowText(d, e, a.column);
      GrowText(Put(d, a.column), Put(e, a.column), "=");
      GrowText(d1, e1, a.valuePrefix);
      GrowValue(Put(d1, a.valuePrefix), Put(e1, a.valuePrefix), a.value);
      if |assignments| > 1 {
        GrowText(PutAssignment(d, a), PutAssignment(e, a), ",");
        GrowAssignments(Put(PutAssignment(d, a), ","), Put(PutAssignment(e, a), ","), assignments[1..]);
      }
    }
  }

  lemma {:induction false} GrowChildren(d: Doc, e: Doc, children: seq<Child>)
    ensures Same(d, e, PutChildren(d, children), PutChildren(e, children))
    decreases |children|
  {
    if children != [] {
      var n := |children| - 1;
      var child := Rename(children[n].prefix, Document(children[n].stmt));
      GrowChildren(d, e, children[..n]);
      ThenChannels(PutChildren(d, children[..n]), child);
      ThenChannels(PutChildren(e, children[..n]), child);
    }
  }
}
