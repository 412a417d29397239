/**
 What a statement says when every parameter is its value: a reading of the tree, clause by
 clause, that knows nothing of buffers, marks or lists of names.
 */
module Meaning {
  import opened Templates
  import opened Docs
  import opened Values
  import opened Comparators
  import opened Using
  import opened Statements

  type Env = string -> string

  function Joined(texts: seq<string>, separator: string): string {
    if texts == [] then ""
    else if |texts| == 1 then texts[0]
    else texts[0] + separator + Joined(texts[1..], separator)
  }

  function When(on: bool, text: string): string { if on then text else "" }

  function ListTexts(names: seq<string>, env: Env): seq<string> {
    if names == [] then [] else [env(names[0])] + ListTexts(names[1..], env)
  }

  function ValueText(v: Value, env: Env): string {
    match v
    case Param(name) => env(name)
    case TupleParam(base, count) => "(" + Joined(ListTexts(TupleNames(base, count), env), ",") + ")"
    case Literal(text) => text
    case Func(fn, ps) => fn + "(" + Joined(ListTexts(ps, env), ",") + ")"
  }

  function OpText(op: Op): string {
    match op
    case Eq => "=" case Ne => "!=" case Lt => "<" case Leq => "<=" case Gt => ">" case Geq => ">="
    case In => " IN " case Cnt => " CONTAINS " case CntKey => " CONTAINS KEY " case Like => " LIKE "
  }

  function CmpTexts(cs: seq<Cmp>, env: Env): seq<string> {
    if cs == [] then []
    else [cs[0].column + OpText(cs[0].op) + ValueText(cs[0].value, env)] + CmpTexts(cs[1..], env)
  }

  function ClauseText(keyword: string, cs: seq<Cmp>, env: Env): string {
    if cs == [] then "" else keyword + Joined(CmpTexts(cs, env), " AND ") + " "
  }

  function LimitText(l: Limit, env: Env): string {
    match l
    case NoLimit => ""
    case Limit(v, perPartition) => When(perPartition, "PER PARTITION ") + "LIMIT " + ValueText(v, env) + " "
  }

  function AskText(a: Ask, keyword: string, env: Env): string {
    match a
    case Nothing => ""
    case Fixed(text) => keyword + text + " "
    case ByName(name) => keyword + env(name) + " "
  }

  /** `USING c (AND c)*`, or nothing. */
  function AsksText(clauses: seq<string>): string {
    if clauses == [] then "" else "USING " + Joined(clauses, "AND ")
  }

  function Present(a: Ask, keyword: string, env: Env): seq<string> {
    if a.Nothing? then [] else [AskText(a, keyword, env)]
  }

  function UsingText(u: UsingState, env: Env): string {
    AsksText(Present(TtlAsk(u), "TTL ", env) + Present(TimestampAsk(u), "TIMESTAMP ", env)
             + Present(TimeoutAsk(u), "TIMEOUT ", env))
  }

  function ColumnClauseText(keyword: string, cols: seq<string>): string {
    if cols == [] then "" else keyword + Joined(cols, ",") + " "
  }

  function SelectorsText(distinct: seq<string>, groupBy: seq<string>, columns: seq<string>): string {
    if distinct != [] then "DISTINCT " + Joined(distinct, ",")
    else if groupBy != [] then Joined(groupBy, ",") + When(columns != [], "," + Joined(columns, ","))
    else if columns == [] then "*"
    else Joined(columns, ",")
  }

  /** The column of every initializer. */
  function ColumnsOf(inits: seq<Initializer>): seq<string> {
    seq(|inits|, i requires 0 <= i < |inits| => inits[i].column)
  }

  function InitTexts(inits: seq<Initializer>, env: Env): seq<string> {
    if inits == [] then [] else [ValueText(inits[0].value, env)] + InitTexts(inits[1..], env)
  }

  function AssignmentTexts(assignments: seq<Assignment>, env: Env): seq<string> {
    if assignments == [] then []
    else
      var a := assignments[0];
      [a.column + "=" + a.valuePrefix + ValueText(a.value, env)] + AssignmentTexts(assignments[1..], env)
  }

  function ConditionsText(whr: seq<Cmp>, cond: seq<Cmp>, existing: bool, env: Env): string {
    ClauseText("WHERE ", whr, env) + ClauseText("IF ", cond, env) + When(existing, "IF EXISTS ")
  }

  /** The names inside a statement added under a prefix are looked up with the prefix. */
  function Under(prefix: string, env: Env): Env {
    (name: string) => env(PrefixName(prefix, name))
  }

  function ChildrenText(children: seq<Child>, env: Env): string {
    if children == [] then ""
    else
      var c := children[|children| - 1];
      ChildrenText(children[..|children| - 1], env) + StatementText(c.stmt, Under(c.prefix, env)) + "; "
  }

  /** The text of a statement with its values in place. A JSON insert keeps its own `?`. */
  function StatementText(s: Statement, env: Env): string {
    match s
    case Select(table, json, distinct, groupBy, columns, whr, orderBy, perPartition, limit, filtering, bypass, using) =>
      "SELECT " + When(json, "JSON ") + SelectorsText(distinct, groupBy, columns) + " FROM " + table + " "
      + ClauseText("WHERE ", whr, env) + ColumnClauseText("GROUP BY ", groupBy) + ColumnClauseText("ORDER BY ", orderBy)
      + LimitText(perPartition, env) + LimitText(limit, env)
      + When(filtering, "ALLOW FILTERING ") + When(bypass, "BYPASS CACHE ") + UsingText(using, env)
    case Insert(table, inits, unique, json, using) =>
      "INSERT INTO " + table + " " +
      (if json then "JSON ?"
       else "(" + Joined(ColumnsOf(inits), ",") + ") VALUES (" + Joined(InitTexts(inits, env), ",") + ") "
            + When(unique, "IF NOT EXISTS ") + UsingText(using, env))
    case Update(table, assignments, whr, cond, existing, filtering, using) =>
      "UPDATE " + table + " " + UsingText(using, env)
      + "SET " + Joined(AssignmentTexts(assignments, env), ",") + " "
      + ConditionsText(whr, cond, existing, env) + When(filtering, "ALLOW FILTERING ")
    case Delete(table, columns, whr, cond, existing, using) =>
      "DELETE " + ColumnClauseText("", columns) + "FROM " + table + " " + UsingText(using, env)
      + ConditionsText(whr, cond, existing, env)
    case Batch(unlogged, counter, children, using) =>
      "BEGIN " + When(unlogged, "UNLOGGED ") + When(counter, "COUNTER ") + "BATCH " + UsingText(using, env)
      + ChildrenText(children, env) + "APPLY BATCH "
  }

  // ---- a document with its values in place ----

  function DocText(d: Doc, env: Env): string {
    match d
    case Empty => ""
    case Snoc(e, Txt(s)) => DocText(e, env) + s
    case Snoc(e, Par(name)) => DocText(e, env) + env(name)
  }

  /** It is the direct reading of the document's bytes. */
  lemma {:induction false} DocTextIsDirect(d: Doc, env: Env)
    ensures Direct(d.Flat(), env) == DocText(d, env)
  {
    match d
    case Empty =>
    case Snoc(e, Txt(s)) =>
      DocTextIsDirect(e, env);
      DirectConcat(e.Flat(), Lit(s), env);
      DirectChars(s, |s|, env);
      assert s[..|s|] == s;
    case Snoc(e, Par(name)) =>
      DocTextIsDirect(e, env);
      DirectConcat(e.Flat(), [Hole(name)], env);
      assert [Hole(name)][1..] == [] && Direct([], env) == "";
      assert Direct([Hole(name)], env) == env(name) + "";
  }

  lemma {:induction false} DirectConcat(a: Template, b: Template, env: Env)
    ensures Direct(a + b, env) == Direct(a, env) + Direct(b, env)
  {
    if a == [] {
      assert a + b == b;
    } else {
      assert a + b == [a[0]] + (a[1..] + b) && (a + b)[1..] == a[1..] + b;
      DirectConcat(a[1..], b, env);
    }
  }

  lemma {:induction false} DirectChars(s: string, n: nat, env: Env)
    requires n <= |s|
    ensures Direct(Chars(s, n), env) == s[..n]
  {
    if n > 0 {
      DirectChars(s, n - 1, env);
      DirectConcat(Chars(s, n - 1), [Ch(s[n - 1])], env);
      assert [Ch(s[n - 1])][1..] == [] && Direct([], env) == "";
      assert Direct([Ch(s[n - 1])], env) == [s[n - 1]] + "";
      assert s[..n] == s[..n - 1] + [s[n - 1]];
    }
  }

  // ---- what each writer adds ----

  /** `e` is `d` and `text`. */
  ghost predicate Adds(d: Doc, e: Doc, text: string, env: Env) {
    DocText(e, env) == DocText(d, env) + text
  }

  lemma {:induction false} AddsBoth(d: Doc, e: Doc, f: Doc, x: string, y: string, env: Env)
    requires Adds(d, e, x, env) && Adds(e, f, y, env)
    ensures Adds(d, f, x + y, env)
  {
    assert DocText(d, env) + x + y == DocText(d, env) + (x + y);
  }

  lemma {:induction false} NothingAdds(d: Doc, env: Env)
    ensures Adds(d, d, "", env)
  {
  }

  lemma {:induction false} PutAdds(d: Doc, s: string, env: Env)
    ensures Adds(d, Put(d, s), s, env)
  {
  }

  lemma {:induction false} IfAdds(d: Doc, on: bool, s: string, env: Env)
    ensures Adds(d, PutIf(d, on, s), When(on, s), env)
  {
  }

  lemma {:induction false} ParAdds(d: Doc, name: string, env: Env)
    ensures Adds(d, PutPar(d, name), env(name), env)
  {
  }

  /** A text after what has been added already. */
  lemma {:induction false} ThenPut(d: Doc, e: Doc, x: string, s: string, env: Env)
    requires Adds(d, e, x, env)
    ensures Adds(d, Put(e, s), x + s, env)
  {
    hide Adds;
    PutAdds(e, s, env);
    AddsBoth(d, e, Put(e, s), x, s, env);
  }

  lemma {:induction false} ListAdds(d: Doc, names: seq<string>, env: Env)
    ensures Adds(d, PutList(d, names), Joined(ListTexts(names, env), ","), env)
    decreases |names|
  {
    hide Adds;
    if names == [] {
      NothingAdds(d, env);
    } else {
      var e := PutPar(d, names[0]);
      ParAdds(d, names[0], env);
      assert |ListTexts(names, env)| == 1 <==> |names| == 1;
      if |names| > 1 {
        ThenPut(d, e, env(names[0]), ",", env);
        ListAdds(Put(e, ","), names[1..], env);
        AddsBoth(d, Put(e, ","), PutList(d, names), env(names[0]) + ",", Joined(ListTexts(names[1..], env), ","), env);
        assert ListTexts(names, env)[1..] == ListTexts(names[1..], env);
      }
    }
  }

  /** A list in parentheses. */
  lemma {:induction false} CallAdds(d: Doc, e: Doc, x: string, names: seq<string>, env: Env)
    requires Adds(d, e, x, env)
    ensures Adds(d, Put(PutList(e, names), ")"), x + Joined(ListTexts(names, env), ",") + ")", env)
  {
    hide Adds;
    var text := Joined(ListTexts(names, env), ",");
    ListAdds(e, names, env);
    AddsBoth(d, e, PutList(e, names), x, text, env);
    ThenPut(d, PutList(e, names), x + text, ")", env);
  }

  lemma {:induction false} ValueAdds(d: Doc, v: Value, env: Env)
    ensures Adds(d, PutValue(d, v), ValueText(v, env), env)
  {
    hide Adds;
    match v
    case Param(name) => ParAdds(d, name, env);
    case TupleParam(base, count) =>
      PutAdds(d, "(", env);
      CallAdds(d, Put(d, "("), "(", TupleNames(base, count), env);
    case Literal(text) => PutAdds(d, text, env);
    case Func(fn, ps) =>
      PutAdds(d, fn, env);
      ThenPut(d, Put(d, fn), fn, "(", env);
      CallAdds(d, Put(Put(d, fn), "("), fn + "(", ps, env);
  }

  /** A value after what has been added already. */
  lemma {:induction false} ThenValue(d: Doc, e: Doc, x: string, v: Value, env: Env)
    requires Adds(d, e, x, env)
    ensures Adds(d, PutValue(e, v), x + ValueText(v, env), env)
  {
    hide Adds;
    ValueAdds(e, v, env);
    AddsBoth(d, e, PutValue(e, v), x, ValueText(v, env), env);
  }

  lemma {:induction false} OpAdds(d: Doc, op: Op, env: Env)
    ensures Adds(d, PutOp(d, op), OpText(op), env)
  {
    hide Adds;
    match op
    case Leq =>
      PutAdds(d, "<", env);
      ThenPut(d, Put(d, "<"), "<", "=", env);
      assert "<" + "=" == "<=";
    case Geq =>
      PutAdds(d, ">", env);
      ThenPut(d, Put(d, ">"), ">", "=", env);
      assert ">" + "=" == ">=";
    case _ => PutAdds(d, OpText(op), env);
  }

  lemma {:induction false} CmpAdds(d: Doc, c: Cmp, env: Env)
    ensures Adds(d, PutCmp(d, c), c.column + OpText(c.op) + ValueText(c.value, env), env)
  {
    hide Adds;
    var e := Put(d, c.column);
    PutAdds(d, c.column, env);
    OpAdds(e, c.op, env);
    AddsBoth(d, e, PutOp(e, c.op), c.column, OpText(c.op), env);
    ThenValue(d, PutOp(e, c.op), c.column + OpText(c.op), c.value, env);
  }

  lemma {:induction false} CmpsAdds(d: Doc, cs: seq<Cmp>, env: Env)
    ensures Adds(d, PutCmps(d, cs), Joined(CmpTexts(cs, env), " AND "), env)
    decreases |cs|
  {
    hide Adds, PutCmp, ValueText, OpText;
    if cs == [] {
      NothingAdds(d, env);
    } else {
      var e, text := PutCmp(d, cs[0]), cs[0].column + OpText(cs[0].op) + ValueText(cs[0].value, env);
      CmpAdds(d, cs[0], env);
      assert |CmpTexts(cs, env)| == 1 <==> |cs| == 1;
      if |cs| > 1 {
        ThenPut(d, e, text, " AND ", env);
        CmpsAdds(Put(e, " AND "), cs[1..], env);
        AddsBoth(d, Put(e, " AND "), PutCmps(d, cs), text + " AND ", Joined(CmpTexts(cs[1..], env), " AND "), env);
        assert CmpTexts(cs, env)[1..] == CmpTexts(cs[1..], env);
      }
    }
  }

  lemma {:induction false} ClauseAdds(d: Doc, keyword: string, cs: seq<Cmp>, env: Env)
    ensures Adds(d, PutClause(d, keyword, cs), ClauseText(keyword, cs, env), env)
  {
    hide Adds, Joined, CmpTexts, PutCmps;
    if cs == [] {
      NothingAdds(d, env);
    } else {
      var e, text := Put(d, keyword), Joined(CmpTexts(cs, env), " AND ");
      PutAdds(d, keyword, env);
      CmpsAdds(e, cs, env);
      AddsBoth(d, e, PutCmps(e, cs), keyword, text, env);
      ThenPut(d, PutCmps(e, cs), keyword + text, " ", env);
    }
  }

  lemma {:induction false} LimitAdds(d: Doc, l: Limit, env: Env)
    ensures Adds(d, PutLimit(d, l), LimitText(l, env), env)
  {
    hide Adds, PutIf, When;
    match l
    case NoLimit => NothingAdds(d, env);
    case Limit(v, perPartition) =>
      var x := When(perPartition, "PER PARTITION ");
      var e := PutIf(d, perPartition, "PER PARTITION ");
      IfAdds(d, perPartition, "PER PARTITION ", env);
      ThenPut(d, e, x, "LIMIT ", env);
      ThenValue(d, Put(e, "LIMIT "), x + "LIMIT ", v, env);
      ThenPut(d, PutValue(Put(e, "LIMIT "), v), x + "LIMIT " + ValueText(v, env), " ", env);
  }

  lemma {:induction false} ColumnsAdds(d: Doc, cols: seq<string>, env: Env)
    ensures Adds(d, PutColumns(d, cols), Joined(cols, ","), env)
    decreases |cols|
  {
    hide Adds;
    if cols == [] {
      NothingAdds(d, env);
    } else {
      PutAdds(d, cols[0], env);
      if |cols| > 1 {
        var e := Put(Put(d, cols[0]), ",");
        ThenPut(d, Put(d, cols[0]), cols[0], ",", env);
        ColumnsAdds(e, cols[1..], env);
        AddsBoth(d, e, PutColumns(d, cols), cols[0] + ",", Joined(cols[1..], ","), env);
      }
    }
  }

  /** Columns after what has been added already. */
  lemma {:induction false} ThenColumns(d: Doc, e: Doc, x: string, cols: seq<string>, env: Env)
    requires Adds(d, e, x, env)
    ensures Adds(d, PutColumns(e, cols), x + Joined(cols, ","), env)
  {
    hide Adds;
    ColumnsAdds(e, cols, env);
    AddsBoth(d, e, PutColumns(e, cols), x, Joined(cols, ","), env);
  }

  lemma {:induction false} ColumnClauseAdds(d: Doc, keyword: string, cols: seq<string>, env: Env)
    ensures Adds(d, PutColumnClause(d, keyword, cols), ColumnClauseText(keyword, cols), env)
  {
    hide Adds, PutColumns, Joined;
    if cols == [] {
      NothingAdds(d, env);
    } else {
      PutAdds(d, keyword, env);
      ThenColumns(d, Put(d, keyword), keyword, cols, env);
      ThenPut(d, PutColumns(Put(d, keyword), cols), keyword + Joined(cols, ","), " ", env);
    }
  }

  lemma {:induction false} SelectorsAdds(d: Doc, distinct: seq<string>, groupBy: seq<string>, columns: seq<string>,
                                         env: Env)
    ensures Adds(d, PutSelectors(d, distinct, groupBy, columns), SelectorsText(distinct, groupBy, columns), env)
  {
    hide Adds, PutColumns, Joined;
    if distinct != [] {
      PutAdds(d, "DISTINCT ", env);
      ThenColumns(d, Put(d, "DISTINCT "), "DISTINCT ", distinct, env);
    } else if groupBy != [] {
      var e := PutColumns(d, groupBy);
      ColumnsAdds(d, groupBy, env);
      if columns != [] {
        PutAdds(e, ",", env);
        ThenColumns(e, Put(e, ","), ",", columns, env);
        AddsBoth(d, e, PutColumns(Put(e, ","), columns), Joined(groupBy, ","), "," + Joined(columns, ","), env);
      } else {
        assert Joined(groupBy, ",") + "" == Joined(groupBy, ",");
      }
    } else if columns == [] {
      PutAdds(d, "*", env);
    } else {
      ColumnsAdds(d, columns, env);
    }
  }

  // ---- USING ----

  lemma {:induction false} JoinedSnoc(texts: seq<string>, text: string, separator: string)
    ensures Joined(texts + [text], separator) ==
      if texts == [] then text else Joined(texts, separator) + separator + text
  {
    if texts == [] {
      assert texts + [text] == [text];
    } else {
      var all := texts + [text];
      assert all[1..] == texts[1..] + [text];
      JoinedSnoc(texts[1..], text, separator);
      if |texts| > 1 {
        var rest := Joined(texts[1..], separator);
        assert texts[0] + separator + (rest + separator + text) == texts[0] + separator + rest + separator + text;
      }
    }
  }

  /** One more clause, with the preamble that fits the clauses before it. */
  lemma {:induction false} AskAdds(d: Doc, e: Doc, clauses: seq<string>, keyword: string, a: Ask, env: Env)
    requires Adds(d, e, AsksText(clauses), env)
    ensures Adds(d, PutAsk(e, clauses == [], keyword, a), AsksText(clauses + Present(a, keyword, env)), env)
  {
    hide Adds, Joined;
    if a.Nothing? {
      assert clauses + [] == clauses;
    } else {
      var text := AskText(a, keyword, env);
      var preamble := if clauses == [] then "USING " else "AND ";
      var e1 := Put(e, preamble);
      ThenPut(d, e, AsksText(clauses), preamble, env);
      var x := AsksText(clauses) + preamble;
      ThenPut(d, e1, x, keyword, env);
      match a {
        case Fixed(s) => ThenPut(d, Put(e1, keyword), x + keyword, s, env);
        case ByName(name) =>
          ParAdds(Put(e1, keyword), name, env);
          AddsBoth(d, Put(e1, keyword), PutPar(Put(e1, keyword), name), x + keyword, env(name), env);
      }
      var s := match a case Fixed(s) => s case ByName(name) => env(name);
      var e2 := match a case Fixed(s) => Put(Put(e1, keyword), s) case ByName(name) => PutPar(Put(e1, keyword), name);
      ThenPut(d, e2, x + keyword + s, " ", env);
      PreambleText(clauses, keyword, s, text);
    }
  }

  lemma {:induction false} PreambleText(clauses: seq<string>, keyword: string, s: string, text: string)
    requires text == keyword + s + " "
    ensures AsksText(clauses) + (if clauses == [] then "USING " else "AND ") + keyword + s + " " ==
      AsksText(clauses + [text])
  {
    JoinedSnoc(clauses, text, "AND ");
    if clauses != [] {
      var all := Joined(clauses, "AND ");
      assert "USING " + all + "AND " + keyword + s + " " == "USING " + (all + "AND " + (keyword + s + " "));
    } else {
      assert "" + "USING " + keyword + s + " " == "USING " + (keyword + s + " ");
    }
  }

  lemma {:induction false} UsingAdds(d: Doc, u: UsingState, env: Env)
    ensures Adds(d, PutUsing(d, u), UsingText(u, env), env)
  {
    hide Adds, PutAsk, AsksText, TtlAsk, TimestampAsk, TimeoutAsk;
    var a, b, c := TtlAsk(u), TimestampAsk(u), TimeoutAsk(u);
    var p1 := Present(a, "TTL ", env);
    var p2 := p1 + Present(b, "TIMESTAMP ", env);
    var d1 := PutAsk(d, true, "TTL ", a);
    var d2 := PutAsk(d1, a.Nothing?, "TIMESTAMP ", b);
    NoClauses(d, env);
    AskAdds(d, d, [], "TTL ", a, env);
    assert [] + p1 == p1;
    AskAdds(d, d1, p1, "TIMESTAMP ", b, env);
    AskAdds(d, d2, p2, "TIMEOUT ", c, env);
  }

  lemma {:induction false} NoClauses(d: Doc, env: Env)
    ensures Adds(d, d, AsksText([]), env)
  {
  }

  // ---- statements ----

  lemma {:induction false} InitsAdds(d: Doc, inits: seq<Initializer>, env: Env)
    ensures Adds(d, PutInits(d, inits), Joined(InitTexts(inits, env), ","), env)
    decreases |inits|
  {
    hide Adds, PutValue, ValueText;
    if inits == [] {
      NothingAdds(d, env);
    } else {
      var e, text := PutValue(d, inits[0].value), ValueText(inits[0].value, env);
      ValueAdds(d, inits[0].value, env);
      assert |InitTexts(inits, env)| == 1 <==> |inits| == 1;
      if |inits| > 1 {
        ThenPut(d, e, text, ",", env);
        InitsAdds(Put(e, ","), inits[1..], env);
        AddsBoth(d, Put(e, ","), PutInits(d, inits), text + ",", Joined(InitTexts(inits[1..], env), ","), env);
        assert InitTexts(inits, env)[1..] == InitTexts(inits[1..], env);
      }
    }
  }

  lemma {:induction false} AssignmentAdds(d: Doc, a: Assignment, env: Env)
    ensures Adds(d, PutAssignment(d, a), a.column + "=" + a.valuePrefix + ValueText(a.value, env), env)
  {
    hide Adds, PutValue, ValueText;
    PutAdds(d, a.column, env);
    ThenPut(d, Put(d, a.column), a.column, "=", env);
    ThenPut(d, Put(Put(d, a.column), "="), a.column + "=", a.valuePrefix, env);
    ThenValue(d, Put(Put(Put(d, a.column), "="), a.valuePrefix), a.column + "=" + a.valuePrefix, a.value, env);
  }

  lemma {:induction false} AssignmentsAdds(d: Doc, assignments: seq<Assignment>, env: Env)
    ensures Adds(d, PutAssignments(d, assignments), Joined(AssignmentTexts(assignments, env), ","), env)
    decreases |assignments|
  {
    hide Adds, PutAssignment, ValueText;
    if assignments == [] {
      NothingAdds(d, env);
    } else {
      var a := assignments[0];
      var e, text := PutAssignment(d, a), a.column + "=" + a.valuePrefix + ValueText(a.value, env);
      AssignmentAdds(d, a, env);
      assert |AssignmentTexts(assignments, env)| == 1 <==> |assignments| == 1;
      if |assignments| > 1 {
        var rest := Joined(AssignmentTexts(assignments[1..], env), ",");
        ThenPut(d, e, text, ",", env);
        AssignmentsAdds(Put(e, ","), assignments[1..], env);
        AddsBoth(d, Put(e, ","), PutAssignments(d, assignments), text + ",", rest, env);
        assert AssignmentTexts(assignments, env)[1..] == AssignmentTexts(assignments[1..], env);
      }
    }
  }

  lemma {:induction false} ConditionsAdds(d: Doc, whr: seq<Cmp>, cond: seq<Cmp>, existing: bool, env: Env)
    ensures Adds(d, PutConditions(d, whr, cond, existing), ConditionsText(whr, cond, existing, env), env)
  {
    hide Adds, PutClause, ClauseText, PutIf, When;
    var e := PutClause(d, "WHERE ", whr);
    var x, y := ClauseText("WHERE ", whr, env), ClauseText("IF ", cond, env);
    ClauseAdds(d, "WHERE ", whr, env);
    ClauseAdds(e, "IF ", cond, env);
    AddsBoth(d, e, PutClause(e, "IF ", cond), x, y, env);
    ThenIf(d, PutClause(e, "IF ", cond), x + y, existing, "IF EXISTS ", env);
  }

  lemma {:induction false} ThenIf(d: Doc, e: Doc, x: string, on: bool, s: string, env: Env)
    requires Adds(d, e, x, env)
    ensures Adds(d, PutIf(e, on, s), x + When(on, s), env)
  {
    hide Adds, PutIf, When;
    IfAdds(e, on, s, env);
    AddsBoth(d, e, PutIf(e, on, s), x, When(on, s), env);
  }

  lemma {:induction false} ThenUsing(d: Doc, e: Doc, x: string, u: UsingState, env: Env)
    requires Adds(d, e, x, env)
    ensures Adds(d, PutUsing(e, u), x + UsingText(u, env), env)
  {
    hide Adds, PutUsing, UsingText;
    UsingAdds(e, u, env);
    AddsBoth(d, e, PutUsing(e, u), x, UsingText(u, env), env);
  }

  lemma {:induction false} ThenTable(d: Doc, e: Doc, x: string, table: string, env: Env)
    requires Adds(d, e, x, env)
    ensures Adds(d, PutTable(e, table), x + table + " ", env)
  {
    hide Adds;
    ThenPut(d, e, x, table, env);
    ThenPut(d, Put(e, table), x + table, " ", env);
  }

  lemma {:induction false} SelectSays(s: Statement, env: Env)
    requires s.Select?
    ensures Adds(Empty, Document(s), StatementText(s, env), env)
  {
    hide Adds, PutIf, When, PutSelectors, SelectorsText, PutClause, ClauseText, PutColumnClause, ColumnClauseText,
         PutLimit, LimitText, PutUsing, UsingText, PutTable;
    var d0 := Put(Empty, "SELECT ");
    PutAdds(Empty, "SELECT ", env);
    ThenIf(Empty, d0, "SELECT ", s.json, "JSON ", env);
    var x1, d1 := "SELECT " + When(s.json, "JSON "), PutIf(d0, s.json, "JSON ");
    SelectorsAdds(d1, s.distinct, s.groupBy, s.columns, env);
    var x2, d2 := SelectorsText(s.distinct, s.groupBy, s.columns), PutSelectors(d1, s.distinct, s.groupBy, s.columns);
    AddsBoth(Empty, d1, d2, x1, x2, env);
    ThenPut(Empty, d2, x1 + x2, " FROM ", env);
    ThenTable(Empty, Put(d2, " FROM "), x1 + x2 + " FROM ", s.table, env);
    var x3, d3 := x1 + x2 + " FROM " + s.table + " ", PutTable(Put(d2, " FROM "), s.table);
    SelectClauses(d3, x3, s, env);
    var d4 := PutColumnClause(PutColumnClause(PutClause(d3, "WHERE ", s.whr), "GROUP BY ", s.groupBy), "ORDER BY ",
                              s.orderBy);
    var x4 := x3 + ClauseText("WHERE ", s.whr, env) + ColumnClauseText("GROUP BY ", s.groupBy)
              + ColumnClauseText("ORDER BY ", s.orderBy);
    SelectTail(d4, x4, s, env);
  }

  lemma {:induction false} SelectClauses(d3: Doc, x3: string, s: Statement, env: Env)
    requires s.Select? && Adds(Empty, d3, x3, env)
    ensures Adds(Empty,
                 PutColumnClause(PutColumnClause(PutClause(d3, "WHERE ", s.whr), "GROUP BY ", s.groupBy), "ORDER BY ",
                                 s.orderBy),
                 x3 + ClauseText("WHERE ", s.whr, env) + ColumnClauseText("GROUP BY ", s.groupBy)
                 + ColumnClauseText("ORDER BY ", s.orderBy), env)
  {
    hide Adds, PutClause, ClauseText, PutColumnClause, ColumnClauseText;
    var e1 := PutClause(d3, "WHERE ", s.whr);
    var e2 := PutColumnClause(e1, "GROUP BY ", s.groupBy);
    var y1 := x3 + ClauseText("WHERE ", s.whr, env);
    ClauseAdds(d3, "WHERE ", s.whr, env);
    AddsBoth(Empty, d3, e1, x3, ClauseText("WHERE ", s.whr, env), env);
    ColumnClauseAdds(e1, "GROUP BY ", s.groupBy, env);
    AddsBoth(Empty, e1, e2, y1, ColumnClauseText("GROUP BY ", s.groupBy), env);
    ColumnClauseAdds(e2, "ORDER BY ", s.orderBy, env);
    AddsBoth(Empty, e2, PutColumnClause(e2, "ORDER BY ", s.orderBy), y1 + ColumnClauseText("GROUP BY ", s.groupBy),
             ColumnClauseText("ORDER BY ", s.orderBy), env);
  }

  lemma {:induction false} SelectTail(d4: Doc, x4: string, s: Statement, env: Env)
    requires s.Select? && Adds(Empty, d4, x4, env)
    ensures Adds(Empty,
                 PutUsing(PutIf(PutIf(PutLimit(PutLimit(d4, s.limitPerPartition), s.limit),
                                      s.allowFiltering, "ALLOW FILTERING "),
                                s.bypassCache, "BYPASS CACHE "), s.using),
                 x4 + LimitText(s.limitPerPartition, env) + LimitText(s.limit, env)
                 + When(s.allowFiltering, "ALLOW FILTERING ") + When(s.bypassCache, "BYPASS CACHE ")
                 + UsingText(s.using, env), env)
  {
    hide Adds, PutIf, When, PutLimit, LimitText, PutUsing, UsingText;
    var e1 := PutLimit(d4, s.limitPerPartition);
    var e2 := PutLimit(e1, s.limit);
    var y1 := x4 + LimitText(s.limitPerPartition, env);
    LimitAdds(d4, s.limitPerPartition, env);
    AddsBoth(Empty, d4, e1, x4, LimitText(s.limitPerPartition, env), env);
    LimitAdds(e1, s.limit, env);
    AddsBoth(Empty, e1, e2, y1, LimitText(s.limit, env), env);
    var y2 := y1 + LimitText(s.limit, env);
    ThenIf(Empty, e2, y2, s.allowFiltering, "ALLOW FILTERING ", env);
    var e3, y3 := PutIf(e2, s.allowFiltering, "ALLOW FILTERING "), y2 + When(s.allowFiltering, "ALLOW FILTERING ");
    ThenIf(Empty, e3, y3, s.bypassCache, "BYPASS CACHE ", env);
    ThenUsing(Empty, PutIf(e3, s.bypassCache, "BYPASS CACHE "), y3 + When(s.bypassCache, "BYPASS CACHE "), s.using,
              env);
  }

  lemma {:induction false} InsertSays(s: Statement, env: Env)
    requires s.Insert?
    ensures Adds(Empty, Document(s), StatementText(s, env), env)
  {
    hide Adds, PutColumns, Joined, PutInits, InitTexts, InitColumns, ColumnsOf, PutUsing, UsingText, PutTable,
         PutIf, When;
    var d0 := Put(Put(Empty, "INSERT "), "INTO ");
    PutAdds(Empty, "INSERT ", env);
    ThenPut(Empty, Put(Empty, "INSERT "), "INSERT ", "INTO ", env);
    assert "INSERT " + "INTO " == "INSERT INTO ";
    ThenTable(Empty, d0, "INSERT INTO ", s.table, env);
    var d1, x1 := PutTable(d0, s.table), "INSERT INTO " + s.table + " ";
    if s.json {
      ThenPut(Empty, d1, x1, "JSON ?", env);
    } else {
      InsertLists(d1, s, env);
      AddsBoth(Empty, d1, Document(s), x1,
               "(" + Joined(ColumnsOf(s.inits), ",") + ") VALUES (" + Joined(InitTexts(s.inits, env), ",") + ") "
               + When(s.unique, "IF NOT EXISTS ") + UsingText(s.using, env), env);
    }
  }

  /** The written column list has the column of every initializer at its place. */
  lemma {:induction false} InitColumnsAre(inits: seq<Initializer>)
    ensures |InitColumns(inits)| == |inits| && forall i :: 0 <= i < |inits| ==> InitColumns(inits)[i] == inits[i].column
    ensures InitColumns(inits) == ColumnsOf(inits)
  {
    if inits != [] {
      InitColumnsAre(inits[1..]);
    }
  }

  lemma {:induction false} InsertLists(d1: Doc, s: Statement, env: Env)
    requires s.Insert?
    ensures
      var d2 := Put(PutColumns(Put(d1, "("), InitColumns(s.inits)), ") ");
      var d3 := Put(PutInits(Put(d2, "VALUES ("), s.inits), ") ");
      Adds(d1, PutUsing(PutIf(d3, s.unique, "IF NOT EXISTS "), s.using),
           "(" + Joined(ColumnsOf(s.inits), ",") + ") VALUES (" + Joined(InitTexts(s.inits, env), ",") + ") "
           + When(s.unique, "IF NOT EXISTS ") + UsingText(s.using, env), env)
  {
    hide Adds, PutColumns, Joined, PutInits, InitTexts, InitColumns, ColumnsOf, PutUsing, UsingText, PutIf, When;
    InitColumnsAre(s.inits);
    var columns, values := Joined(ColumnsOf(s.inits), ","), Joined(InitTexts(s.inits, env), ",");
    var e1 := PutColumns(Put(d1, "("), InitColumns(s.inits));
    var e2 := Put(e1, ") ");
    var e3 := Put(e2, "VALUES (");
    PutAdds(d1, "(", env);
    ThenColumns(d1, Put(d1, "("), "(", InitColumns(s.inits), env);
    ThenPut(d1, e1, "(" + columns, ") ", env);
    ThenPut(d1, e2, "(" + columns + ") ", "VALUES (", env);
    assert "(" + columns + ") " + "VALUES (" == "(" + columns + ") VALUES (";
    InitsAdds(e3, s.inits, env);
    AddsBoth(d1, e3, PutInits(e3, s.inits), "(" + columns + ") VALUES (", values, env);
    var x := "(" + columns + ") VALUES (" + values;
    ThenPut(d1, PutInits(e3, s.inits), x, ") ", env);
    var d3 := Put(PutInits(e3, s.inits), ") ");
    ThenIf(d1, d3, x + ") ", s.unique, "IF NOT EXISTS ", env);
    ThenUsing(d1, PutIf(d3, s.unique, "IF NOT EXISTS "), x + ") " + When(s.unique, "IF NOT EXISTS "), s.using, env);
  }

  lemma {:induction false} UpdateSays(s: Statement, env: Env)
    requires s.Update?
    ensures Adds(Empty, Document(s), StatementText(s, env), env)
  {
    hide Adds, PutAssignments, AssignmentTexts, Joined, PutConditions, ConditionsText, PutUsing, UsingText, PutTable,
         PutIf, When;
    var d0 := Put(Empty, "UPDATE ");
    PutAdds(Empty, "UPDATE ", env);
    ThenTable(Empty, d0, "UPDATE ", s.table, env);
    ThenUsing(Empty, PutTable(d0, s.table), "UPDATE " + s.table + " ", s.using, env);
    var d1, x1 := PutUsing(PutTable(d0, s.table), s.using), "UPDATE " + s.table + " " + UsingText(s.using, env);
    ThenPut(Empty, d1, x1, "SET ", env);
    AssignmentsAdds(Put(d1, "SET "), s.assignments, env);
    var d2, x2 := PutAssignments(Put(d1, "SET "), s.assignments), Joined(AssignmentTexts(s.assignments, env), ",");
    AddsBoth(Empty, Put(d1, "SET "), d2, x1 + "SET ", x2, env);
    ThenPut(Empty, d2, x1 + "SET " + x2, " ", env);
    var d3, x3 := Put(d2, " "), x1 + "SET " + x2 + " ";
    ConditionsAdds(d3, s.whr, s.cond, s.existing, env);
    var d4 := PutConditions(d3, s.whr, s.cond, s.existing);
    AddsBoth(Empty, d3, d4, x3, ConditionsText(s.whr, s.cond, s.existing, env), env);
    ThenIf(Empty, d4, x3 + ConditionsText(s.whr, s.cond, s.existing, env), s.allowFiltering, "ALLOW FILTERING ", env);
  }

  lemma {:induction false} DeleteSays(s: Statement, env: Env)
    requires s.Delete?
    ensures Adds(Empty, Document(s), StatementText(s, env), env)
  {
    hide Adds, PutColumns, Joined, PutConditions, ConditionsText, PutUsing, UsingText, PutTable;
    var d0 := Put(Empty, "DELETE ");
    PutAdds(Empty, "DELETE ", env);
    var d1 := if s.columns == [] then d0 else Put(PutColumns(d0, s.columns), " ");
    var x1 := "DELETE " + ColumnClauseText("", s.columns);
    if s.columns == [] {
      assert "DELETE " + "" == "DELETE ";
    } else {
      ThenColumns(Empty, d0, "DELETE ", s.columns, env);
      ThenPut(Empty, PutColumns(d0, s.columns), "DELETE " + Joined(s.columns, ","), " ", env);
      assert "DELETE " + Joined(s.columns, ",") + " " == "DELETE " + ("" + Joined(s.columns, ",") + " ");
    }
    ThenPut(Empty, d1, x1, "FROM ", env);
    ThenTable(Empty, Put(d1, "FROM "), x1 + "FROM ", s.table, env);
    var d2, x2 := PutTable(Put(d1, "FROM "), s.table), x1 + "FROM " + s.table + " ";
    ThenUsing(Empty, d2, x2, s.using, env);
    var d3 := PutUsing(d2, s.using);
    ConditionsAdds(d3, s.whr, s.cond, s.existing, env);
    AddsBoth(Empty, d3, PutConditions(d3, s.whr, s.cond, s.existing), x2 + UsingText(s.using, env),
             ConditionsText(s.whr, s.cond, s.existing, env), env);
  }

  lemma {:induction false} ThenAdds(d: Doc, e: Doc, env: Env)
    ensures DocText(Then(d, e), env) == DocText(d, env) + DocText(e, env)
  {
    match e
    case Empty =>
    case Snoc(f, _) => ThenAdds(d, f, env);
  }

  lemma {:induction false} RenamedText(prefix: string, d: Doc, env: Env)
    ensures DocText(Rename(prefix, d), env) == DocText(d, Under(prefix, env))
  {
    match d
    case Empty =>
    case Snoc(e, _) => RenamedText(prefix, e, env);
  }

  lemma {:induction false} ChildrenAdds(d: Doc, children: seq<Child>, env: Env)
    ensures Adds(d, PutChildren(d, children), ChildrenText(children, env), env)
    decreases children
  {
    if children == [] {
      NothingAdds(d, env);
    } else {
      var n := |children| - 1;
      var c := children[n];
      ChildrenAdds(d, children[..n], env);
      StatementSays(c.stmt, Under(c.prefix, env));
      ChildAdds(d, PutChildren(d, children[..n]), ChildrenText(children[..n], env), c.prefix, Document(c.stmt),
                StatementText(c.stmt, Under(c.prefix, env)), env);
    }
  }

  /**
   A statement added under a prefix: its document `child` says `text` when its names are looked up
   with the prefix.
   */
  lemma {:induction false} ChildAdds(d: Doc, e: Doc, x: string, prefix: string, child: Doc, text: string, env: Env)
    requires Adds(d, e, x, env) && DocText(child, Under(prefix, env)) == text
    ensures Adds(d, Put(Put(Then(e, Rename(prefix, child)), ";"), " "), x + text + "; ", env)
  {
    var f := Then(e, Rename(prefix, child));
    ThenAdds(e, Rename(prefix, child), env);
    RenamedText(prefix, child, env);
    assert Adds(e, f, text, env);
    AddsBoth(d, e, f, x, text, env);
    ThenPut(d, f, x + text, ";", env);
    ThenPut(d, Put(f, ";"), x + text + ";", " ", env);
    assert x + text + ";" + " " == x + text + "; ";
  }

  lemma {:induction false} BatchSays(s: Statement, env: Env)
    requires s.Batch?
    ensures Adds(Empty, Document(s), StatementText(s, env), env)
    decreases s, 0
  {
    hide Adds, PutChildren, ChildrenText, PutUsing, UsingText, PutIf, When;
    var d0 := Put(Empty, "BEGIN ");
    PutAdds(Empty, "BEGIN ", env);
    ThenIf(Empty, d0, "BEGIN ", s.unlogged, "UNLOGGED ", env);
    var d1, x1 := PutIf(d0, s.unlogged, "UNLOGGED "), "BEGIN " + When(s.unlogged, "UNLOGGED ");
    ThenIf(Empty, d1, x1, s.counter, "COUNTER ", env);
    var d2, x2 := PutIf(d1, s.counter, "COUNTER "), x1 + When(s.counter, "COUNTER ");
    ThenPut(Empty, d2, x2, "BATCH ", env);
    ThenUsing(Empty, Put(d2, "BATCH "), x2 + "BATCH ", s.using, env);
    var d3, x3 := PutUsing(Put(d2, "BATCH "), s.using), x2 + "BATCH " + UsingText(s.using, env);
    ChildrenAdds(d3, s.children, env);
    AddsBoth(Empty, d3, PutChildren(d3, s.children), x3, ChildrenText(s.children, env), env);
    ThenPut(Empty, PutChildren(d3, s.children), x3 + ChildrenText(s.children, env), "APPLY BATCH ", env);
  }

  /** The document of a statement, with its values in place, says what the tree says. */
  lemma {:induction false} StatementSays(s: Statement, env: Env)
    ensures DocText(Document(s), env) == StatementText(s, env)
    decreases s, 1
  {
    hide Document, StatementText;
    match s {
      case Select(_, _, _, _, _, _, _, _, _, _, _, _) => SelectSays(s, env);
      case Insert(_, _, _, _, _) => InsertSays(s, env);
      case Update(_, _, _, _, _, _, _) => UpdateSays(s, env);
      case Delete(_, _, _, _, _, _) => DeleteSays(s, env);
      case Batch(_, _, _, _) => BatchSays(s, env);
    }
    assert "" + StatementText(s, env) == StatementText(s, env);
  }
}
