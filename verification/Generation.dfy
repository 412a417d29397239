/**
 Dropping unused user types, collecting imports and printing types, on the types in memory,
 and the whole of `renderTemplate` before the template (cmd/schemagen/schemagen.go).
 */
module Generation {
  import opened Wrappers
  import opened Camelizing
  import opened CqlTypes
  import opened GoTexts
  import opened TypeRewriting
  import opened Schemas

  // ---- the read-only walks ----

  method TypeUsesName(t: GoType, name: string, ghost tree: Type, ghost trees: Trees) returns (b: bool)
    requires Denotes(t, tree, trees)
    ensures b == UsesName(tree, name)
    decreases tree
  {
    match t
    case Plain(leaf) => b := leaf.Udt? && leaf.name == name;
    case GoList(_, elem) => b := TypeUsesName(elem, name, tree.elem, trees);
    case GoMap(key, elem) =>
      b := TypeUsesName(key, name, tree.key, trees);
      if !b {
        b := TypeUsesName(elem, name, tree.elem, trees);
      }
    case GoTuple(a) =>
      for i := 0 to a.Length
        invariant forall j :: 0 <= j < i ==> !UsesName(tree.elems[j], name)
      {
        b := TypeUsesName(a[i], name, tree.elems[i], trees);
        if b {
          return true;
        }
      }
      b := false;
  }

  predicate Distinct(s: seq<string>) {
    forall i, j :: 0 <= i < j < |s| ==> s[i] != s[j]
  }

  method AppendUnique(s: seq<string>, v: string) returns (r: seq<string>)
    ensures r == if v in s then s else s + [v]
    ensures Distinct(s) ==> Distinct(r)
  {
    for i := 0 to |s|
      invariant v !in s[..i]
    {
      if s[i] == v {
        return s;
      }
    }
    r := s + [v];
  }

  function Paths(ps: set<Package>): set<string> {
    set p | p in ps :: p.Path()
  }

  /** `imports` has grown by exactly the paths of `ps`, without repeating anything. */
  ghost predicate Grown(before: seq<string>, imports: seq<string>, ps: set<Package>) {
    Distinct(imports) && before <= imports && forall s :: s in imports <==> s in before || s in Paths(ps)
  }

  method CollectImports(t: GoType, imports: seq<string>, ghost tree: Type, ghost trees: Trees) returns (r: seq<string>)
    requires Denotes(t, tree, trees) && Distinct(imports)
    ensures Grown(imports, r, Required(tree))
    decreases tree, 1
  {
    match t
    case GoList(_, elem) => r := CollectImports(elem, imports, tree.elem, trees);
    case GoMap(key, elem) =>
      var mid := CollectImports(key, imports, tree.key, trees);
      r := CollectImports(elem, mid, tree.elem, trees);
    case GoTuple(a) => r := CollectElems(a, imports, tree, trees);
    case Plain(leaf) => r := CollectLeaf(leaf, imports);
  }

  method CollectLeaf(leaf: Type, imports: seq<string>) returns (r: seq<string>)
    requires IsLeaf(leaf) && Distinct(imports)
    ensures Grown(imports, r, Required(leaf))
  {
    r := imports;
    if leaf.Native? {
      match leaf.code
      case Timestamp => r := AppendUnique(imports, "time");
      case Date => r := AppendUnique(imports, "time");
      case Time => r := AppendUnique(imports, "time");
      case Decimal => r := AppendUnique(imports, "gopkg.in/inf.v0");
      case Duration => r := AppendUnique(imports, "github.com/apache/cassandra-gocql-driver/v2");
      case _ =>
    }
  }

  method CollectElems(a: array<GoType>, imports: seq<string>, ghost tree: Type, ghost trees: Trees)
    returns (r: seq<string>)
    requires Denotes(GoTuple(a), tree, trees) && Distinct(imports)
    ensures Grown(imports, r, RequiredAll(tree.elems))
    decreases tree, 0
  {
    r := imports;
    for i := 0 to a.Length
      invariant Grown(imports, r, RequiredAll(tree.elems[..i]))
    {
      assert tree.elems[..i + 1][..i] == tree.elems[..i];
      ghost var before := r;
      r := CollectImports(a[i], r, tree.elems[i], trees);
    }
    assert tree.elems[..a.Length] == tree.elems;
  }

  /** The Go type, or none where the code panics. */
  method MapCqlTypeToGoType(t: GoType, ghost tree: Type, ghost trees: Trees) returns (r: Option<string>)
    requires Denotes(t, tree, trees)
    ensures r == if Printable(tree) then Some(GoText(tree)) else None
    decreases tree, 1
  {
    match t
    case GoList(_, elem) =>
      var e := MapCqlTypeToGoType(elem, tree.elem, trees);
      r := if e.Some? then Some("[]" + e.value) else None;
    case GoMap(key, elem) =>
      var k := MapCqlTypeToGoType(key, tree.key, trees);
      var e := MapCqlTypeToGoType(elem, tree.elem, trees);
      r := if k.Some? && e.Some? then Some("map[" + k.value + "]" + e.value) else None;
    case GoTuple(a) => r := MapTuple(a, tree, trees);
    case Plain(leaf) =>
      match leaf {
        case Nil => r := None;
        case Native(code) => r := Some(NativeText(code));
        case Udt(_, name) =>
          var c := Camelize(name);
          r := if c.Some? then Some(c.value + "UserType") else None;
        case _ => r := Some("any");
      }
  }

  method MapTuple(a: array<GoType>, ghost tree: Type, ghost trees: Trees) returns (r: Option<string>)
    requires Denotes(GoTuple(a), tree, trees)
    ensures r == if Printable(tree) then Some(GoText(tree)) else None
    decreases tree, 0
  {
    hide FieldText;
    var s := "struct {\n";
    for i := 0 to a.Length
      invariant forall j :: 0 <= j < i ==> Printable(tree.elems[j])
      invariant s == "struct {\n" + FieldTexts(tree.elems[..i])
    {
      var e := MapCqlTypeToGoType(a[i], tree.elems[i], trees);
      if e == None {
        return None;
      }
      AddField(s, tree.elems, i);
      s := s + FieldText(i, e.value);
    }
    assert tree.elems[..a.Length] == tree.elems;
    s := s + "\t}";
    return Some(s);
  }

  lemma {:induction false} AddField(s: string, elems: seq<Type>, i: nat)
    requires i < |elems| && forall j :: 0 <= j < i + 1 ==> Printable(elems[j])
    requires s == "struct {\n" + FieldTexts(elems[..i])
    ensures s + FieldText(i, GoText(elems[i])) == "struct {\n" + FieldTexts(elems[..i + 1])
  {
    hide FieldText;
    assert elems[..i + 1][..i] == elems[..i];
    assert FieldTexts(elems[..i + 1]) == FieldTexts(elems[..i]) + FieldText(i, GoText(elems[i]));
  }

  // ---- columns and user types ----

  /** The tree of a column after resolution. */
  ghost function Tree(c: Column, trees: map<Column, Type>, udts: set<string>, keyspace: string): Type
    requires c in trees
  {
    Rewrite(trees[c], udts, keyspace)
  }

  /** Every column is its original tree, rewritten. */
  ghost predicate Rewritten(columns: seq<Column>, trees: map<Column, Type>, udts: set<string>, keyspace: string,
                            goals: Trees)
    reads columns, goals.Keys
  {
    forall c :: c in columns ==> c in trees && Denotes(c.typ, Tree(c, trees, udts, keyspace), goals)
  }

  /** Some column mentions the user type `name`, as a reference or as an opaque name, at any depth. */
  ghost predicate Mentioned(columns: seq<Column>, trees: map<Column, Type>, udts: set<string>, name: string)
    requires forall c :: c in columns ==> c in trees
  {
    exists c :: c in columns && Mentions(trees[c], name, udts)
  }

  /** `usedInTables` and `usedInViews` over all columns. */
  method UsedInColumns(name: string, columns: seq<Column>, ghost trees: map<Column, Type>, ghost udts: set<string>,
                       ghost keyspace: string, ghost goals: Trees) returns (b: bool)
    requires Rewritten(columns, trees, udts, keyspace, goals)
    ensures b == Mentioned(columns, trees, udts, name)
  {
    for i := 0 to |columns|
      invariant forall j :: 0 <= j < i ==> !Mentions(trees[columns[j]], name, udts)
    {
      b := TypeUsesName(columns[i].typ, name, Tree(columns[i], trees, udts, keyspace), goals);
      RewriteUses(trees[columns[i]], udts, keyspace, name);
      if b {
        return true;
      }
    }
    b := false;
  }

  /** Only the user types that some column mentions remain. */
  method Prune(userTypes: seq<UserDefined>, columns: seq<Column>, ghost trees: map<Column, Type>,
               ghost udts: set<string>, ghost keyspace: string, ghost goals: Trees) returns (kept: seq<UserDefined>)
    requires Rewritten(columns, trees, udts, keyspace, goals)
    ensures forall u :: u in kept <==> u in userTypes && Mentioned(columns, trees, udts, u.name)
  {
    kept := [];
    for i := 0 to |userTypes|
      invariant forall u :: u in kept <==> u in userTypes[..i] && Mentioned(columns, trees, udts, u.name)
    {
      var used := UsedInColumns(userTypes[i].name, columns, trees, udts, keyspace, goals);
      if used {
        kept := kept + [userTypes[i]];
      }
    }
    assert userTypes[..|userTypes|] == userTypes;
  }

  /** The packages of all columns. */
  ghost function ColumnPackages(columns: seq<Column>, trees: map<Column, Type>, udts: set<string>,
                                keyspace: string): set<Package>
    requires forall c :: c in columns ==> c in trees
  {
    set c, p | c in columns && p in Required(Tree(c, trees, udts, keyspace)) :: p
  }

  /** The packages of all fields of user types. */
  ghost function FieldPackages(userTypes: seq<UserDefined>, goals: Trees): set<Package>
    requires forall u :: u in userTypes ==> u.fields in goals
  {
    set u, p | u in userTypes && p in RequiredAll(goals[u.fields]) :: p
  }

  method ColumnImports(columns: seq<Column>, imports: seq<string>, ghost trees: map<Column, Type>,
                       ghost udts: set<string>, ghost keyspace: string, ghost goals: Trees) returns (r: seq<string>)
    requires Rewritten(columns, trees, udts, keyspace, goals) && Distinct(imports)
    ensures Grown(imports, r, ColumnPackages(columns, trees, udts, keyspace))
  {
    r := imports;
    for i := 0 to |columns|
      invariant Grown(imports, r, ColumnPackages(columns[..i], trees, udts, keyspace))
    {
      ghost var before, tree := r, Tree(columns[i], trees, udts, keyspace);
      r := CollectImports(columns[i].typ, r, tree, goals);
      assert columns[..i + 1] == columns[..i] + [columns[i]];
      assert ColumnPackages(columns[..i + 1], trees, udts, keyspace)
          == ColumnPackages(columns[..i], trees, udts, keyspace) + Required(tree);
    }
    assert columns[..|columns|] == columns;
  }

  method FieldImports(userTypes: seq<UserDefined>, imports: seq<string>, ghost goals: Trees) returns (r: seq<string>)
    requires forall u :: u in userTypes ==>
      u.fields in goals && Denotes(GoTuple(u.fields), Tuple(goals[u.fields]), goals)
    requires Distinct(imports)
    ensures Grown(imports, r, FieldPackages(userTypes, goals))
  {
    r := imports;
    for i := 0 to |userTypes|
      invariant Grown(imports, r, FieldPackages(userTypes[..i], goals))
    {
      ghost var before, a := r, userTypes[i].fields;
      r := CollectElems(userTypes[i].fields, r, Tuple(goals[a]), goals);
      assert userTypes[..i + 1] == userTypes[..i] + [userTypes[i]];
      assert FieldPackages(userTypes[..i + 1], goals) == FieldPackages(userTypes[..i], goals) + RequiredAll(goals[a]);
    }
    assert userTypes[..|userTypes|] == userTypes;
  }

  const CQLX := "github.com/moguchev/cqlx"

  /**
   `renderTemplate` up to the template. Columns may be shared between tables and views, and
   tuple arrays between any types, and all of them come in any order; the outcome depends on
   the original trees only.
   */
  method Render(columns: seq<Column>, userTypes: seq<UserDefined>, keyspace: string, ghost heap: Trees,
                ghost trees: map<Column, Type>) returns (kept: seq<UserDefined>, imports: seq<string>)
    requires Described(heap) && ColumnsAre(columns, trees, heap)
    requires forall u :: u in userTypes ==> u.fields in heap
    modifies columns, heap.Keys
    ensures var udts := Known(userTypes);
      && Rewritten(columns, trees, udts, keyspace, GoalsOf(heap, udts, keyspace))
      && forall u :: u in kept <==> u in userTypes && Mentioned(columns, trees, udts, u.name)
    ensures var udts := Known(userTypes); var goals := GoalsOf(heap, udts, keyspace);
      Grown(if kept == [] then [] else [CQLX], imports,
            ColumnPackages(columns, trees, udts, keyspace) + FieldPackages(kept, goals))
  {
    ghost var udts := Known(userTypes);
    ghost var goals := GoalsOf(heap, udts, keyspace);
    ghost var done := Resolve(columns, userTypes, keyspace, heap, trees);
    AllDenote(columns, userTypes, trees, udts, keyspace, goals, done);
    kept := Prune(userTypes, columns, trees, udts, keyspace, goals);
    var first := if |kept| != 0 then [CQLX] else [];
    var mid := ColumnImports(columns, first, trees, udts, keyspace, goals);
    imports := FieldImports(kept, mid, goals);
  }

  lemma {:induction false} AllDenote(columns: seq<Column>, userTypes: seq<UserDefined>, trees: map<Column, Type>,
                                     udts: set<string>, keyspace: string, goals: Trees, done: set<array<GoType>>)
    requires Closed(goals, done) && Resolved(columns, |columns|, trees, goals, udts, keyspace, done)
    requires forall u :: u in userTypes ==> u.fields in done
    ensures Rewritten(columns, trees, udts, keyspace, goals)
    ensures forall u :: u in userTypes ==>
      u.fields in goals && Denotes(GoTuple(u.fields), Tuple(goals[u.fields]), goals)
  {
    forall c | c in columns ensures c in trees && Denotes(c.typ, Tree(c, trees, udts, keyspace), goals) {
      var i :| 0 <= i < |columns| && columns[i] == c;
      FinishedDenotes(c.typ, Tree(c, trees, udts, keyspace), goals, done);
    }
    forall u | u in userTypes ensures Denotes(GoTuple(u.fields), Tuple(goals[u.fields]), goals) {
      FinishedDenotes(GoTuple(u.fields), Tuple(goals[u.fields]), goals, done);
    }
  }

  // ---- what pruning leaves ----

  /** Every name that resolution put into a column is the name of a user type that remains. */
  lemma {:induction false} IntroducedNamesRemain(columns: seq<Column>, userTypes: seq<UserDefined>,
                                                 kept: seq<UserDefined>, trees: map<Column, Type>, keyspace: string,
                                                 c: Column, name: string)
    requires c in columns && forall d :: d in columns ==> d in trees
    requires forall u :: u in kept <==> u in userTypes && Mentioned(columns, trees, Known(userTypes), u.name)
    requires UsesName(Tree(c, trees, Known(userTypes), keyspace), name) && !UsesName(trees[c], name)
    ensures exists u :: u in kept && u.name == name
  {
    var udts := Known(userTypes);
    RewriteUses(trees[c], udts, keyspace, name);
    MentionedNotUsed(trees[c], name, udts);
    var u :| u in userTypes && u.name == name;
    assert u in kept;
  }

  lemma {:induction false} MentionedNotUsed(t: Type, name: string, udts: set<string>)
    requires Mentions(t, name, udts) && !UsesName(t, name)
    ensures name in udts
  {
    match t
    case ListOf(_, elem) => MentionedNotUsed(elem, name, udts);
    case MapOf(key, elem) =>
      if Mentions(key, name, udts) {
        MentionedNotUsed(key, name, udts);
      } else {
        MentionedNotUsed(elem, name, udts);
      }
    case Tuple(elems) =>
      var i :| 0 <= i < |elems| && Mentions(elems[i], name, udts);
      MentionedNotUsed(elems[i], name, udts);
    case _ =>
  }

  /** Before resolution, some of the field types mentions the user type `name`. */
  predicate FieldsMention(fields: seq<Type>, name: string, udts: set<string>) {
    exists t :: t in fields && Mentions(t, name, udts)
  }

  /** After resolution, some of the field types uses it. */
  predicate FieldsUse(fields: seq<Type>, name: string) {
    exists t :: t in fields && UsesName(t, name)
  }

  /**
   The fields of the remaining user types use only user types that remain if and only if,
   before the run, every known user type that a field of a mentioned one mentions is itself
   mentioned by some column.
   */
  lemma {:induction false} FieldTypesRemain(columns: seq<Column>, userTypes: seq<UserDefined>, kept: seq<UserDefined>,
                                            trees: map<Column, Type>, heap: Trees, keyspace: string)
    requires (forall c :: c in columns ==> c in trees) && forall u :: u in userTypes ==> u.fields in heap
    requires forall u :: u in kept <==> u in userTypes && Mentioned(columns, trees, Known(userTypes), u.name)
    ensures var udts := Known(userTypes); var goals := GoalsOf(heap, udts, keyspace);
      && (forall u :: u in kept ==> u.fields in goals)
      && ((forall u, v :: u in kept && v in userTypes && FieldsUse(goals[u.fields], v.name) ==> v in kept)
          <==>
          (forall u, v :: u in userTypes && v in userTypes && FieldsMention(heap[u.fields], v.name, udts) ==>
             Mentioned(columns, trees, udts, u.name) ==> Mentioned(columns, trees, udts, v.name)))
  {
    hide Mentioned, FieldsUse, FieldsMention;
    var udts := Known(userTypes);
    forall u, v | u in userTypes && v in userTypes
      ensures FieldsUse(GoalsOf(heap, udts, keyspace)[u.fields], v.name) <==>
        FieldsMention(heap[u.fields], v.name, udts)
    {
      FieldsUseMentioned(heap[u.fields], udts, keyspace, v.name);
    }
  }

  lemma {:induction false} FieldsUseMentioned(fields: seq<Type>, udts: set<string>, keyspace: string, name: string)
    ensures FieldsUse(RewriteAll(fields, udts, keyspace), name) <==> FieldsMention(fields, name, udts)
  {
    forall i | 0 <= i < |fields|
      ensures UsesName(RewriteAll(fields, udts, keyspace)[i], name) <==> Mentions(fields[i], name, udts)
    {
      RewriteUses(fields[i], udts, keyspace, name);
    }
  }

  /**
   Where it fails: one column of type `frozen<a>`, and a field of `a` of type `b`, both known.
   `b` is dropped, though the struct printed for `a` names it.
   */
  lemma {:induction false} FieldTypeDropped(c: Column, a: UserDefined, b: UserDefined, kept: seq<UserDefined>,
                                            trees: map<Column, Type>, heap: Trees, keyspace: string)
    requires c in trees && trees[c] == Opaque("frozen<a>")
    requires a.name == "a" && b.name == "b" && a.fields in heap && heap[a.fields] == [Opaque("b")]
    requires forall u :: u in kept <==> u in [a, b] && Mentioned([c], trees, Known([a, b]), u.name)
    ensures a in kept && b !in kept && a.fields in GoalsOf(heap, Known([a, b]), keyspace)
    ensures FieldsUse(GoalsOf(heap, Known([a, b]), keyspace)[a.fields], "b")
  {
    var udts := Known([a, b]);
    assert a in [a, b] && b in [a, b];
    assert Trim("frozen<a>") == "frozen<a>" && Unfrozen("frozen<a>") == "a" && Trim("a") == "a" && Trim("b") == "b";
    assert Stripped("frozen<a>") == "a" && Stripped("b") == "b";
    assert Mentions(heap[a.fields][0], "b", udts) && heap[a.fields][0] in heap[a.fields];
    FieldsUseMentioned(heap[a.fields], udts, keyspace, "b");
    assert c in [c] && Mentions(trees[c], "a", udts);
  }

  /** The text printed for some column says the package word. */
  ghost predicate ColumnSays(columns: seq<Column>, trees: map<Column, Type>, udts: set<string>, keyspace: string,
                             p: Package)
    requires forall c :: c in columns ==> c in trees && Printable(Tree(c, trees, udts, keyspace))
  {
    exists c :: c in columns && Qualifies(GoText(Tree(c, trees, udts, keyspace)), p)
  }

  /** The text printed for some field says it. */
  ghost predicate FieldSays(userTypes: seq<UserDefined>, goals: Trees, p: Package)
    requires forall u :: u in userTypes ==> u.fields in goals && forall t :: t in goals[u.fields] ==> Printable(t)
  {
    exists u, t :: u in userTypes && t in goals[u.fields] && Qualifies(GoText(t), p)
  }

  /**
   A package is imported exactly if the text printed for some column or for some field of a
   remaining user type says its word.
   */
  lemma {:induction false} ImportsAreExact(columns: seq<Column>, kept: seq<UserDefined>, imports: seq<string>,
                                           trees: map<Column, Type>, udts: set<string>, keyspace: string, goals: Trees,
                                           p: Package)
    requires forall c :: c in columns ==> c in trees && Printable(Tree(c, trees, udts, keyspace))
    requires forall u :: u in kept ==> u.fields in goals && forall t :: t in goals[u.fields] ==> Printable(t)
    requires Grown(if kept == [] then [] else [CQLX], imports,
                   ColumnPackages(columns, trees, udts, keyspace) + FieldPackages(kept, goals))
    ensures
      (if p == TimePackage then "time"
       else if p == InfPackage then "gopkg.in/inf.v0"
       else "github.com/apache/cassandra-gocql-driver/v2") in imports <==>
      ColumnSays(columns, trees, udts, keyspace, p) || FieldSays(kept, goals, p)
    ensures "github.com/moguchev/cqlx" in imports <==> kept != []
  {
    NotAPackage(ColumnPackages(columns, trees, udts, keyspace) + FieldPackages(kept, goals));
    var ps := ColumnPackages(columns, trees, udts, keyspace) + FieldPackages(kept, goals);
    PathIn(p, ps);
    forall c | c in columns
      ensures p in Required(Tree(c, trees, udts, keyspace)) <==> Qualifies(GoText(Tree(c, trees, udts, keyspace)), p)
    {
      TextNeedsImports(Tree(c, trees, udts, keyspace));
    }
    forall u | u in kept
      ensures p in RequiredAll(goals[u.fields]) <==> exists t :: t in goals[u.fields] && Qualifies(GoText(t), p)
    {
      RequiredBySome(goals[u.fields], p);
    }
  }

  lemma {:induction false} PathIn(p: Package, ps: set<Package>)
    ensures p.Path() in Paths(ps) <==> p in ps
    ensures p.Path() != CQLX
  {
    if p.Path() in Paths(ps) {
      var q :| q in ps && q.Path() == p.Path();
      assert |q.Path()| == |p.Path()|;
    }
  }

  lemma {:induction false} NotAPackage(ps: set<Package>)
    ensures CQLX == "github.com/moguchev/cqlx" && CQLX !in Paths(ps)
  {
    forall q | q in ps ensures q.Path() != CQLX {
      PathIn(q, ps);
    }
  }

  lemma {:induction false} RequiredBySome(ts: seq<Type>, p: Package)
    requires forall t :: t in ts ==> Printable(t)
    ensures p in RequiredAll(ts) <==> exists t :: t in ts && Qualifies(GoText(t), p)
  {
    hide Qualifies, GoText, Required, Printable;
    if ts != [] {
      var n := |ts| - 1;
      RequiredBySome(ts[..n], p);
      TextSays(ts[n], p);
      assert ts == ts[..n] + [ts[n]];
    }
  }

  lemma {:induction false} TextSays(t: Type, p: Package)
    requires Printable(t)
    ensures p in Required(t) <==> Qualifies(GoText(t), p)
  {
    TextNeedsImports(t);
  }
}
