/**
 qb/batch.go. A batch keeps the texts and the prefixed names of its statements in two flat
 lists; `Holds` ties the lists to the trees the statements were built from.
 */
module BatchBuilders {
  import opened Text
  import opened Templates
  import opened Docs
  import opened Buffers
  import opened Using
  import opened Statements
  import opened StatementWriters
  import opened Builders
  import Compilation
  import Shape

  /** Texts written as they are, each closed by a semicolon. */
  function PutTexts(d: Doc, stmts: seq<string>): Doc {
    if stmts == [] then d
    else Put(Put(Put(PutTexts(d, stmts[..|stmts| - 1]), stmts[|stmts| - 1]), ";"), " ")
  }

  function PutBatchHead(d: Doc, unlogged: bool, counter: bool, using: UsingState): Doc {
    PutUsing(Put(PutIf(PutIf(Put(d, "BEGIN "), unlogged, "UNLOGGED "), counter, "COUNTER "), "BATCH "), using)
  }

  function PutTextBatch(d: Doc, unlogged: bool, counter: bool, stmts: seq<string>, using: UsingState): Doc {
    Put(PutTexts(PutBatchHead(d, unlogged, counter, using), stmts), "APPLY BATCH ")
  }

  function Texts(children: seq<Child>): (texts: seq<string>)
    ensures |texts| == |children|
  {
    if children == [] then []
    else Texts(children[..|children| - 1]) + [Compilation.Stmt(children[|children| - 1].stmt)]
  }

  class BatchBuilder {
    var stmts: seq<string>
    var names: seq<string>
    var unlogged: bool
    var counter: bool
    const using: UsingClause

    /** The two lists are what the statements `children` compile to, one after the other. */
    ghost predicate Holds(children: seq<Child>)
      reads this
    {
      stmts == Texts(children) && names == Shape.ChildrenNames(children)
    }

    /** The batch as a tree over the statements it holds. */
    function State(children: seq<Child>): (s: Statement)
      reads this, using
      ensures s.Batch? && s.children == children
    {
      Batch(unlogged, counter, children, using.State())
    }

    constructor ()
      ensures fresh(using) && Holds([]) && State([]) == Batch(false, false, [], UNSET)
    {
      stmts, names, unlogged, counter := [], [], false, false;
      using := new UsingClause();
    }

    /** An UNLOGGED batch. */
    method UnLogged()
      modifies this`unlogged
      ensures old(State([])).Batch? && State([]) == old(State([])).(unlogged := true)
    {
      unlogged := true;
    }

    /** A COUNTER batch. */
    method Counter()
      modifies this`counter
      ensures old(State([])).Batch? && State([]) == old(State([])).(counter := true)
    {
      counter := true;
    }

    method AddStmt(stmt: string, ns: seq<string>)
      modifies this`stmts, this`names
      ensures stmts == old(stmts) + [stmt] && names == old(names) + ns
    {
      stmts := stmts + [stmt];
      names := names + ns;
    }

    method AddStmtWithPrefix(prefix: string, stmt: string, ns: seq<string>)
      modifies this`stmts, this`names
      ensures stmts == old(stmts) + [stmt] && names == old(names) + Prefixed(prefix, ns)
      ensures |names| == |old(names)| + |ns| && forall i :: 0 <= i < |ns| ==>
        names[|old(names)| + i] == if prefix == "" then ns[i] else prefix + "." + ns[i]
    {
      stmts := stmts + [stmt];
      for i := 0 to |ns|
        invariant stmts == old(stmts) + [stmt]
        invariant names == old(names) + Prefixed(prefix, ns[..i])
      {
        assert ns[..i + 1][..i] == ns[..i];
        var name := ns[i];
        if prefix != "" {
          name := prefix + "." + name;
        }
        names := names + [name];
      }
      assert ns[..|ns|] == ns;
      PrefixedNames(prefix, ns);
    }

    /** The texts and names held, between the batch keywords. */
    method ToCql() returns (stmt: string, ns: seq<string>)
      modifies using`ttl
      ensures using.State() == Written(old(using.State()))
      ensures stmt == PutTextBatch(Empty, unlogged, counter, stmts, old(using.State())).Stmt()
      ensures ns == UsingNames(old(using.State())) + names
    {
      var cql := new Buffer();
      cql.WriteString("BEGIN ");
      WriteFlag(unlogged, "UNLOGGED ", cql);
      WriteFlag(counter, "COUNTER ", cql);
      cql.WriteString("BATCH ");
      ns := using.WriteCql(cql);
      WriteTexts(cql);
      ns := ns + names;
      cql.WriteString("APPLY BATCH ");
      stmt := cql.text;
    }

    /** The builder's tree becomes a child without a prefix. */
    method Add(builder: Builder, ghost children: seq<Child>)
      requires builder.Sliced() && Holds(children)
      modifies this`stmts, this`names, builder.Own()
      ensures Holds(children + [Child("", old(builder.State()))])
      ensures builder.Sliced() && builder.State() == Compilation.After(old(builder.State()))
    {
      hide Texts, Shape.ChildrenNames, Compilation.Stmt, Compilation.Names, Compilation.After, Prefixed,
           Builder.Sliced, Builder.State;
      HoldsMore(children, "", builder.State());
      var stmt, ns := builder.ToCql();
      NoPrefix(ns);
      AddStmt(stmt, ns);
    }

    /** The same for `Add` of a batch. */
    method AddBatch(inner: BatchBuilder, ghost innerChildren: seq<Child>, ghost children: seq<Child>)
      requires inner.Holds(innerChildren) && Holds(children)
      modifies this`stmts, this`names, inner.using`ttl
      ensures Holds(children + [Child("", old(inner.State(innerChildren)))])
      ensures inner.using.State() == Written(old(inner.using.State()))
      ensures inner != this ==> inner.Holds(innerChildren)
    {
      hide Texts, Shape.ChildrenNames, Compilation.Stmt, Compilation.Names, Prefixed, PutTextBatch, UsingNames,
           Doc.Stmt;
      HoldsMore(children, "", inner.State(innerChildren));
      FlatBatchIsTree(inner.unlogged, inner.counter, innerChildren, inner.using.State());
      var stmt, ns := inner.ToCql();
      NoPrefix(ns);
      AddStmt(stmt, ns);
    }

    /** The same under a prefix. */
    method AddWithPrefix(prefix: string, builder: Builder, ghost children: seq<Child>)
      requires builder.Sliced() && Holds(children)
      modifies this`stmts, this`names, builder.Own()
      ensures Holds(children + [Child(prefix, old(builder.State()))])
      ensures builder.Sliced() && builder.State() == Compilation.After(old(builder.State()))
    {
      hide Texts, Shape.ChildrenNames, Compilation.Stmt, Compilation.Names, Compilation.After, Prefixed,
           Builder.Sliced, Builder.State;
      HoldsMore(children, prefix, builder.State());
      var stmt, ns := builder.ToCql();
      AddStmtWithPrefix(prefix, stmt, ns);
    }

    /** The same for a batch in a batch, which may even be the same batch as it was before. */
    method AddBatchWithPrefix(prefix: string, inner: BatchBuilder, ghost innerChildren: seq<Child>,
                              ghost children: seq<Child>)
      requires inner.Holds(innerChildren) && Holds(children)
      modifies this`stmts, this`names, inner.using`ttl
      ensures Holds(children + [Child(prefix, old(inner.State(innerChildren)))])
      ensures inner.using.State() == Written(old(inner.using.State()))
      ensures inner != this ==> inner.Holds(innerChildren)
    {
      hide Texts, Shape.ChildrenNames, Compilation.Stmt, Compilation.Names, Prefixed, PutTextBatch, UsingNames,
           Doc.Stmt;
      HoldsMore(children, prefix, inner.State(innerChildren));
      FlatBatchIsTree(inner.unlogged, inner.counter, innerChildren, inner.using.State());
      var stmt, ns := inner.ToCql();
      AddStmtWithPrefix(prefix, stmt, ns);
    }

    method WriteTexts(cql: Buffer)
      requires cql.Valid()
      modifies cql
      ensures cql.Valid() && cql.doc == PutTexts(old(cql.doc), stmts)
    {
      for i := 0 to |stmts|
        invariant cql.Valid() && cql.doc == PutTexts(old(cql.doc), stmts[..i])
      {
        assert stmts[..i + 1][..i] == stmts[..i];
        cql.WriteString(stmts[i]);
        cql.WriteByte(';');
        cql.WriteByte(' ');
      }
      assert stmts[..|stmts|] == stmts;
    }
  }

  // ---- texts of the caller's own ----

  /** The `?` of all texts. */
  function MarksIn(stmts: seq<string>): nat {
    if stmts == [] then 0 else MarksIn(stmts[..|stmts| - 1]) + Count(stmts[|stmts| - 1], '?')
  }

  /**
   Whatever texts and names were added, the `?` of the batch are as many as its names
   exactly if the added texts together hold as many `?` as there are added names.
   */
  lemma {:induction false} FlatBatchAgreement(unlogged: bool, counter: bool, stmts: seq<string>, names: seq<string>,
                                              using: UsingState)
    ensures Count(PutTextBatch(Empty, unlogged, counter, stmts, using).Stmt(), '?') ==
      |UsingNames(using)| + MarksIn(stmts)
    ensures Count(PutTextBatch(Empty, unlogged, counter, stmts, using).Stmt(), '?') == |UsingNames(using) + names| <==>
      MarksIn(stmts) == |names|
  {
    hide PutTexts, Doc.Stmt;
    MarksInHead(unlogged, counter, using);
    var d := PutBatchHead(Empty, unlogged, counter, using);
    MarksInTexts(d, stmts);
    MarksPut(PutTexts(d, stmts), "APPLY BATCH ");
    CountZero("APPLY BATCH ", '?');
  }

  /** A batch without statements has one `?` for each name of its clause. */
  lemma {:induction false} MarksInHead(unlogged: bool, counter: bool, using: UsingState)
    ensures Count(PutBatchHead(Empty, unlogged, counter, using).Stmt(), '?') == |UsingNames(using)|
  {
    hide UsingNames, PutBatchHead, Document, Shape.ChildrenNames, Doc.Stmt, Doc.Names, Count;
    var d, bare := PutBatchHead(Empty, unlogged, counter, using), Batch(unlogged, counter, [], using);
    FlatBatchIsTree(unlogged, counter, [], using);
    assert PutTextBatch(Empty, unlogged, counter, Texts([]), using) == Put(d, "APPLY BATCH ");
    NoChildren(bare);
    Compilation.PlaceholderAgreement(bare);
    MarksPut(d, "APPLY BATCH ");
    CountZero("APPLY BATCH ", '?');
  }

  lemma {:induction false} NoChildren(s: Statement)
    requires s.Batch? && s.children == []
    ensures Shape.CleanStatement(s) && Shape.ChildrenNames(s.children) == []
    ensures UsingNames(s.using) + [] == UsingNames(s.using)
  {
  }

  lemma {:induction false} MarksPut(d: Doc, s: string)
    ensures Count(Put(d, s).Stmt(), '?') == Count(d.Stmt(), '?') + Count(s, '?')
  {
    CountConcat(d.Stmt(), s, '?');
  }

  lemma {:induction false} MarksInTexts(d: Doc, stmts: seq<string>)
    ensures Count(PutTexts(d, stmts).Stmt(), '?') == Count(d.Stmt(), '?') + MarksIn(stmts)
  {
    if stmts != [] {
      var e, s := PutTexts(d, stmts[..|stmts| - 1]), stmts[|stmts| - 1];
      MarksInTexts(d, stmts[..|stmts| - 1]);
      MarksPut(e, s);
      MarksPut(Put(e, s), ";");
      MarksPut(Put(Put(e, s), ";"), " ");
    }
  }

  /** The arguments of all statements, one after the other. */
  function AllArguments(args: seq<seq<string>>): seq<string> {
    if args == [] then [] else AllArguments(args[..|args| - 1]) + args[|args| - 1]
  }

  /** Every text filled with arguments of its own, and closed by a semicolon. */
  function FilledTexts(stmts: seq<string>, args: seq<seq<string>>): string
    requires |args| == |stmts|
  {
    if stmts == [] then ""
    else
      var n := |stmts| - 1;
      FilledTexts(stmts[..n], args[..n]) + Fill(stmts[n], args[n]) + "; "
  }

  /**
   Positional binding of a batch gives every added text exactly the arguments of its own
   names, if each of them has as many names as `?`.
   */
  lemma {:induction false} FlatBatchFills(unlogged: bool, counter: bool, stmts: seq<string>, using: UsingState,
                                          first: seq<string>, args: seq<seq<string>>)
    requires |first| == |UsingNames(using)|
    requires |args| == |stmts| && forall i :: 0 <= i < |stmts| ==> Count(stmts[i], '?') == |args[i]|
    ensures Fill(PutTextBatch(Empty, unlogged, counter, stmts, using).Stmt(), first + AllArguments(args)) ==
      Fill(PutBatchHead(Empty, unlogged, counter, using).Stmt(), first) + FilledTexts(stmts, args) + "APPLY BATCH "
  {
    hide PutTexts, Fill, UsingNames, FilledTexts;
    MarksInHead(unlogged, counter, using);
    var d := PutBatchHead(Empty, unlogged, counter, using);
    TextsFill(d, stmts, first, args);
    FillPut(PutTexts(d, stmts), "APPLY BATCH ", first + AllArguments(args), []);
    FillNothing("APPLY BATCH ");
    assert first + AllArguments(args) + [] == first + AllArguments(args);
  }

  lemma {:induction false} FillPut(d: Doc, s: string, xs: seq<string>, ys: seq<string>)
    requires Count(d.Stmt(), '?') == |xs|
    ensures Fill(Put(d, s).Stmt(), xs + ys) == Fill(d.Stmt(), xs) + Fill(s, ys)
  {
    FillConcat(d.Stmt(), s, xs, ys);
  }

  lemma {:induction false} TextsFill(d: Doc, stmts: seq<string>, first: seq<string>, args: seq<seq<string>>)
    requires Count(d.Stmt(), '?') == |first|
    requires |args| == |stmts| && forall i :: 0 <= i < |stmts| ==> Count(stmts[i], '?') == |args[i]|
    ensures Count(PutTexts(d, stmts).Stmt(), '?') == |first + AllArguments(args)|
    ensures Fill(PutTexts(d, stmts).Stmt(), first + AllArguments(args)) ==
      Fill(d.Stmt(), first) + FilledTexts(stmts, args)
  {
    hide Fill, Doc.Stmt;
    if stmts == [] {
      assert first + [] == first;
    } else {
      var n := |stmts| - 1;
      TextsFill(d, stmts[..n], first, args[..n]);
      var e, xs := PutTexts(d, stmts[..n]), first + AllArguments(args[..n]);
      assert xs + args[n] == first + AllArguments(args);
      MarksPut(e, stmts[n]);
      FillPut(e, stmts[n], xs, args[n]);
      FillEnding(Put(e, stmts[n]), first + AllArguments(args));
    }
  }

  lemma {:induction false} FillEnding(d: Doc, xs: seq<string>)
    requires Count(d.Stmt(), '?') == |xs|
    ensures Count(Put(Put(d, ";"), " ").Stmt(), '?') == |xs|
    ensures Fill(Put(Put(d, ";"), " ").Stmt(), xs) == Fill(d.Stmt(), xs) + "; "
  {
    MarksPut(d, ";");
    MarksPut(Put(d, ";"), " ");
    FillPut(d, ";", xs, []);
    FillPut(Put(d, ";"), " ", xs, []);
    FillNothing(";");
    FillNothing(" ");
    assert xs + [] == xs;
  }

  // ---- the flat lists against the tree ----

  /** Adding what a statement compiles to adds the statement as a child, its names prefixed. */
  lemma {:induction false} HoldsMore(children: seq<Child>, prefix: string, s: Statement)
    ensures Texts(children + [Child(prefix, s)]) == Texts(children) + [Compilation.Stmt(s)]
    ensures Shape.ChildrenNames(children + [Child(prefix, s)]) ==
      Shape.ChildrenNames(children) + Prefixed(prefix, Compilation.Names(s))
  {
    var more := children + [Child(prefix, s)];
    assert more[..|more| - 1] == children;
    Compilation.NamesInClauseOrder(s);
  }

  /** Without a prefix the names stay as they are. */
  lemma {:induction false} NoPrefix(names: seq<string>)
    ensures Prefixed("", names) == names
  {
    if names != [] {
      NoPrefix(names[..|names| - 1]);
    }
  }

  /**
   What `ToCql` of a batch returns from its flat lists is what the tree over the statements
   it holds compiles to.
   */
  lemma {:induction false} FlatBatchIsTree(unlogged: bool, counter: bool, children: seq<Child>, using: UsingState)
    ensures var s := Batch(unlogged, counter, children, using);
      && PutTextBatch(Empty, unlogged, counter, Texts(children), using).Stmt() == Compilation.Stmt(s)
      && UsingNames(using) + Shape.ChildrenNames(children) == Compilation.Names(s)
  {
    var s := Batch(unlogged, counter, children, using);
    var d := PutUsing(Compilation.UsingAt(s), using);
    Compilation.NamesInClauseOrder(s);
    Compilation.AroundUsing(s);
    TextsAreChildren(d, children);
  }

  lemma {:induction false} TextsAreChildren(d: Doc, children: seq<Child>)
    ensures PutTexts(d, Texts(children)).Stmt() == PutChildren(d, children).Stmt()
  {
    if children != [] {
      var n := |children| - 1;
      var c := children[n];
      TextsAreChildren(d, children[..n]);
      LastChild(PutChildren(d, children[..n]), c.prefix, Document(c.stmt));
      SameEnding(Put(PutTexts(d, Texts(children[..n])), Compilation.Stmt(c.stmt)),
             Then(PutChildren(d, children[..n]), Rename(c.prefix, Document(c.stmt))));
    }
  }

  lemma {:induction false} LastChild(d: Doc, prefix: string, e: Doc)
    ensures Then(d, Rename(prefix, e)).Stmt() == d.Stmt() + e.Stmt()
  {
    ThenChannels(d, Rename(prefix, e));
    RenameChannels(prefix, e);
  }

  lemma {:induction false} SameEnding(d: Doc, e: Doc)
    requires d.Stmt() == e.Stmt()
    ensures Put(Put(d, ";"), " ").Stmt() == Put(Put(e, ";"), " ").Stmt()
  {
  }
}
