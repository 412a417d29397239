/**
 The statements of a table model, byte for byte: what a client of one table is told or builds
 on, spelled out from the metadata alone.
 */
module TableTexts {
  import opened Docs
  import opened Values
  import opened Comparators
  import opened Using
  import opened Statements
  import opened InsertBuilders
  import opened UpdateBuilders
  import opened Tables
  import opened Meaning
  import Compilation

  const MARK: Env := _ => "?"

  /** With a mark for every value, the reading of the tree is the statement text. */
  lemma {:induction false} TextOfTree(s: Statement)
    ensures Compilation.Stmt(s) == StatementText(s, MARK)
  {
    hide StatementText, Document;
    StatementSays(s, MARK);
    MarksEverywhere(Document(s));
  }

  lemma {:induction false} MarksEverywhere(d: Doc)
    ensures DocText(d, MARK) == d.Stmt()
  {
    match d
    case Empty =>
    case Snoc(e, _) => MarksEverywhere(e);
  }

  /** `c=?` for each of the columns. */
  function SetTexts(columns: seq<string>): (texts: seq<string>)
    ensures |texts| == |columns|
  {
    seq(|columns|, i requires 0 <= i < |columns| => columns[i] + "=?")
  }

  /** `WHERE k=? AND ...` over the keys, or nothing. */
  function KeysText(keys: seq<string>): string {
    if keys == [] then "" else "WHERE " + Joined(SetTexts(keys), " AND ") + " "
  }

  lemma {:induction false} KeysClause(keys: seq<string>)
    ensures ClauseText("WHERE ", Eqs(keys), MARK) == KeysText(keys)
  {
    EqsTexts(keys, 0);
    assert Eqs(keys)[0..] == Eqs(keys) && SetTexts(keys)[0..] == SetTexts(keys);
  }

  lemma {:induction false} EqsAre(keys: seq<string>)
    ensures forall i :: 0 <= i < |keys| ==> Eqs(keys)[i] == Cmp(Eq, keys[i], Param(keys[i]))
  {
    if keys != [] {
      EqsAre(keys[..|keys| - 1]);
    }
  }

  lemma {:induction false} EqsTexts(keys: seq<string>, from: nat)
    requires from <= |keys|
    ensures CmpTexts(Eqs(keys)[from..], MARK) == SetTexts(keys)[from..]
    decreases |keys| - from
  {
    if from < |keys| {
      EqsAre(keys);
      EqsTexts(keys, from + 1);
      var cs := Eqs(keys)[from..];
      assert cs[1..] == Eqs(keys)[from + 1..];
      assert cs[0].column + OpText(cs[0].op) + ValueText(cs[0].value, MARK) == keys[from] + "=?";
      assert SetTexts(keys)[from..] == [SetTexts(keys)[from]] + SetTexts(keys)[from + 1..];
    }
  }

  /** The columns asked for, or all. */
  function ColumnsText(columns: seq<string>): string {
    if columns == [] then "*" else Joined(columns, ",")
  }

  /** A select by keys. */
  lemma {:induction false} SelectText(m: Metadata, columns: seq<string>, keys: seq<string>)
    ensures Compilation.Stmt(SelectBy(m, columns, keys)) ==
      "SELECT " + ColumnsText(columns) + " FROM " + m.name + " " + KeysText(keys)
  {
    hide Joined, ClauseText, KeysText, UsingText, Eqs, SelectorsText, ColumnsText;
    TextOfTree(SelectBy(m, columns, keys));
    KeysClause(keys);
    NothingUsed();
    PlainSelectors(columns);
  }

  lemma {:induction false} PlainSelectors(columns: seq<string>)
    ensures SelectorsText([], [], columns) == ColumnsText(columns)
  {
  }

  lemma {:induction false} NothingUsed()
    ensures UsingText(UNSET, MARK) == "" && ClauseText("IF ", [], MARK) == ""
  {
  }

  function MarkTexts(n: nat): (texts: seq<string>)
    ensures |texts| == n
  {
    seq(n, _ => "?")
  }

  lemma {:induction false} OwnSetTexts(columns: seq<string>, from: nat)
    requires from <= |columns|
    ensures AssignmentTexts(OwnAssignments(columns)[from..], MARK) == SetTexts(columns)[from..]
    decreases |columns| - from
  {
    OwnAssignmentsAre(columns);
    if from < |columns| {
      OwnSetTexts(columns, from + 1);
      var rest := OwnAssignments(columns)[from..];
      assert rest[1..] == OwnAssignments(columns)[from + 1..];
      assert columns[from] + "=" + "" + "?" == columns[from] + "=?";
      assert SetTexts(columns)[from..] == [SetTexts(columns)[from]] + SetTexts(columns)[from + 1..];
    }
  }

  lemma {:induction false} OwnMarkTexts(columns: seq<string>, from: nat)
    requires from <= |columns|
    ensures InitTexts(OwnParameters(columns)[from..], MARK) == MarkTexts(|columns|)[from..]
    decreases |columns| - from
  {
    OwnParametersAre(columns);
    if from < |columns| {
      OwnMarkTexts(columns, from + 1);
      var rest := OwnParameters(columns)[from..];
      assert rest[1..] == OwnParameters(columns)[from + 1..];
      assert MarkTexts(|columns|)[from..] == [MarkTexts(|columns|)[from]] + MarkTexts(|columns|)[from + 1..];
    }
  }

  /** The insert of all columns. */
  lemma {:induction false} InsertText(m: Metadata)
    ensures Compilation.Stmt(InsertAll(m)) ==
      "INSERT INTO " + m.name + " (" + Joined(m.columns, ",") + ") VALUES ("
      + Joined(MarkTexts(|m.columns|), ",") + ") "
  {
    hide Joined, UsingText;
    TextOfTree(InsertAll(m));
    NothingUsed();
    OwnMarkTexts(m.columns, 0);
    OwnParametersAre(m.columns);
    var inits := OwnParameters(m.columns);
    assert inits[0..] == inits && MarkTexts(|m.columns|)[0..] == MarkTexts(|m.columns|);
    assert ColumnsOf(inits) == m.columns;
  }

  /** An update by primary key. */
  lemma {:induction false} UpdateText(m: Metadata, columns: seq<string>)
    ensures Compilation.Stmt(UpdateBy(m, columns)) ==
      "UPDATE " + m.name + " SET " + Joined(SetTexts(columns), ",") + " " + KeysText(m.partKey + m.sortKey)
  {
    hide Joined, UsingText, ClauseText, KeysText;
    TextOfTree(UpdateBy(m, columns));
    NothingUsed();
    KeysClause(m.partKey + m.sortKey);
    OwnSetTexts(columns, 0);
    assert OwnAssignments(columns)[0..] == OwnAssignments(columns) && SetTexts(columns)[0..] == SetTexts(columns);
  }

  /** A delete by primary key. */
  lemma {:induction false} DeleteText(m: Metadata, columns: seq<string>)
    ensures Compilation.Stmt(DeleteBy(m, columns)) ==
      "DELETE " + (if columns == [] then "" else Joined(columns, ",") + " ") + "FROM " + m.name + " "
      + KeysText(m.partKey + m.sortKey)
  {
    hide Joined, UsingText, ClauseText, KeysText;
    TextOfTree(DeleteBy(m, columns));
    NothingUsed();
    KeysClause(m.partKey + m.sortKey);
    assert "" + (Joined(columns, ",") + " ") == Joined(columns, ",") + " ";
  }
}
