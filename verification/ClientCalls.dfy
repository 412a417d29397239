/**
 What the calls of a client mean, part by part: which statement is asked for or built on, which
 part of a builder's statement a call extends, and which calls a list of calls consists of.
 */
module ClientCalls {
  import Values
  import opened Using
  import opened Statements
  import opened Slices
  import opened Tables
  import opened TableTexts
  import opened Meaning
  import opened Clients
  import Compilation

  /** The statement `s` asks for the primary or for the partition key, by text and names. */
  ghost predicate IsSelect(s: Statement, m: Metadata, columns: seq<string>, keys: seq<string>) {
    && Compilation.Stmt(s) == "SELECT " + ColumnsText(columns) + " FROM " + m.name + " " + KeysText(keys)
    && Compilation.Names(s) == keys
  }

  ghost predicate IsInsert(s: Statement, m: Metadata) {
    && Compilation.Stmt(s) ==
       "INSERT INTO " + m.name + " (" + Joined(m.columns, ",") + ") VALUES ("
       + Joined(MarkTexts(|m.columns|), ",") + ") "
    && Compilation.Names(s) == m.columns
  }

  ghost predicate IsUpdate(s: Statement, m: Metadata, columns: seq<string>) {
    && Compilation.Stmt(s) ==
       "UPDATE " + m.name + " SET " + Joined(SetTexts(columns), ",") + " " + KeysText(m.partKey + m.sortKey)
    && Compilation.Names(s) == columns + m.partKey + m.sortKey
  }

  ghost predicate IsDelete(s: Statement, m: Metadata, columns: seq<string>) {
    && Compilation.Stmt(s) ==
       "DELETE " + (if columns == [] then "" else Joined(columns, ",") + " ") + "FROM " + m.name + " "
       + KeysText(m.partKey + m.sortKey)
    && Compilation.Names(s) == m.partKey + m.sortKey
  }

  lemma {:induction false} TableStatements(m: Metadata, columns: seq<string>)
    ensures IsSelect(SelectBy(m, columns, m.PrimaryKey()), m, columns, m.partKey + m.sortKey)
    ensures IsSelect(SelectBy(m, columns, m.partKey), m, columns, m.partKey)
    ensures IsInsert(InsertAll(m), m)
    ensures IsUpdate(UpdateBy(m, columns), m, columns)
    ensures IsDelete(DeleteBy(m, columns), m, columns)
  {
    hide Compilation.Stmt, Compilation.Names, SelectBy, InsertAll, UpdateBy, DeleteBy, KeysText, ColumnsText, Joined;
    TableNames(m, columns);
    SelectText(m, columns, m.partKey + m.sortKey);
    SelectText(m, columns, m.partKey);
    InsertText(m);
    UpdateText(m, columns);
    DeleteText(m, columns);
  }

  /** What the table answers to each question. */
  lemma {:induction false} AnswerMeans(m: Metadata, q: Question<Slice<string>>)
    requires WellFormed(Ask(q))
    ensures var s := Answer(m, Value(Ask(q)).question);
      && (q.GetOf? ==> IsSelect(s, m, q.columns.View(), m.partKey + m.sortKey))
      && (q.SelectOf? ==> IsSelect(s, m, q.columns.View(), m.partKey))
      && (q.InsertOf? ==> IsInsert(s, m))
      && (q.UpdateOf? ==> IsUpdate(s, m, q.columns.View()))
      && (q.DeleteOf? ==> IsDelete(s, m, q.columns.View()))
  {
    hide IsSelect, IsInsert, IsUpdate, IsDelete, SelectBy, InsertAll, UpdateBy, DeleteBy;
    TableStatements(m, if q.InsertOf? then [] else q.columns.View());
  }

  /** What the builder that a call takes starts with. */
  lemma {:induction false} TakenMeans(m: Metadata, c: SliceCall)
    requires c.Takes() && WellFormed(c)
    ensures Value(c).Takes()
    ensures var s := Taken(m, Value(c));
      && (c.TakeGet? ==> IsSelect(s, m, c.columns.View(), m.partKey + m.sortKey))
      && (c.TakeSelect? ==> IsSelect(s, m, c.columns.View(), m.partKey))
      && (c.TakeInsert? ==> IsInsert(s, m))
      && (c.TakeUpdate? ==> IsUpdate(s, m, c.columns.View()))
      && (c.TakeDelete? ==> IsDelete(s, m, c.columns.View()))
  {
    hide IsSelect, IsInsert, IsUpdate, IsDelete, SelectBy, InsertAll, UpdateBy, DeleteBy;
    TableStatements(m, if c.TakeInsert? then [] else c.columns.View());
  }

  /** The clause after a call: a setter changes it, and so does writing it. */
  function UsingAfter(c: SliceCall, u: UsingState): UsingState {
    if c.Use? && !c.setter.Write? then Apply(u, c.setter) else if c.ToCql? then Written(u) else u
  }

  /** A select after any call: each call extends one part and leaves the others. */
  lemma {:induction false} SelectChanges(s: Statement, c: SliceCall)
    requires s.Select? && c.Changes() && WellFormed(c)
    ensures Value(c).Changes()
    ensures var r := Changed(s, Value(c));
      && r.Select? && r.table == s.table && r.json == s.json
      && r.distinct == (if !c.Distinct? then s.distinct
                        else if s.whr == [] then c.more.View() else s.distinct + c.more.View())
      && r.groupBy == s.groupBy + (if c.GroupBy? then c.more.View() else [])
      && r.columns == s.columns + (if c.Add? then c.more.View() else [])
      && r.whr == s.whr + (if c.Where? then c.w.View() else [])
      && r.orderBy == s.orderBy + (if c.OrderBy? then [c.column + if c.ascending then " ASC" else " DESC"] else [])
      && r.limitPerPartition == s.limitPerPartition && r.limit == s.limit
      && r.allowFiltering == s.allowFiltering && r.bypassCache == s.bypassCache
      && r.using == UsingAfter(c, s.using)
  {
    hide Apply, Written, Slice.View;
    assert c.OrderBy? ==> c.column + " " + "ASC" == c.column + " ASC" && c.column + " " + "DESC" == c.column + " DESC";
  }

  lemma {:induction false} UpdateChanges(s: Statement, c: SliceCall)
    requires s.Update? && c.Changes() && WellFormed(c)
    ensures Value(c).Changes()
    ensures var r := Changed(s, Value(c)); var n := |s.assignments|;
      && r.Update? && r.table == s.table
      && |r.assignments| == n + (if c.Add? then c.more.len else 0) && r.assignments[..n] == s.assignments
      && (c.Add? ==> forall i :: 0 <= i < c.more.len ==>
            r.assignments[n + i] == Assignment(c.more.View()[i], Values.Param(c.more.View()[i]), ""))
      && r.whr == s.whr + (if c.Where? then c.w.View() else [])
      && r.cond == s.cond + (if c.If? then c.w.View() else [])
      && r.existing == s.existing && r.allowFiltering == s.allowFiltering
      && r.using == UsingAfter(c, s.using)
  {
    hide Apply, Written;
    if c.Add? {
      UpdateBuilders.OwnAssignmentsAre(c.more.View());
    }
  }

  lemma {:induction false} InsertChanges(s: Statement, c: SliceCall)
    requires s.Insert? && c.Changes() && WellFormed(c)
    ensures Value(c).Changes()
    ensures var r := Changed(s, Value(c)); var n := |s.inits|;
      && r.Insert? && r.table == s.table && r.unique == s.unique && r.json == s.json
      && |r.inits| == n + (if c.Add? then c.more.len else 0) && r.inits[..n] == s.inits
      && (c.Add? ==> forall i :: 0 <= i < c.more.len ==>
            r.inits[n + i] == Initializer(c.more.View()[i], Values.Param(c.more.View()[i])))
      && (!(s.json && c.ToCql?) ==> r.using == UsingAfter(c, s.using))
      && (s.json && c.ToCql? ==> r.using == s.using)
  {
    hide Apply, Written;
    if c.Add? {
      InsertBuilders.OwnParametersAre(c.more.View());
    }
  }

  lemma {:induction false} DeleteChanges(s: Statement, c: SliceCall)
    requires s.Delete? && c.Changes() && WellFormed(c)
    ensures Value(c).Changes()
    ensures var r := Changed(s, Value(c));
      && r.Delete? && r.table == s.table && r.existing == s.existing
      && r.columns == s.columns + (if c.Add? then c.more.View() else [])
      && r.whr == s.whr + (if c.Where? then c.w.View() else [])
      && r.cond == s.cond + (if c.If? then c.w.View() else [])
      && r.using == UsingAfter(c, s.using)
  {
    hide Apply, Written, Slice.View;
  }

  /** One call of a list: a taken builder comes last, any other call changes one builder or says something. */
  lemma {:induction false} OneCall(m: Metadata, calls: seq<ValueCall>, n: nat)
    requires n < |calls|
    ensures var c, before, after := calls[n], Run(m, calls[..n]), Run(m, calls[..n + 1]);
      if c.TakeGet? || c.TakeSelect? || c.TakeInsert? || c.TakeUpdate? || c.TakeDelete? then
        after == before + [Taken(m, c)]
      else
        && |after| == |before|
        && forall i :: 0 <= i < |before| ==>
             after[i] == if !c.Ask? && i == c.k then Changed(before[i], c) else before[i]
    ensures var c, before := calls[n], Run(m, calls[..n]);
      Returned(m, calls[..n + 1]) ==
        Returned(m, calls[..n]) +
        if c.Ask? then [Tables.ToCql(Answer(m, c.question))]
        else if c.ToCql? && c.k < |before| then [Tables.ToCql(before[c.k])]
        else []
    ensures Run(m, []) == [] && Returned(m, []) == []
  {
    hide Taken, Changed, Answer, Tables.ToCql;
    assert calls[..n + 1][..n] == calls[..n];
  }
}
