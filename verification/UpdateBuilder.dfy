/** qb/update.go. WHERE and IF comparators are Go slices that may share their arrays with others. */
module UpdateBuilders {
  import opened Docs
  import opened Buffers
  import opened Values
  import opened Comparators
  import opened Using
  import opened Statements
  import opened Slices
  import opened StatementWriters
  import Compilation
  import Shape

  /** `Set` assigns every column a parameter of its own name. */
  function OwnAssignments(cols: seq<string>): (assignments: seq<Assignment>)
    ensures |assignments| == |cols|
  {
    if cols == [] then []
    else OwnAssignments(cols[..|cols| - 1]) + [Assignment(cols[|cols| - 1], Param(cols[|cols| - 1]), "")]
  }

  lemma {:induction false} OwnAssignmentsAre(cols: seq<string>)
    ensures forall i :: 0 <= i < |cols| ==> OwnAssignments(cols)[i] == Assignment(cols[i], Param(cols[i]), "")
  {
    if cols != [] {
      OwnAssignmentsAre(cols[..|cols| - 1]);
    }
  }

  class UpdateBuilder {
    var table: string
    var assignments: seq<Assignment>
    var whr: Slice<Cmp>
    var cond: Slice<Cmp>
    var existing: bool
    var allowFiltering: bool
    const using: UsingClause

    predicate Valid()
      reads this
    {
      whr.Valid() && cond.Valid()
    }

    function State(): (s: Statement)
      requires Valid()
      reads this, using, whr.arr, cond.arr
      ensures s.Update? && s.table == table && s.assignments == assignments && s.whr == whr.View()
      ensures s.cond == cond.View() && s.existing == existing && s.allowFiltering == allowFiltering
      ensures s.using == using.State()
    {
      Update(table, assignments, whr.View(), cond.View(), existing, allowFiltering, using.State())
    }

    constructor (table: string)
      ensures Valid() && fresh(using) && fresh(whr.arr) && whr.Full() && fresh(cond.arr) && cond.Full()
      ensures State() == Update(table, [], [], [], false, false, UNSET)
    {
      this.table := table;
      assignments, existing, allowFiltering := [], false, false;
      var none := MakeEmpty(0);
      whr := none;
      var noCond := MakeEmpty(0);
      cond := noCond;
      using := new UsingClause();
    }

    method Set(cols: seq<string>)
      modifies this`assignments
      ensures assignments == old(assignments) + OwnAssignments(cols)
      ensures |assignments| == |old(assignments)| + |cols| && forall i :: 0 <= i < |cols| ==>
        assignments[|old(assignments)| + i] == Assignment(cols[i], Param(cols[i]), "")
    {
      OwnAssignmentsAre(cols);
      for i := 0 to |cols|
        invariant assignments == old(assignments) + OwnAssignments(cols[..i])
      {
        assert cols[..i + 1][..i] == cols[..i];
        assignments := assignments + [Assignment(cols[i], Param(cols[i]), "")];
      }
      assert cols[..|cols|] == cols;
    }

    /** What `SetNamed`, `SetLit`, `SetFunc` and `SetTuple` do with their value. */
    method SetValue(column: string, value: Value)
      modifies this`assignments
      ensures assignments == old(assignments) + [Assignment(column, value, "")]
    {
      assignments := assignments + [Assignment(column, value, "")];
    }

    method AddValue(column: string, value: Value)
      modifies this`assignments
      ensures assignments == old(assignments) + [Assignment(column, value, column + "+")]
    {
      assignments := assignments + [Assignment(column, value, column + "+")];
    }

    method RemoveValue(column: string, value: Value)
      modifies this`assignments
      ensures assignments == old(assignments) + [Assignment(column, value, column + "-")]
    {
      assignments := assignments + [Assignment(column, value, column + "-")];
    }

    /** Adds comparators to WHERE, sharing arrays as `append` does. */
    method Where(w: Slice<Cmp>)
      requires Valid() && w.Valid()
      modifies this`whr, whr.Spare()
      ensures Valid() && Extended(old(whr), w, whr)
    {
      if whr.len == 0 {
        whr := w;
      } else {
        whr := Append(whr, w);
      }
    }

    /** Adds comparators to IF in the same way. */
    method If(w: Slice<Cmp>)
      requires Valid() && w.Valid()
      modifies this`cond, cond.Spare()
      ensures Valid() && Extended(old(cond), w, cond)
    {
      if cond.len == 0 {
        cond := w;
      } else {
        cond := Append(cond, w);
      }
    }

    method WriteAssignments(cql: Buffer) returns (names: seq<string>)
      requires cql.Valid()
      modifies cql
      ensures cql.Valid() && cql.doc == PutAssignments(old(cql.doc), assignments)
      ensures names == Shape.AssignmentsNames(assignments)
    {
      names := [];
      for i := 0 to |assignments|
        invariant cql.Valid() && PutAssignments(cql.doc, assignments[i..]) == PutAssignments(old(cql.doc), assignments)
        invariant names == Shape.AssignmentsNames(assignments[..i])
      {
        assert assignments[i..][1..] == assignments[i + 1..] && assignments[..i + 1][..i] == assignments[..i];
        var ns := WriteAssignment(assignments[i], cql);
        names := names + ns;
        if i < |assignments| - 1 {
          cql.WriteByte(',');
        }
      }
      assert assignments[..|assignments|] == assignments;
    }

    /** Everything before the USING clause. */
    method WriteHead(cql: Buffer, ghost s: Statement)
      requires cql.Valid() && cql.doc == Empty && s.Update? && s.table == table
      modifies cql
      ensures cql.Valid() && cql.doc == Compilation.UsingAt(s)
    {
      cql.WriteString("UPDATE ");
      cql.WriteString(table);
      cql.WriteByte(' ');
    }

    /** Everything after the USING clause. */
    method WriteRest(cql: Buffer, ghost s: Statement) returns (names: seq<string>)
      requires Valid() && cql.Valid()
      requires s == Update(table, assignments, whr.View(), cond.View(), existing, allowFiltering, s.using)
      modifies cql
      ensures cql.Valid() && cql.doc == Compilation.Rest(old(cql.doc), s)
      ensures names == Shape.AssignmentsNames(s.assignments) + CmpsNames(s.whr) + CmpsNames(s.cond)
    {
      cql.WriteString("SET ");
      names := WriteAssignments(cql);
      cql.WriteByte(' ');
      var ns := WriteConditions(whr.View(), cond.View(), existing, cql);
      names := names + ns;
      WriteFlag(allowFiltering, "ALLOW FILTERING ", cql);
    }

    method Write(cql: Buffer, ghost s: Statement) returns (names: seq<string>)
      requires Valid() && cql.Valid() && cql.doc == Empty && s == State()
      modifies using`ttl, cql
      ensures cql.Valid() && cql.doc == Document(s)
      ensures names == Shape.StatementNames(s)
      ensures using.State() == Written(s.using)
    {
      hide PutUsing, UsingNames, Document, Compilation.Rest, Compilation.UsingAt, Shape.StatementNames, Doc.Stmt,
           CmpsNames, Shape.AssignmentsNames, Written, Slice.View;
      Compilation.AroundUsing(s);
      Compilation.NamesAroundUsing(s);
      WriteHead(cql, s);
      names := using.WriteCql(cql);
      var ns := WriteRest(cql, s);
      names := names + ns;
    }

    /** The statement tree, written through the two channels. */
    method ToCql() returns (stmt: string, names: seq<string>)
      requires Valid()
      modifies using`ttl
      ensures Valid() && State() == Compilation.After(old(State()))
      ensures stmt == Compilation.Stmt(old(State())) && names == Compilation.Names(old(State()))
    {
      ghost var s := State();
      Compilation.NamesInClauseOrder(s);
      var cql := new Buffer();
      names := Write(cql, s);
      stmt := cql.text;
    }
  }

  method WriteAssignment(a: Assignment, cql: Buffer) returns (names: seq<string>)
    requires cql.Valid()
    modifies cql
    ensures cql.Valid() && cql.doc == PutAssignment(old(cql.doc), a)
    ensures names == ValueNames(a.value)
  {
    cql.WriteString(a.column);
    cql.WriteByte('=');
    cql.WriteString(a.valuePrefix);
    names := WriteValue(a.value, cql);
  }
}
