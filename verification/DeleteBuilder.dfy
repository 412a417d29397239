/** qb/delete.go. Its comparators are always appended to slices of its own, so they are plain lists. */
module DeleteBuilders {
  import opened Docs
  import opened Buffers
  import opened Values
  import opened Comparators
  import opened Using
  import opened Statements
  import opened Slices
  import opened StatementWriters
  import Compilation
  import Shape

  class DeleteBuilder {
    var table: string
    var columns: seq<string>
    var whr: seq<Cmp>
    var cond: seq<Cmp>
    var existing: bool
    const using: UsingClause

    function State(): (s: Statement)
      reads this, using
      ensures s.Delete? && s.table == table && s.columns == columns && s.whr == whr && s.cond == cond
      ensures s.existing == existing && s.using == using.State()
    {
      Delete(table, columns, whr, cond, existing, using.State())
    }

    constructor (table: string)
      ensures fresh(using) && State() == Delete(table, [], [], [], false, UNSET)
    {
      this.table := table;
      columns, whr, cond, existing := [], [], [], false;
      using := new UsingClause();
    }

    method Columns(cols: seq<string>)
      modifies this`columns
      ensures columns == old(columns) + cols
    {
      columns := columns + cols;
    }

    method Where(w: Slice<Cmp>)
      requires w.Valid()
      modifies this`whr
      ensures whr == old(whr) + w.View()
    {
      whr := whr + w.View();
    }

    method If(w: Slice<Cmp>)
      requires w.Valid()
      modifies this`cond
      ensures cond == old(cond) + w.View()
    {
      cond := cond + w.View();
    }

    /** Everything before the USING clause. */
    method WriteHead(cql: Buffer)
      requires cql.Valid() && cql.doc == Empty
      modifies cql
      ensures cql.Valid() && cql.doc == Compilation.UsingAt(State())
    {
      cql.WriteString("DELETE ");
      if |columns| > 0 {
        WriteColumns(columns, cql);
        cql.WriteByte(' ');
      }
      cql.WriteString("FROM ");
      cql.WriteString(table);
      cql.WriteByte(' ');
    }

    method Write(cql: Buffer, ghost s: Statement) returns (names: seq<string>)
      requires cql.Valid() && cql.doc == Empty && s == State()
      modifies using`ttl, cql
      ensures cql.Valid() && cql.doc == Document(s)
      ensures names == Shape.StatementNames(s)
      ensures using.State() == Written(s.using)
    {
      hide PutUsing, UsingNames, Document, Compilation.Rest, Compilation.UsingAt, Shape.StatementNames, Doc.Stmt,
           CmpsNames, Written;
      Compilation.AroundUsing(s);
      Compilation.RestOfDelete(s);
      Compilation.NamesAroundUsing(s);
      WriteHead(cql);
      names := using.WriteCql(cql);
      var ns := WriteConditions(whr, cond, existing, cql);
      names := names + ns;
    }

    /** The statement tree, written through the two channels. */
    method ToCql() returns (stmt: string, names: seq<string>)
      modifies using`ttl
      ensures State() == Compilation.After(old(State()))
      ensures stmt == Compilation.Stmt(old(State())) && names == Compilation.Names(old(State()))
    {
      ghost var s := State();
      Compilation.NamesInClauseOrder(s);
      var cql := new Buffer();
      names := Write(cql, s);
      stmt := cql.text;
    }
  }
}
