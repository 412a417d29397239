/** qb/select.go. Columns and WHERE comparators are Go slices that may share their arrays with others. */
module SelectBuilders {
  import opened Docs
  import opened Buffers
  import opened Values
  import opened Comparators
  import opened Using
  import opened Statements
  import opened Slices
  import opened StatementWriters
  import Compilation
  import Shape

  class SelectBuilder {
    var table: string
    var json: bool
    var distinct: Slice<string>
    var groupBy: Slice<string>
    var columns: Slice<string>
    var whr: Slice<Cmp>
    var orderBy: seq<string>
    var limitPerPartition: Limit
    var limit: Limit
    var allowFiltering: bool
    var bypassCache: bool
    const using: UsingClause

    predicate Valid()
      reads this
    {
      distinct.Valid() && groupBy.Valid() && columns.Valid() && whr.Valid()
    }

    function State(): (s: Statement)
      requires Valid()
      reads this, using, distinct.arr, groupBy.arr, columns.arr, whr.arr
      ensures s.Select? && s.table == table && s.json == json && s.orderBy == orderBy && s.using == using.State()
      ensures s.distinct == distinct.View() && s.groupBy == groupBy.View() && s.columns == columns.View()
      ensures s.whr == whr.View() && s.limitPerPartition == limitPerPartition && s.limit == limit
      ensures s.allowFiltering == allowFiltering && s.bypassCache == bypassCache
    {
      Select(table, json, distinct.View(), groupBy.View(), columns.View(), whr.View(), orderBy, limitPerPartition,
             limit, allowFiltering, bypassCache, using.State())
    }

    constructor (table: string)
      ensures Valid() && fresh(using) && NoRoom()
      ensures fresh(distinct.arr) && fresh(groupBy.arr) && fresh(columns.arr) && fresh(whr.arr)
      ensures State() == Select(table, false, [], [], [], [], [], NoLimit, NoLimit, false, false, UNSET)
    {
      this.table := table;
      json, orderBy := false, [];
      limitPerPartition, limit, allowFiltering, bypassCache := NoLimit, NoLimit, false, false;
      var none0 := MakeEmpty(0);
      var none1 := MakeEmpty(0);
      var none2 := MakeEmpty(0);
      var none3 := MakeEmpty(0);
      distinct, groupBy, columns, whr := none0, none1, none2, none3;
      using := new UsingClause();
    }

    /** The slices of a new builder are empty and full. */
    predicate NoRoom()
      reads this
    {
      && distinct.len == groupBy.len == columns.len == whr.len == 0
      && distinct.Full() && groupBy.Full() && columns.Full() && whr.Full()
    }

    /** Adds result columns. The first ones are taken over with their array, as in `Where`. */
    method Columns(cols: Slice<string>)
      requires Valid() && cols.Valid()
      modifies this`columns, columns.Spare()
      ensures Valid() && Extended(old(columns), cols, columns)
    {
      if columns.len == 0 {
        columns := cols;
      } else {
        columns := Append(columns, cols);
      }
    }

    /** Sets the DISTINCT columns; adds to them only once there is a comparator. */
    method Distinct(cols: Slice<string>)
      requires Valid() && cols.Valid()
      modifies this`distinct, distinct.Spare()
      ensures Valid()
      ensures
        if whr.len == 0 then distinct == cols && KeptOutside(old(distinct), 0)
        else Appended(old(distinct), cols, distinct)
    {
      if whr.len == 0 {
        distinct := cols;
      } else {
        distinct := Append(distinct, cols);
      }
    }

    /**
     Adds comparators. The first ones are taken over with their array; later ones are
     appended, which writes into that array only if it has room to spare.
     */
    method Where(w: Slice<Cmp>)
      requires Valid() && w.Valid()
      modifies this`whr, whr.Spare()
      ensures Valid() && Extended(old(whr), w, whr)
    {
      if whr.len == 0 {
        whr := w;
      } else {
        whr := Append(whr, w);
      }
    }

    method GroupBy(cols: Slice<string>)
      requires Valid() && cols.Valid()
      modifies this`groupBy, groupBy.Spare()
      ensures Valid() && Extended(old(groupBy), cols, groupBy)
    {
      if groupBy.len == 0 {
        groupBy := cols;
      } else {
        groupBy := Append(groupBy, cols);
      }
    }

    method OrderBy(column: string, ascending: bool)
      requires Valid()
      modifies this`orderBy
      ensures orderBy == old(orderBy) + [column + " " + if ascending then "ASC" else "DESC"]
    {
      orderBy := orderBy + [column + " " + if ascending then "ASC" else "DESC"];
    }

    method WriteSelectors(cql: Buffer)
      requires Valid() && cql.Valid()
      modifies cql
      ensures cql.Valid() && cql.doc == PutSelectors(old(cql.doc), distinct.View(), groupBy.View(), columns.View())
    {
      if distinct.len > 0 {
        cql.WriteString("DISTINCT ");
        WriteColumns(distinct.View(), cql);
      } else if groupBy.len > 0 {
        WriteColumns(groupBy.View(), cql);
        if columns.len != 0 {
          cql.WriteByte(',');
          WriteColumns(columns.View(), cql);
        }
      } else if columns.len == 0 {
        cql.WriteByte('*');
      } else {
        WriteColumns(columns.View(), cql);
      }
    }

    /** `SELECT ... FROM table `. */
    method WriteHead(cql: Buffer)
      requires Valid() && cql.Valid()
      modifies cql
      ensures cql.Valid()
      ensures cql.doc ==
        PutTable(Put(PutSelectors(PutIf(Put(old(cql.doc), "SELECT "), json, "JSON "), distinct.View(), groupBy.View(),
                                  columns.View()), " FROM "), table)
    {
      cql.WriteString("SELECT ");
      WriteFlag(json, "JSON ", cql);
      WriteSelectors(cql);
      cql.WriteString(" FROM ");
      cql.WriteString(table);
      cql.WriteByte(' ');
    }

    /** The clauses WHERE, GROUP BY and ORDER BY. */
    method WriteClauses(cql: Buffer) returns (names: seq<string>)
      requires Valid() && cql.Valid()
      modifies cql
      ensures cql.Valid() && names == CmpsNames(whr.View())
      ensures cql.doc ==
        PutColumnClause(PutColumnClause(PutClause(old(cql.doc), "WHERE ", whr.View()), "GROUP BY ", groupBy.View()),
                        "ORDER BY ", orderBy)
    {
      names := WriteClause("WHERE ", whr.View(), cql);
      WriteColumnClause("GROUP BY ", groupBy.View(), cql);
      WriteColumnClause("ORDER BY ", orderBy, cql);
    }

    /** The limits and the closing flags. */
    method WriteTail(cql: Buffer) returns (names: seq<string>)
      requires cql.Valid()
      modifies cql
      ensures cql.Valid() && names == LimitNames(limitPerPartition) + LimitNames(limit)
      ensures cql.doc ==
        PutIf(PutIf(PutLimit(PutLimit(old(cql.doc), limitPerPartition), limit), allowFiltering, "ALLOW FILTERING "),
              bypassCache, "BYPASS CACHE ")
    {
      names := WriteLimit(limitPerPartition, cql);
      var ns := WriteLimit(limit, cql);
      names := names + ns;
      WriteFlag(allowFiltering, "ALLOW FILTERING ", cql);
      WriteFlag(bypassCache, "BYPASS CACHE ", cql);
    }

    /** Everything before the USING clause. */
    method WriteBeforeUsing(cql: Buffer) returns (names: seq<string>)
      requires Valid() && cql.Valid() && cql.doc == Empty
      modifies cql
      ensures cql.Valid() && cql.doc == Compilation.UsingAt(State())
      ensures names == CmpsNames(whr.View()) + LimitNames(limitPerPartition) + LimitNames(limit)
    {
      Shape.Regroup(CmpsNames(whr.View()), LimitNames(limitPerPartition), LimitNames(limit));
      WriteHead(cql);
      names := WriteClauses(cql);
      var ns := WriteTail(cql);
      names := names + ns;
    }

    method Write(cql: Buffer, ghost s: Statement) returns (names: seq<string>)
      requires Valid() && cql.Valid() && cql.doc == Empty && s == State()
      modifies using`ttl, cql
      ensures cql.Valid() && cql.doc == Document(s)
      ensures names == Shape.StatementNames(s)
      ensures using.State() == Written(s.using)
    {
      hide PutUsing, UsingNames, Document, Compilation.Rest, Compilation.UsingAt, Shape.StatementNames, Doc.Stmt,
           CmpsNames, Written, Slice.View;
      Compilation.AroundUsing(s);
      Compilation.NamesAroundUsing(s);
      names := WriteBeforeUsing(cql);
      var ns := using.WriteCql(cql);
      names := names + ns;
    }

    /** The statement tree, written through the two channels. */
    method ToCql() returns (stmt: string, names: seq<string>)
      requires Valid()
      modifies using`ttl
      ensures Valid() && State() == Compilation.After(old(State()))
      ensures stmt == Compilation.Stmt(old(State())) && names == Compilation.Names(old(State()))
    {
      ghost var s := State();
      Compilation.NamesInClauseOrder(s);
      var cql := new Buffer();
      names := Write(cql, s);
      stmt := cql.text;
    }
  }
}
