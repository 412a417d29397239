/**
 table/table.go: a table model keeps its key comparators in two slices that its builders
 share, and caches three statements when it is made.
 */
module Tables {
  import opened Values
  import opened Comparators
  import opened Using
  import opened Statements
  import opened Slices
  import opened SelectBuilders
  import opened InsertBuilders
  import opened UpdateBuilders
  import opened DeleteBuilders
  import Compilation
  import Shape

  datatype Metadata = Metadata(name: string, columns: seq<string>, partKey: seq<string>, sortKey: seq<string>)
  {
    function PrimaryKey(): seq<string> { partKey + sortKey }
  }

  /** `qb.Eq` of every key column. */
  function Eqs(keys: seq<string>): (cs: seq<Cmp>)
    ensures |cs| == |keys|
  {
    if keys == [] then []
    else Eqs(keys[..|keys| - 1]) + [Cmp(Eq, keys[|keys| - 1], Param(keys[|keys| - 1]))]
  }

  // ---- the statements a table stands for ----

  function SelectBy(m: Metadata, columns: seq<string>, keys: seq<string>): Statement {
    Select(m.name, false, [], [], columns, Eqs(keys), [], NoLimit, NoLimit, false, false, UNSET)
  }

  function InsertAll(m: Metadata): Statement {
    Insert(m.name, OwnParameters(m.columns), false, false, UNSET)
  }

  function UpdateBy(m: Metadata, columns: seq<string>): Statement {
    Update(m.name, OwnAssignments(columns), Eqs(m.PrimaryKey()), [], false, false, UNSET)
  }

  function DeleteBy(m: Metadata, columns: seq<string>): Statement {
    Delete(m.name, columns, Eqs(m.PrimaryKey()), [], false, UNSET)
  }

  datatype Cql = Cql(stmt: string, names: seq<string>)

  function ToCql(s: Statement): Cql {
    Cql(Compilation.Stmt(s), Compilation.Names(s))
  }

  /** A statement the table keeps, with the names as the slice that `ToCql` grew. */
  datatype Cached = Cached(stmt: string, names: Slice<string>)
  {
    predicate Caches(s: Statement)
      reads names.arr
    {
      names.Valid() && Cql(stmt, names.View()) == ToCql(s)
    }
  }

  class Table {
    const metadata: Metadata
    const primaryKeyCmp: Slice<Cmp>
    const partKeyCmp: Slice<Cmp>
    const get: Cached
    const sel: Cached
    const insert: Cached

    /** The arrays of the table: the comparators' and those of the cached names. */
    function Arrays(): set<object> {
      var comparators: set<object>, names: set<object> :=
        {primaryKeyCmp.arr, partKeyCmp.arr}, {get.names.arr, sel.names.arr, insert.names.arr};
      comparators + names
    }

    /**
     The comparators are those of the metadata, both slices are full, so that no append
     writes into them, and the cached statements are the ones a builder would produce.
     */
    ghost predicate Valid()
      reads Arrays()
    {
      && primaryKeyCmp.Valid() && primaryKeyCmp.Full() && primaryKeyCmp.View() == Eqs(metadata.PrimaryKey())
      && partKeyCmp.Valid() && partKeyCmp.Full() && partKeyCmp.View() == Eqs(metadata.partKey)
      && get.Caches(SelectBy(metadata, [], metadata.PrimaryKey()))
      && sel.Caches(SelectBy(metadata, [], metadata.partKey))
      && insert.Caches(InsertAll(metadata))
      && get.names.arr != sel.names.arr && insert.names.arr !in {get.names.arr, sel.names.arr}
    }

    constructor (m: Metadata)
      ensures Valid() && metadata == m && fresh(Arrays())
    {
      var primary, part := KeyCmps(m);
      var g := CqlBy(m, primary, m.PrimaryKey());
      var s := CqlBy(m, part, m.partKey);
      var i := InsertCql(m);
      get, sel, insert := g, s, i;
      metadata, primaryKeyCmp, partKeyCmp := m, primary, part;
    }

    /** A copy, so that the caller cannot reach the table's own array. */
    method PrimaryKeyCmp() returns (cs: Slice<Cmp>)
      requires Valid()
      ensures cs.Valid() && fresh(cs.arr) && cs.View() == Eqs(metadata.PrimaryKey())
    {
      cs := Copy(primaryKeyCmp, primaryKeyCmp.len);
    }

    /** Select by primary key; without columns the cached statement, its names with their array. */
    method Get(columns: Slice<string>) returns (stmt: string, names: Slice<string>)
      requires Valid() && columns.Valid()
      ensures Cached(stmt, names).Caches(SelectBy(metadata, columns.View(), metadata.PrimaryKey()))
      ensures if columns.len == 0 then names == get.names else fresh(names.arr)
    {
      if columns.len == 0 {
        return get.stmt, get.names;
      }
      stmt, names := SelectCql(metadata, columns, primaryKeyCmp, metadata.PrimaryKey());
    }

    /** The columns are kept with their array. */
    method GetBuilder(columns: Slice<string>) returns (b: SelectBuilder)
      requires Valid() && columns.Valid()
      ensures fresh(b) && fresh(b.using) && b.Valid()
      ensures b.State() == SelectBy(metadata, columns.View(), metadata.PrimaryKey())
      ensures b.whr == primaryKeyCmp && Keeps(b, columns)
      ensures NewButFor(b, columns.arr)
    {
      if columns.len == 0 {
        b := SelectWhere(metadata, primaryKeyCmp, metadata.PrimaryKey());
      } else {
        b := SelectColumnsWhere(metadata, columns, primaryKeyCmp, metadata.PrimaryKey());
      }
    }

    /** Select by partition key, over a shorter window into the primary key's array. */
    method Select(columns: Slice<string>) returns (stmt: string, names: Slice<string>)
      requires Valid() && columns.Valid()
      ensures Cached(stmt, names).Caches(SelectBy(metadata, columns.View(), metadata.partKey))
      ensures if columns.len == 0 then names == sel.names else fresh(names.arr)
    {
      if columns.len == 0 {
        return sel.stmt, sel.names;
      }
      var part := Prefix(primaryKeyCmp, |metadata.partKey|);
      EqsPrefix(metadata.partKey, metadata.sortKey);
      assert part.View() == primaryKeyCmp.View()[..|metadata.partKey|];
      stmt, names := SelectCql(metadata, columns, part, metadata.partKey);
    }

    method SelectBuilder(columns: Slice<string>) returns (b: SelectBuilder)
      requires Valid() && columns.Valid()
      ensures fresh(b) && fresh(b.using) && b.Valid()
      ensures b.State() == SelectBy(metadata, columns.View(), metadata.partKey)
      ensures b.whr == partKeyCmp && Keeps(b, columns)
      ensures NewButFor(b, columns.arr)
    {
      b := SelectColumnsWhere(metadata, columns, partKeyCmp, metadata.partKey);
    }

    method Insert() returns (stmt: string, names: Slice<string>)
      requires Valid()
      ensures Cached(stmt, names).Caches(InsertAll(metadata)) && names == insert.names
    {
      return insert.stmt, insert.names;
    }

    method InsertBuilder() returns (b: InsertBuilder)
      ensures fresh(b) && fresh(b.using) && b.State() == InsertAll(metadata)
    {
      b := new InsertBuilder(metadata.name);
      b.Columns(metadata.columns);
    }

    method Update(columns: seq<string>) returns (stmt: string, names: seq<string>)
      requires Valid()
      ensures Cql(stmt, names) == ToCql(UpdateBy(metadata, columns))
    {
      var b := UpdateBuilder(columns);
      stmt, names := b.ToCql();
    }

    method UpdateBuilder(columns: seq<string>) returns (b: UpdateBuilder)
      requires Valid()
      ensures fresh(b) && fresh(b.using) && b.Valid() && b.State() == UpdateBy(metadata, columns)
      ensures b.whr == primaryKeyCmp
      ensures b.cond.Full() && fresh(b.cond.arr)
    {
      hide Cached.Caches, Eqs;
      b := new UpdateBuilder(metadata.name);
      b.Set(columns);
      b.Where(primaryKeyCmp);
      assert b.whr.View() == Eqs(metadata.PrimaryKey()) && b.cond.View() == [];
    }

    method Delete(columns: seq<string>) returns (stmt: string, names: seq<string>)
      requires Valid()
      ensures Cql(stmt, names) == ToCql(DeleteBy(metadata, columns))
    {
      var b := DeleteBuilder(columns);
      stmt, names := b.ToCql();
    }

    method DeleteBuilder(columns: seq<string>) returns (b: DeleteBuilder)
      requires Valid()
      ensures fresh(b) && fresh(b.using) && b.State() == DeleteBy(metadata, columns)
    {
      b := new DeleteBuilder(metadata.name);
      b.Columns(columns);
      b.Where(primaryKeyCmp);
    }
  }

  /** The only column slices of the builder with room are the caller's columns. */
  predicate Keeps(b: SelectBuilder, columns: Slice<string>)
    reads b
  {
    b.distinct.Full() && b.groupBy.Full() && (b.columns == columns || b.columns.Full())
  }

  /** The column arrays of the builder are new, or the caller's. */
  twostate predicate NewButFor(new b: SelectBuilder, arr: array<string>)
    reads b
  {
    fresh(b.distinct.arr) && fresh(b.groupBy.arr) && (fresh(b.columns.arr) || b.columns.arr == arr)
  }

  /** `qb.Select(m.Name).Where(keys...)`. */
  method SelectWhere(m: Metadata, keys: Slice<Cmp>, ghost keyColumns: seq<string>) returns (b: SelectBuilder)
    requires keys.Valid() && keys.View() == Eqs(keyColumns)
    ensures fresh(b) && fresh(b.using) && b.Valid() && b.whr == keys && b.State() == SelectBy(m, [], keyColumns)
    ensures b.distinct.Full() && b.groupBy.Full() && b.columns.Full()
    ensures fresh(b.distinct.arr) && fresh(b.groupBy.arr) && fresh(b.columns.arr)
  {
    b := new SelectBuilder(m.name);
    b.Where(keys);
    assert b.whr.View() == Eqs(keyColumns);
  }

  /** `qb.Select(m.Name).Columns(columns...).Where(keys...)`. */
  method SelectColumnsWhere(m: Metadata, columns: Slice<string>, keys: Slice<Cmp>, ghost keyColumns: seq<string>)
    returns (b: SelectBuilder)
    requires columns.Valid() && keys.Valid() && keys.View() == Eqs(keyColumns)
    ensures fresh(b) && fresh(b.using) && b.Valid() && b.whr == keys
    ensures b.State() == SelectBy(m, columns.View(), keyColumns)
    ensures b.distinct.Full() && b.groupBy.Full() && b.columns == columns
    ensures fresh(b.distinct.arr) && fresh(b.groupBy.arr)
  {
    b := new SelectBuilder(m.name);
    b.Columns(columns);
    b.Where(keys);
    assert b.whr.View() == Eqs(keyColumns);
  }

  method CqlBy(m: Metadata, keys: Slice<Cmp>, ghost keyColumns: seq<string>) returns (cql: Cached)
    requires keys.Valid() && keys.View() == Eqs(keyColumns)
    ensures cql.Caches(SelectBy(m, [], keyColumns)) && fresh(cql.names.arr)
  {
    var b := SelectWhere(m, keys, keyColumns);
    var stmt, names := b.ToCql();
    var grown := MakeGrown(names);
    cql := Cached(stmt, grown);
  }

  method InsertCql(m: Metadata) returns (cql: Cached)
    ensures cql.Caches(InsertAll(m)) && fresh(cql.names.arr)
  {
    var b := new InsertBuilder(m.name);
    b.Columns(m.columns);
    assert b.State() == InsertAll(m);
    var stmt, names := b.ToCql();
    var grown := MakeGrown(names);
    cql := Cached(stmt, grown);
  }

  method SelectCql(m: Metadata, columns: Slice<string>, keys: Slice<Cmp>, ghost keyColumns: seq<string>)
    returns (stmt: string, names: Slice<string>)
    requires columns.Valid() && keys.Valid() && keys.View() == Eqs(keyColumns)
    ensures Cached(stmt, names).Caches(SelectBy(m, columns.View(), keyColumns)) && fresh(names.arr)
  {
    var b := SelectColumnsWhere(m, columns, keys, keyColumns);
    var values;
    stmt, values := b.ToCql();
    names := MakeGrown(values);
  }

  /** The two comparator slices of `New`: one grown to its capacity, one copied from its start. */
  method KeyCmps(m: Metadata) returns (primary: Slice<Cmp>, part: Slice<Cmp>)
    ensures primary.Valid() && primary.Full() && fresh(primary.arr) && primary.View() == Eqs(m.PrimaryKey())
    ensures part.Valid() && part.Full() && fresh(part.arr) && part.View() == Eqs(m.partKey)
  {
    primary := MakeEmpty(|m.partKey| + |m.sortKey|);
    primary := AppendEqs(primary, m.partKey, []);
    assert [] + m.partKey == m.partKey;
    primary := AppendEqs(primary, m.sortKey, m.partKey);
    EqsPrefix(m.partKey, m.sortKey);
    part := Copy(primary, |m.partKey|);
  }

  /** One of the two loops of `New`: `append(cmps, qb.Eq(k))` for every key, with room for all of them. */
  method AppendEqs(start: Slice<Cmp>, keys: seq<string>, ghost before: seq<string>) returns (cmps: Slice<Cmp>)
    requires start.Valid() && start.View() == Eqs(before) && start.len + |keys| <= start.cap
    modifies start.arr
    ensures cmps == start.(len := start.len + |keys|) && cmps.View() == Eqs(before + keys)
  {
    cmps := start;
    assert before + keys[..0] == before;
    for i := 0 to |keys|
      invariant cmps == start.(len := start.len + i)
      invariant cmps.View() == Eqs(before + keys[..i])
    {
      EqsSnoc(before, keys, i);
      cmps := Append1(cmps, Cmp(Eq, keys[i], Param(keys[i])));
    }
    assert keys[..|keys|] == keys;
  }

  lemma {:induction false} EqsSnoc(before: seq<string>, keys: seq<string>, i: nat)
    requires i < |keys|
    ensures Eqs(before + keys[..i + 1]) == Eqs(before + keys[..i]) + [Cmp(Eq, keys[i], Param(keys[i]))]
  {
    var all := before + keys[..i + 1];
    assert all[..|all| - 1] == before + keys[..i];
  }

  lemma {:induction false} EqsPrefix(keys: seq<string>, more: seq<string>)
    ensures Eqs(keys + more)[..|keys|] == Eqs(keys)
  {
    if more == [] {
      assert keys + more == keys;
    } else {
      var all, n := keys + more, |more| - 1;
      assert all[..|all| - 1] == keys + more[..n];
      EqsPrefix(keys, more[..n]);
      assert Eqs(all)[..|keys|] == Eqs(keys + more[..n])[..|keys|];
    }
  }

  // ---- the names a table's statements ask for ----

  lemma {:induction false} EqsNames(keys: seq<string>)
    ensures CmpsNames(Eqs(keys)) == keys
  {
    if keys != [] {
      EqsNames(keys[..|keys| - 1]);
    }
  }

  lemma {:induction false} OwnNames(cols: seq<string>)
    ensures Shape.InitsNames(OwnParameters(cols)) == cols
    ensures Shape.AssignmentsNames(OwnAssignments(cols)) == cols
  {
    if cols != [] {
      OwnNames(cols[..|cols| - 1]);
    }
  }

  /** Every statement of a table asks for the columns it sets, then its partition key, then its sort key. */
  lemma {:induction false} TableNames(m: Metadata, columns: seq<string>)
    ensures ToCql(UpdateBy(m, columns)).names == columns + m.partKey + m.sortKey
    ensures ToCql(DeleteBy(m, columns)).names == m.partKey + m.sortKey
    ensures ToCql(SelectBy(m, columns, m.PrimaryKey())).names == m.partKey + m.sortKey
    ensures ToCql(SelectBy(m, columns, m.partKey)).names == m.partKey
    ensures ToCql(InsertAll(m)).names == m.columns
  {
    UpdateNames(m, columns);
    DeleteNames(m, columns);
    SelectNames(m, columns, m.PrimaryKey());
    SelectNames(m, columns, m.partKey);
    InsertNames(m);
  }

  lemma {:induction false} UnsetNames()
    ensures UsingNames(UNSET) == [] && CmpsNames([]) == [] && LimitNames(NoLimit) == []
  {
  }

  lemma {:induction false} UpdateNames(m: Metadata, columns: seq<string>)
    ensures ToCql(UpdateBy(m, columns)).names == columns + m.partKey + m.sortKey
  {
    hide UsingNames, CmpsNames, Compilation.Names, Shape.StatementNames, Shape.AssignmentsNames, Eqs, OwnAssignments;
    UnsetNames();
    NamesOf(UpdateBy(m, columns));
    Compilation.NamesAroundUsing(UpdateBy(m, columns));
    OwnNames(columns);
    EqsNames(m.PrimaryKey());
  }

  lemma {:induction false} DeleteNames(m: Metadata, columns: seq<string>)
    ensures ToCql(DeleteBy(m, columns)).names == m.PrimaryKey()
  {
    hide UsingNames, CmpsNames, Compilation.Names, Shape.StatementNames, Eqs;
    UnsetNames();
    NamesOf(DeleteBy(m, columns));
    Compilation.NamesAroundUsing(DeleteBy(m, columns));
    EqsNames(m.PrimaryKey());
  }

  lemma {:induction false} SelectNames(m: Metadata, columns: seq<string>, keys: seq<string>)
    ensures ToCql(SelectBy(m, columns, keys)).names == keys
  {
    hide UsingNames, CmpsNames, LimitNames, Compilation.Names, Shape.StatementNames, Eqs;
    UnsetNames();
    NamesOf(SelectBy(m, columns, keys));
    Compilation.NamesAroundUsing(SelectBy(m, columns, keys));
    EqsNames(keys);
  }

  lemma {:induction false} InsertNames(m: Metadata)
    ensures ToCql(InsertAll(m)).names == m.columns
  {
    hide UsingNames, Compilation.Names, Shape.StatementNames, Shape.InitsNames, OwnParameters;
    UnsetNames();
    NamesOf(InsertAll(m));
    Compilation.NamesAroundUsing(InsertAll(m));
    OwnNames(m.columns);
  }

  lemma {:induction false} NamesOf(s: Statement)
    ensures ToCql(s).names == Shape.StatementNames(s)
  {
    hide Compilation.Names, Shape.StatementNames;
    Compilation.NamesInClauseOrder(s);
  }
}
