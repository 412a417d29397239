/** qb/insert.go: columns and values are written by two loops over the same list. */
module InsertBuilders {
  import opened Docs
  import opened Buffers
  import opened Values
  import opened Using
  import opened Statements
  import opened StatementWriters
  import Compilation
  import Shape

  /** `Columns` gives every column a parameter of its own name. */
  function OwnParameters(cols: seq<string>): (inits: seq<Initializer>)
    ensures |inits| == |cols|
  {
    if cols == [] then []
    else OwnParameters(cols[..|cols| - 1]) + [Initializer(cols[|cols| - 1], Param(cols[|cols| - 1]))]
  }

  lemma {:induction false} OwnParametersAre(cols: seq<string>)
    ensures forall i :: 0 <= i < |cols| ==> OwnParameters(cols)[i] == Initializer(cols[i], Param(cols[i]))
  {
    if cols != [] {
      OwnParametersAre(cols[..|cols| - 1]);
    }
  }

  class InsertBuilder {
    var table: string
    var inits: seq<Initializer>
    var unique: bool
    var json: bool
    const using: UsingClause

    function State(): (s: Statement)
      reads this, using
      ensures s.Insert? && s.table == table && s.inits == inits && s.unique == unique && s.json == json
      ensures s.using == using.State()
    {
      Insert(table, inits, unique, json, using.State())
    }

    constructor (table: string)
      ensures fresh(using) && State() == Insert(table, [], false, false, UNSET)
    {
      this.table := table;
      inits, unique, json := [], false, false;
      using := new UsingClause();
    }

    method Columns(cols: seq<string>)
      modifies this`inits
      ensures inits == old(inits) + OwnParameters(cols)
      ensures |inits| == |old(inits)| + |cols| && forall i :: 0 <= i < |cols| ==>
        inits[|old(inits)| + i] == Initializer(cols[i], Param(cols[i]))
    {
      OwnParametersAre(cols);
      for i := 0 to |cols|
        invariant inits == old(inits) + OwnParameters(cols[..i])
      {
        assert cols[..i + 1][..i] == cols[..i];
        inits := inits + [Initializer(cols[i], Param(cols[i]))];
      }
      assert cols[..|cols|] == cols;
    }

    /** What `NamedColumn`, `LitColumn`, `FuncColumn` and `TupleColumn` do with their value. */
    method AddColumn(column: string, value: Value)
      modifies this`inits
      ensures inits == old(inits) + [Initializer(column, value)]
    {
      inits := inits + [Initializer(column, value)];
    }

    method WriteInitColumns(cql: Buffer)
      requires cql.Valid()
      modifies cql
      ensures cql.Valid() && cql.doc == PutColumns(old(cql.doc), InitColumns(inits))
    {
      for i := 0 to |inits|
        invariant cql.Valid()
        invariant PutColumns(cql.doc, InitColumns(inits[i..])) == PutColumns(old(cql.doc), InitColumns(inits))
      {
        assert inits[i..][1..] == inits[i + 1..];
        assert InitColumns(inits[i..])[1..] == InitColumns(inits[i + 1..]);
        if i < |inits| - 1 {
          assert InitColumns(inits[i + 1..]) != [];
        }
        cql.WriteString(inits[i].column);
        if i < |inits| - 1 {
          cql.WriteByte(',');
        }
      }
    }

    method WriteInitValues(cql: Buffer) returns (names: seq<string>)
      requires cql.Valid()
      modifies cql
      ensures cql.Valid() && cql.doc == PutInits(old(cql.doc), inits)
      ensures names == Shape.InitsNames(inits)
    {
      names := [];
      for i := 0 to |inits|
        invariant cql.Valid() && PutInits(cql.doc, inits[i..]) == PutInits(old(cql.doc), inits)
        invariant names == Shape.InitsNames(inits[..i])
      {
        assert inits[i..][1..] == inits[i + 1..] && inits[..i + 1][..i] == inits[..i];
        var ns := WriteValue(inits[i].value, cql);
        names := names + ns;
        if i < |inits| - 1 {
          cql.WriteByte(',');
        }
      }
      assert inits[..|inits|] == inits;
    }

    /** The column list and the value list, up to the USING clause. */
    method WriteLists(cql: Buffer) returns (names: seq<string>)
      requires cql.Valid()
      modifies cql
      ensures cql.Valid() && names == Shape.InitsNames(inits)
      ensures cql.doc ==
        PutIf(Put(PutInits(Put(Put(PutColumns(Put(old(cql.doc), "("), InitColumns(inits)), ") "), "VALUES ("), inits),
                  ") "),
              unique, "IF NOT EXISTS ")
    {
      cql.WriteByte('(');
      WriteInitColumns(cql);
      cql.WriteString(") ");
      cql.WriteString("VALUES (");
      names := WriteInitValues(cql);
      cql.WriteString(") ");
      WriteFlag(unique, "IF NOT EXISTS ", cql);
    }

    /** A JSON insert stops before the USING clause and has no name for its `?`. */
    method Write(cql: Buffer, ghost s: Statement) returns (names: seq<string>)
      requires cql.Valid() && cql.doc == Empty && s == State()
      modifies using`ttl, cql
      ensures cql.Valid() && cql.doc == Document(s)
      ensures names == Shape.StatementNames(s)
      ensures using.State() == if json then s.using else Written(s.using)
    {
      cql.WriteString("INSERT ");
      cql.WriteString("INTO ");
      cql.WriteString(table);
      cql.WriteByte(' ');
      if json {
        cql.WriteString("JSON ?");
        return [];
      }
      Compilation.AroundUsing(s);
      names := WriteLists(cql);
      var ns := using.WriteCql(cql);
      names := names + ns;
    }

    /** The statement tree, written through the two channels. */
    method ToCql() returns (stmt: string, names: seq<string>)
      modifies using`ttl
      ensures State() == Compilation.After(old(State()))
      ensures stmt == Compilation.Stmt(old(State())) && names == Compilation.Names(old(State()))
    {
      ghost var s := State();
      Compilation.NamesInClauseOrder(s);
      var cql := new Buffer();
      names := Write(cql, s);
      stmt := cql.text;
    }
  }
}
