/**
 Clients of one table model: any number of builders taken from it, used in any order, with
 arguments that are Go slices of the client's. This module has the calls, what they mean
 when every builder and every argument is a value of its own, and what each does in memory.
 */
module Clients {
  import opened Comparators
  import opened Using
  import opened Statements
  import opened Slices
  import opened SelectBuilders
  import opened InsertBuilders
  import opened UpdateBuilders
  import opened Builders
  import opened Tables
  import Compilation

  // ---- calls ----

  /** A call, with its comparators `W` and its columns `C`; `k` is the number of the builder it is for. */
  datatype Call<W, C> =
    | TakeGet(columns: C) | TakeSelect(columns: C) | TakeInsert | TakeUpdate(columns: C) | TakeDelete(columns: C)
    | Where(k: nat, w: W) | If(k: nat, w: W) | ToCql(k: nat)
    | Add(k: nat, more: C) | Distinct(k: nat, more: C) | GroupBy(k: nat, more: C)
    | OrderBy(k: nat, column: string, ascending: bool)
    | Use(k: nat, setter: Event)
    | Ask(question: Question<C>)
  {
    predicate Takes() {
      TakeGet? || TakeSelect? || TakeInsert? || TakeUpdate? || TakeDelete?
    }

    /** The calls on one builder. */
    predicate Changes() {
      !Takes() && !Ask?
    }
  }

  /** The table's own statements. */
  datatype Question<C> =
    | GetOf(columns: C) | SelectOf(columns: C) | InsertOf | UpdateOf(columns: C) | DeleteOf(columns: C)

  /** The client hands over slices; what a call means depends on the values in them. */
  type SliceCall = Call<Slice<Cmp>, Slice<string>>
  type ValueCall = Call<seq<Cmp>, seq<string>>

  predicate WellFormed(c: SliceCall) {
    match c
    case TakeGet(columns) => columns.Valid()
    case TakeSelect(columns) => columns.Valid()
    case TakeInsert => true
    case TakeUpdate(columns) => columns.Valid()
    case TakeDelete(columns) => columns.Valid()
    case Where(_, w) => w.Valid()
    case If(_, w) => w.Valid()
    case ToCql(_) => true
    case Add(_, more) => more.Valid()
    case Distinct(_, more) => more.Valid()
    case GroupBy(_, more) => more.Valid()
    case OrderBy(_, _, _) => true
    case Use(_, _) => true
    case Ask(q) => q.InsertOf? || q.columns.Valid()
  }

  /** The array of the slice a call lends, if it has one. */
  function Lent(c: SliceCall): set<object> {
    match c
    case TakeGet(columns) => {columns.arr}
    case TakeSelect(columns) => {columns.arr}
    case TakeInsert => {}
    case TakeUpdate(columns) => {columns.arr}
    case TakeDelete(columns) => {columns.arr}
    case Where(_, w) => {w.arr}
    case If(_, w) => {w.arr}
    case ToCql(_) => {}
    case Add(_, more) => {more.arr}
    case Distinct(_, more) => {more.arr}
    case GroupBy(_, more) => {more.arr}
    case OrderBy(_, _, _) => {}
    case Use(_, _) => {}
    case Ask(q) => if q.InsertOf? then {} else {q.columns.arr}
  }

  /** The same if the slice has room to spare and a builder may keep it. */
  function LentSpare(c: SliceCall): (arrays: set<object>)
    ensures arrays <= Lent(c)
  {
    match c
    case TakeGet(columns) => columns.Spare()
    case TakeSelect(columns) => columns.Spare()
    case Where(_, w) => w.Spare()
    case If(_, w) => w.Spare()
    case Add(_, more) => more.Spare()
    case Distinct(_, more) => more.Spare()
    case GroupBy(_, more) => more.Spare()
    case _ => {}
  }

  /** The call with the values that are in its slices now. */
  function Value(c: SliceCall): ValueCall
    requires WellFormed(c)
    reads Lent(c)
  {
    match c
    case TakeGet(columns) => TakeGet(columns.View())
    case TakeSelect(columns) => TakeSelect(columns.View())
    case TakeInsert => TakeInsert
    case TakeUpdate(columns) => TakeUpdate(columns.View())
    case TakeDelete(columns) => TakeDelete(columns.View())
    case Where(k, w) => Where(k, w.View())
    case If(k, w) => If(k, w.View())
    case ToCql(k) => ToCql(k)
    case Add(k, more) => Add(k, more.View())
    case Distinct(k, more) => Distinct(k, more.View())
    case GroupBy(k, more) => GroupBy(k, more.View())
    case OrderBy(k, column, ascending) => OrderBy(k, column, ascending)
    case Use(k, setter) => Use(k, setter)
    case Ask(q) =>
      Ask(match q
          case GetOf(columns) => GetOf(columns.View())
          case SelectOf(columns) => SelectOf(columns.View())
          case InsertOf => InsertOf
          case UpdateOf(columns) => UpdateOf(columns.View())
          case DeleteOf(columns) => DeleteOf(columns.View()))
  }

  // ---- what calls mean when everything is a value ----

  function Answer(m: Metadata, q: Question<seq<string>>): Statement {
    match q
    case GetOf(columns) => SelectBy(m, columns, m.PrimaryKey())
    case SelectOf(columns) => SelectBy(m, columns, m.partKey)
    case InsertOf => InsertAll(m)
    case UpdateOf(columns) => UpdateBy(m, columns)
    case DeleteOf(columns) => DeleteBy(m, columns)
  }

  /** The statement of the builder a call takes from the table. */
  function Taken(m: Metadata, c: ValueCall): Statement
    requires c.Takes()
  {
    match c
    case TakeGet(columns) => SelectBy(m, columns, m.PrimaryKey())
    case TakeSelect(columns) => SelectBy(m, columns, m.partKey)
    case TakeInsert => InsertAll(m)
    case TakeUpdate(columns) => UpdateBy(m, columns)
    case TakeDelete(columns) => DeleteBy(m, columns)
  }

  /** What a call does to the builder it is for. */
  function Changed(s: Statement, c: ValueCall): Statement
    requires c.Changes()
  {
    match c
    case Where(_, w) => WithWhere(s, w)
    case If(_, w) => WithIf(s, w)
    case ToCql(_) => Compilation.After(s)
    case Add(_, more) => WithColumns(s, more)
    case Distinct(_, more) => WithDistinct(s, more)
    case GroupBy(_, more) => if s.Select? then s.(groupBy := s.groupBy + more) else s
    case OrderBy(_, column, ascending) => WithOrder(s, column, ascending)
    case Use(_, setter) => WithSetter(s, setter)
  }

  function WithWhere(s: Statement, w: seq<Cmp>): Statement {
    if s.Select? || s.Update? || s.Delete? then s.(whr := s.whr + w) else s
  }

  function WithIf(s: Statement, w: seq<Cmp>): Statement {
    if s.Update? || s.Delete? then s.(cond := s.cond + w) else s
  }

  /** `Columns` of a select, an insert and a delete, and `Set` of an update. */
  function WithColumns(s: Statement, more: seq<string>): Statement {
    if s.Select? || s.Delete? then s.(columns := s.columns + more)
    else if s.Insert? then s.(inits := s.inits + OwnParameters(more))
    else if s.Update? then s.(assignments := s.assignments + OwnAssignments(more))
    else s
  }

  function WithDistinct(s: Statement, more: seq<string>): Statement {
    if s.Select? then s.(distinct := if s.whr == [] then more else s.distinct + more) else s
  }

  function WithOrder(s: Statement, column: string, ascending: bool): Statement {
    if s.Select? then s.(orderBy := s.orderBy + [column + " " + if ascending then "ASC" else "DESC"]) else s
  }

  function WithSetter(s: Statement, setter: Event): Statement {
    if setter.Write? then s else s.(using := Apply(s.using, setter))
  }

  /** A call on a pool in which every builder is a value of its own. */
  function Step(m: Metadata, pool: seq<Statement>, c: ValueCall): seq<Statement> {
    if c.Takes() then pool + [Taken(m, c)]
    else if c.Changes() && c.k < |pool| then pool[c.k := Changed(pool[c.k], c)]
    else pool
  }

  /** What a call returns: `ToCql` of a builder or one of the table's own statements. */
  function Said(m: Metadata, pool: seq<Statement>, c: ValueCall): seq<Cql> {
    if c.Ask? then [Tables.ToCql(Answer(m, c.question))]
    else if c.ToCql? && c.k < |pool| then [Tables.ToCql(pool[c.k])]
    else []
  }

  /** The pool after a list of calls. */
  function Run(m: Metadata, calls: seq<ValueCall>): seq<Statement> {
    if calls == [] then [] else Step(m, Run(m, calls[..|calls| - 1]), calls[|calls| - 1])
  }

  /** The statements a list of calls returns. */
  function Returned(m: Metadata, calls: seq<ValueCall>): seq<Cql> {
    if calls == [] then []
    else Returned(m, calls[..|calls| - 1]) + Said(m, Run(m, calls[..|calls| - 1]), calls[|calls| - 1])
  }

  // ---- what calls do in memory ----

  /**
   The builder writes into no array of `lent`, and reads none of `lentSpare`, which are
   those that some slice has room in.
   */
  ghost predicate Welcomes(b: Builder, lent: set<object>, lentSpare: set<object>)
    reads b.Own()
  {
    b.Spare() !! lent && b.Arrays() !! lentSpare
  }

  /** What a call may add to a builder's arrays: those of its argument, and new ones. */
  twostate predicate Gains(b: Builder, lent: set<object>, lentSpare: set<object>)
    reads b.Own()
  {
    && (forall o :: o in b.Arrays() ==> o in old(b.Arrays()) || o in lent || fresh(o))
    && (forall o :: o in b.Spare() ==> o in old(b.Spare()) || o in lentSpare || fresh(o))
  }

  /** The table hands out a builder. */
  method Hand(t: Table, c: SliceCall) returns (b: Builder)
    requires t.Valid() && c.Takes() && WellFormed(c)
    ensures fresh(b.Own()) && b.Sliced() && b.Tidy() && b.State() == Taken(t.metadata, old(Value(c)))
    ensures forall o :: o in b.Arrays() ==> o in t.Arrays() || o in Lent(c) || fresh(o)
    ensures b.Spare() <= LentSpare(c)
  {
    match c {
      case TakeGet(columns) => b := HandSelect(t, columns, true);
      case TakeSelect(columns) => b := HandSelect(t, columns, false);
      case TakeInsert =>
        var x := t.InsertBuilder();
        b := OfInsert(x);
      case TakeUpdate(columns) =>
        var x := t.UpdateBuilder(columns.View());
        b := OfUpdate(x);
      case TakeDelete(columns) =>
        var x := t.DeleteBuilder(columns.View());
        b := OfDelete(x);
    }
  }

  method HandSelect(t: Table, columns: Slice<string>, byPrimaryKey: bool) returns (b: Builder)
    requires t.Valid() && columns.Valid()
    ensures fresh(b.Own()) && b.Sliced() && b.Tidy()
    ensures var keys := if byPrimaryKey then t.metadata.PrimaryKey() else t.metadata.partKey;
      b.State() == SelectBy(t.metadata, old(columns.View()), keys)
    ensures forall o :: o in b.Arrays() ==> o in t.Arrays() || o == columns.arr || fresh(o)
    ensures b.Spare() <= columns.Spare()
  {
    hide SelectBuilder.State, SelectBy, Slice.View, Cached.Caches;
    var x;
    if byPrimaryKey {
      x := t.GetBuilder(columns);
    } else {
      x := t.SelectBuilder(columns);
    }
    b := OfSelect(x);
  }

  /** The comparators are kept or appended; if they are welcome, they mean what they say. */
  method AddWhere(b: Builder, w: Slice<Cmp>)
    requires b.Sliced() && w.Valid()
    modifies b.Own(), b.Spare()
    ensures b.Sliced() && Gains(b, {w.arr}, w.Spare())
    ensures old(b.Tidy() && Welcomes(b, {w.arr}, w.Spare())) ==>
      b.Tidy() && b.State() == WithWhere(old(b.State()), old(w.View()))
  {
    match b
    case OfSelect(x) => x.Where(w);
    case OfUpdate(_) => AddWhereToUpdate(b, w);
    case OfDelete(x) => x.Where(w);
    case OfInsert(_) =>
  }

  method AddWhereToUpdate(b: Builder, w: Slice<Cmp>)
    requires b.OfUpdate? && b.Sliced() && w.Valid()
    modifies b.Own(), b.Spare()
    ensures b.Sliced() && Gains(b, {w.arr}, w.Spare())
    ensures old(b.Tidy() && Welcomes(b, {w.arr}, w.Spare())) ==>
      b.Tidy() && b.State() == WithWhere(old(b.State()), old(w.View()))
  {
    b.upd.Where(w);
  }

  /** The same for the IF clause. */
  method AddIf(b: Builder, w: Slice<Cmp>)
    requires b.Sliced() && w.Valid()
    modifies b.Own(), b.Spare()
    ensures b.Sliced() && Gains(b, {w.arr}, w.Spare())
    ensures old(b.Tidy() && Welcomes(b, {w.arr}, w.Spare())) ==>
      b.Tidy() && b.State() == WithIf(old(b.State()), old(w.View()))
  {
    match b
    case OfUpdate(_) => AddIfToUpdate(b, w);
    case OfDelete(x) => x.If(w);
    case OfSelect(_) =>
    case OfInsert(_) =>
  }

  method AddIfToUpdate(b: Builder, w: Slice<Cmp>)
    requires b.OfUpdate? && b.Sliced() && w.Valid()
    modifies b.Own(), b.Spare()
    ensures b.Sliced() && Gains(b, {w.arr}, w.Spare())
    ensures old(b.Tidy() && Welcomes(b, {w.arr}, w.Spare())) ==>
      b.Tidy() && b.State() == WithIf(old(b.State()), old(w.View()))
  {
    b.upd.If(w);
  }

  /** The same for columns, which only a select keeps as a slice. */
  method AddColumns(b: Builder, more: Slice<string>)
    requires b.Sliced() && more.Valid()
    modifies b.Own(), b.Spare()
    ensures b.Sliced() && Gains(b, {more.arr}, more.Spare())
    ensures old(b.Tidy() && Welcomes(b, {more.arr}, more.Spare())) ==>
      b.Tidy() && b.State() == WithColumns(old(b.State()), old(more.View()))
  {
    match b
    case OfSelect(_) => AddColumnsToSelect(b, more);
    case OfInsert(x) => x.Columns(more.View());
    case OfUpdate(x) => x.Set(more.View());
    case OfDelete(x) => x.Columns(more.View());
  }

  method AddColumnsToSelect(b: Builder, more: Slice<string>)
    requires b.OfSelect? && b.Sliced() && more.Valid()
    modifies b.Own(), b.Spare()
    ensures b.Sliced() && Gains(b, {more.arr}, more.Spare())
    ensures old(b.Tidy() && Welcomes(b, {more.arr}, more.Spare())) ==>
      b.Tidy() && b.State() == WithColumns(old(b.State()), old(more.View()))
  {
    b.sel.Columns(more);
  }

  method AddDistinct(b: Builder, more: Slice<string>)
    requires b.Sliced() && more.Valid()
    modifies b.Own(), b.Spare()
    ensures b.Sliced() && Gains(b, {more.arr}, more.Spare())
    ensures old(b.Tidy() && Welcomes(b, {more.arr}, more.Spare())) ==>
      b.Tidy() && b.State() == WithDistinct(old(b.State()), old(more.View()))
  {
    if b.OfSelect? {
      b.sel.Distinct(more);
    }
  }

  method AddGroupBy(b: Builder, more: Slice<string>)
    requires b.Sliced() && more.Valid()
    modifies b.Own(), b.Spare()
    ensures b.Sliced() && Gains(b, {more.arr}, more.Spare())
    ensures old(b.Tidy() && Welcomes(b, {more.arr}, more.Spare())) ==>
      b.Tidy() && b.State() ==
        var s := old(b.State()); if s.Select? then s.(groupBy := s.groupBy + old(more.View())) else s
  {
    if b.OfSelect? {
      b.sel.GroupBy(more);
    }
  }

  method AddOrder(b: Builder, column: string, ascending: bool)
    requires b.Sliced()
    modifies b.Own()
    ensures b.Sliced() && b.State() == WithOrder(old(b.State()), column, ascending)
    ensures b.Arrays() == old(b.Arrays()) && b.Spare() == old(b.Spare()) && b.Tidy() == old(b.Tidy())
  {
    if b.OfSelect? {
      b.sel.OrderBy(column, ascending);
    }
  }

  /** A setter of the USING clause; every builder hands it on to its clause. */
  method UseSetter(b: Builder, setter: Event)
    requires b.Sliced()
    modifies b.Own()
    ensures b.Sliced() && b.State() == WithSetter(old(b.State()), setter)
    ensures b.Arrays() == old(b.Arrays()) && b.Spare() == old(b.Spare()) && b.Tidy() == old(b.Tidy())
  {
    match b
    case OfSelect(x) => UseClause(x.using, setter);
    case OfInsert(x) => UseClause(x.using, setter);
    case OfUpdate(x) => UseClause(x.using, setter);
    case OfDelete(x) => UseClause(x.using, setter);
  }

  method UseClause(u: UsingClause, setter: Event)
    modifies u
    ensures u.State() == if setter.Write? then old(u.State()) else Apply(old(u.State()), setter)
  {
    match setter
    case TTL(d) => u.TTL(d);
    case TTLNamed(name) => u.TTLNamed(name);
    case Timestamp(i) => u.Timestamp(i);
    case TimestampNamed(name) => u.TimestampNamed(name);
    case Timeout(d) => u.Timeout(d);
    case TimeoutNamed(name) => u.TimeoutNamed(name);
    case Write =>
  }

  /** The table answers for itself. */
  method AskTable(t: Table, q: Question<Slice<string>>) returns (said: Cql)
    requires t.Valid() && WellFormed(Ask(q))
    ensures t.Valid() && said == Tables.ToCql(Answer(t.metadata, Value(Ask(q)).question))
  {
    match q
    case GetOf(columns) =>
      var stmt, names := t.Get(columns);
      said := Cql(stmt, names.View());
    case SelectOf(columns) =>
      var stmt, names := t.Select(columns);
      said := Cql(stmt, names.View());
    case InsertOf =>
      var stmt, names := t.Insert();
      said := Cql(stmt, names.View());
    case UpdateOf(columns) =>
      var stmt, names := t.Update(columns.View());
      said := Cql(stmt, names);
    case DeleteOf(columns) =>
      var stmt, names := t.Delete(columns.View());
      said := Cql(stmt, names);
  }

  /** Any call on a builder; if its argument is welcome, it means what its values say. */
  method Change(b: Builder, c: SliceCall) returns (said: seq<Cql>)
    requires b.Sliced() && c.Changes() && WellFormed(c)
    modifies b.Own(), b.Spare()
    ensures b.Sliced() && Gains(b, Lent(c), LentSpare(c))
    ensures old(b.Tidy() && Welcomes(b, Lent(c), LentSpare(c))) ==>
      b.Tidy() && b.State() == Changed(old(b.State()), old(Value(c)))
    ensures said == if c.ToCql? then [Tables.ToCql(old(b.State()))] else []
  {
    said := [];
    match c
    case Where(_, w) => AddWhere(b, w);
    case If(_, w) => AddIf(b, w);
    case Add(_, more) => AddColumns(b, more);
    case Distinct(_, more) => AddDistinct(b, more);
    case GroupBy(_, more) => AddGroupBy(b, more);
    case OrderBy(_, column, ascending) => AddOrder(b, column, ascending);
    case Use(_, setter) => UseSetter(b, setter);
    case ToCql(_) =>
      var stmt, names := b.ToCql();
      said := [Cql(stmt, names)];
  }
}
