/**
 The `Builder` interface of qb/qb.go as a datatype of the four builders that are not batches,
 with the objects and arrays each one consists of.
 */
module Builders {
  import opened Statements
  import opened SelectBuilders
  import opened InsertBuilders
  import opened UpdateBuilders
  import opened DeleteBuilders
  import Compilation

  /** A builder of one of the four kinds. Batches are built from these and from other batches. */
  datatype Builder =
    | OfSelect(sel: SelectBuilder)
    | OfInsert(ins: InsertBuilder)
    | OfUpdate(upd: UpdateBuilder)
    | OfDelete(del: DeleteBuilder)
  {
    /** The builder's own objects. */
    function Own(): set<object> {
      match this
      case OfSelect(b) => {b, b.using}
      case OfInsert(b) => {b, b.using}
      case OfUpdate(b) => {b, b.using}
      case OfDelete(b) => {b, b.using}
    }

    /** The arrays the builder reads, its own or shared. */
    function Arrays(): set<object>
      reads Own()
    {
      match this
      case OfSelect(b) =>
        var columns: set<object> := {b.distinct.arr, b.groupBy.arr, b.columns.arr};
        var comparators: set<object> := {b.whr.arr};
        columns + comparators
      case OfUpdate(b) => {b.whr.arr, b.cond.arr}
      case OfInsert(_) => {}
      case OfDelete(_) => {}
    }

    /** The arrays the builder may still write into. */
    function Spare(): (arrays: set<object>)
      reads Own()
      ensures arrays <= Arrays()
    {
      match this
      case OfSelect(b) => b.distinct.Spare() + b.groupBy.Spare() + b.columns.Spare() + b.whr.Spare()
      case OfUpdate(b) => b.whr.Spare() + b.cond.Spare()
      case OfInsert(_) => {}
      case OfDelete(_) => {}
    }

    /** The builder's slices are slices. */
    predicate Sliced()
      reads Own()
    {
      match this
      case OfSelect(b) => b.Valid()
      case OfUpdate(b) => b.Valid()
      case OfInsert(_) => true
      case OfDelete(_) => true
    }

    /** No slice of the builder has room in an array that another of its slices reads. */
    predicate Tidy()
      reads Own()
    {
      match this
      case OfSelect(b) =>
        && b.distinct.Spare() !! {b.groupBy.arr, b.columns.arr}
        && b.groupBy.Spare() !! {b.distinct.arr, b.columns.arr}
        && b.columns.Spare() !! {b.distinct.arr, b.groupBy.arr}
      case OfUpdate(b) => b.whr.Spare() !! {b.cond.arr} && b.cond.Spare() !! {b.whr.arr}
      case OfInsert(_) => true
      case OfDelete(_) => true
    }

    function State(): Statement
      requires Sliced()
      reads Own(), Arrays()
    {
      match this
      case OfSelect(b) => b.State()
      case OfInsert(b) => b.State()
      case OfUpdate(b) => b.State()
      case OfDelete(b) => b.State()
    }

    /** The builder keeps its arrays when it is compiled. */
    method ToCql() returns (stmt: string, names: seq<string>)
      requires Sliced()
      modifies Own()
      ensures Sliced() && State() == Compilation.After(old(State()))
      ensures stmt == Compilation.Stmt(old(State())) && names == Compilation.Names(old(State()))
      ensures Arrays() == old(Arrays()) && Spare() == old(Spare()) && Tidy() == old(Tidy())
    {
      match this
      case OfSelect(x) => stmt, names := x.ToCql();
      case OfInsert(x) => stmt, names := x.ToCql();
      case OfUpdate(x) => stmt, names := x.ToCql();
      case OfDelete(x) => stmt, names := x.ToCql();
    }
  }
}
