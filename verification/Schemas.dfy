/**
 The steps of cmd/schemagen/schemagen.go between the keyspace metadata and the template:
 resolving, dropping unused user types, collecting imports. Columns are the objects of the
 tables and of the base tables of views, in whatever order the maps give them; an object
 may come more than once.
 */
module Schemas {
  import opened CqlTypes
  import opened TypeRewriting

  class Column {
    var typ: GoType

    constructor (typ: GoType)
      ensures this.typ == typ
    {
      this.typ := typ;
    }
  }

  /** A user type; the types of its fields are in an array of the driver's. */
  datatype UserDefined = UserDefined(name: string, fields: array<GoType>)

  /** The memory is what `trees` says. */
  ghost predicate Described(trees: Trees)
    reads trees.Keys
  {
    forall a :: a in trees ==>
      a.Length == |trees[a]| && forall i :: 0 <= i < a.Length ==> Exact(a[i], trees[a][i], trees)
  }

  ghost function GoalsOf(trees: Trees, udts: set<string>, keyspace: string): Trees {
    map a | a in trees :: RewriteAll(trees[a], udts, keyspace)
  }

  lemma {:induction false} ExactToward(t: GoType, tree: Type, trees: Trees, udts: set<string>, keyspace: string)
    requires Exact(t, tree, trees)
    ensures Toward(t, Rewrite(tree, udts, keyspace), GoalsOf(trees, udts, keyspace), udts, keyspace)
    decreases t
  {
    match t
    case GoList(_, elem) => ExactToward(elem, tree.elem, trees, udts, keyspace);
    case GoMap(key, elem) =>
      ExactToward(key, tree.key, trees, udts, keyspace);
      ExactToward(elem, tree.elem, trees, udts, keyspace);
    case _ =>
  }

  lemma {:induction false} DescribedToward(trees: Trees, udts: set<string>, keyspace: string)
    requires Described(trees)
    ensures AllToward(GoalsOf(trees, udts, keyspace), udts, keyspace)
  {
    var goals := GoalsOf(trees, udts, keyspace);
    forall a, i | a in goals && 0 <= i < a.Length ensures Toward(a[i], goals[a][i], goals, udts, keyspace) {
      ExactToward(a[i], trees[a][i], trees, udts, keyspace);
    }
  }

  // ---- resolveUDTReferences ----

  /** Without known user types there is nothing to resolve. */
  lemma {:induction false} RewriteNothing(t: Type, keyspace: string)
    ensures Rewrite(t, {}, keyspace) == t
  {
    match t
    case ListOf(_, elem) => RewriteNothing(elem, keyspace);
    case MapOf(key, elem) =>
      RewriteNothing(key, keyspace);
      RewriteNothing(elem, keyspace);
    case Tuple(elems) =>
      forall i | 0 <= i < |elems| ensures Rewrite(elems[i], {}, keyspace) == elems[i] {
        RewriteNothing(elems[i], keyspace);
      }
      assert RewriteAll(elems, {}, keyspace) == elems;
    case _ =>
  }

  lemma {:induction false} GoalsOfNothing(trees: Trees, keyspace: string)
    ensures GoalsOf(trees, {}, keyspace) == trees
  {
    forall a | a in trees ensures RewriteAll(trees[a], {}, keyspace) == trees[a] {
      forall i | 0 <= i < |trees[a]| ensures RewriteAll(trees[a], {}, keyspace)[i] == trees[a][i] {
        RewriteNothing(trees[a][i], keyspace);
      }
    }
  }

  lemma {:induction false} ExactFinished(t: GoType, tree: Type, trees: Trees)
    requires Exact(t, tree, trees)
    ensures Finished(t, tree, trees, trees.Keys)
    decreases t
  {
    match t
    case GoList(_, elem) => ExactFinished(elem, tree.elem, trees);
    case GoMap(key, elem) =>
      ExactFinished(key, tree.key, trees);
      ExactFinished(elem, tree.elem, trees);
    case _ =>
  }

  /** The names of the keyspace's user types. */
  function Known(userTypes: seq<UserDefined>): set<string> {
    set u | u in userTypes :: u.name
  }

  /** The columns are the types `trees`, or what `trees` says they are to become. */
  ghost predicate ColumnsAre(columns: seq<Column>, trees: map<Column, Type>, heap: Trees)
    reads columns
  {
    forall c :: c in columns ==> c in trees && Exact(c.typ, trees[c], heap)
  }

  ghost predicate ColumnsToward(columns: seq<Column>, trees: map<Column, Type>, goals: Trees, udts: set<string>,
                                keyspace: string)
    reads columns
  {
    forall c :: c in columns ==> c in trees && Toward(c.typ, Rewrite(trees[c], udts, keyspace), goals, udts, keyspace)
  }

  /** The first `n` columns have been resolved. */
  ghost predicate Resolved(columns: seq<Column>, n: nat, trees: map<Column, Type>, goals: Trees,
                           udts: set<string>, keyspace: string, done: set<array<GoType>>)
    reads columns
  {
    forall i :: 0 <= i < n && i < |columns| ==>
      columns[i] in trees && Finished(columns[i].typ, Rewrite(trees[columns[i]], udts, keyspace), goals, done)
  }

  lemma {:induction false} ResolvedMore(columns: seq<Column>, n: nat, trees: map<Column, Type>, goals: Trees,
                                        udts: set<string>, keyspace: string, done: set<array<GoType>>,
                                        more: set<array<GoType>>)
    requires Resolved(columns, n, trees, goals, udts, keyspace, done) && done <= more
    ensures Resolved(columns, n, trees, goals, udts, keyspace, more)
  {
    forall i | 0 <= i < n && i < |columns|
      ensures Finished(columns[i].typ, Rewrite(trees[columns[i]], udts, keyspace), goals, more)
    {
      FinishedMore(columns[i].typ, Rewrite(trees[columns[i]], udts, keyspace), goals, done, more);
    }
  }

  method ResolveColumns(columns: seq<Column>, udts: set<string>, keyspace: string, ghost goals: Trees,
                        ghost trees: map<Column, Type>) returns (ghost done: set<array<GoType>>)
    requires AllToward(goals, udts, keyspace) && ColumnsToward(columns, trees, goals, udts, keyspace)
    modifies columns, goals.Keys
    ensures AllToward(goals, udts, keyspace) && Closed(goals, done)
    ensures Resolved(columns, |columns|, trees, goals, udts, keyspace, done)
  {
    done := {};
    for n := 0 to |columns|
      invariant AllToward(goals, udts, keyspace) && Closed(goals, done)
      invariant ColumnsToward(columns, trees, goals, udts, keyspace)
      invariant Resolved(columns, n, trees, goals, udts, keyspace, done)
    {
      done := ResolveColumn(columns, n, udts, keyspace, goals, trees, done);
    }
  }

  /** `c.Type = rewriteUDTTypeInfo(c.Type, ...)` for one column, perhaps not for the first time. */
  method ResolveColumn(columns: seq<Column>, n: nat, udts: set<string>, keyspace: string, ghost goals: Trees,
                       ghost trees: map<Column, Type>, ghost done: set<array<GoType>>)
    returns (ghost more: set<array<GoType>>)
    requires n < |columns| && AllToward(goals, udts, keyspace) && Closed(goals, done)
    requires ColumnsToward(columns, trees, goals, udts, keyspace)
    requires Resolved(columns, n, trees, goals, udts, keyspace, done)
    modifies columns[n], goals.Keys
    ensures AllToward(goals, udts, keyspace) && Closed(goals, more) && done <= more
    ensures ColumnsToward(columns, trees, goals, udts, keyspace)
    ensures Resolved(columns, n + 1, trees, goals, udts, keyspace, more)
  {
    hide Toward, Finished, Rewrite;
    var c := columns[n];
    var r;
    r, more := RewriteInPlace(c.typ, udts, keyspace, goals, Rewrite(trees[c], udts, keyspace), done);
    ResolvedMore(columns, n, trees, goals, udts, keyspace, done, more);
    c.typ := r;
  }

  method ResolveFields(userTypes: seq<UserDefined>, udts: set<string>, keyspace: string, ghost goals: Trees,
                       ghost done: set<array<GoType>>) returns (ghost more: set<array<GoType>>)
    requires AllToward(goals, udts, keyspace) && Closed(goals, done)
    requires forall u :: u in userTypes ==> u.fields in goals
    modifies goals.Keys
    ensures AllToward(goals, udts, keyspace) && Closed(goals, more) && done <= more
    ensures forall u :: u in userTypes ==> u.fields in more
  {
    more := done;
    for n := 0 to |userTypes|
      invariant AllToward(goals, udts, keyspace) && Closed(goals, more) && done <= more
      invariant forall i :: 0 <= i < n ==> userTypes[i].fields in more
    {
      ghost var a := userTypes[n].fields;
      more := RewriteElems(userTypes[n].fields, udts, keyspace, goals, Tuple(goals[a]), more);
    }
  }

  /**
   After resolution every column is its original type rewritten, and so is every field of
   a user type, however they share columns and tuple arrays and in whatever order they come.
   */
  method Resolve(columns: seq<Column>, userTypes: seq<UserDefined>, keyspace: string, ghost heap: Trees,
                 ghost trees: map<Column, Type>) returns (ghost done: set<array<GoType>>)
    requires Described(heap) && ColumnsAre(columns, trees, heap)
    requires forall u :: u in userTypes ==> u.fields in heap
    modifies columns, heap.Keys
    ensures var udts := Known(userTypes); var goals := GoalsOf(heap, udts, keyspace);
      && Closed(goals, done) && Resolved(columns, |columns|, trees, goals, udts, keyspace, done)
      && forall u :: u in userTypes ==> u.fields in done
  {
    var udts := Known(userTypes);
    ghost var goals := GoalsOf(heap, udts, keyspace);
    if |udts| == 0 {
      assert udts == {};
      GoalsOfNothing(heap, keyspace);
      done := heap.Keys;
      NothingToResolve(columns, trees, heap, keyspace);
      return;
    }
    DescribedToward(heap, udts, keyspace);
    forall c | c in columns ensures Toward(c.typ, Rewrite(trees[c], udts, keyspace), goals, udts, keyspace) {
      ExactToward(c.typ, trees[c], heap, udts, keyspace);
    }
    done := ResolveColumns(columns, udts, keyspace, goals, trees);
    ghost var before := done;
    done := ResolveFields(userTypes, udts, keyspace, goals, done);
    ResolvedMore(columns, |columns|, trees, goals, udts, keyspace, before, done);
  }

  lemma {:induction false} NothingToResolve(columns: seq<Column>, trees: map<Column, Type>, heap: Trees,
                                            keyspace: string)
    requires Described(heap) && ColumnsAre(columns, trees, heap)
    ensures Closed(heap, heap.Keys) && Resolved(columns, |columns|, trees, heap, {}, keyspace, heap.Keys)
  {
    forall a, i | a in heap && 0 <= i < a.Length ensures Finished(a[i], heap[a][i], heap, heap.Keys) {
      ExactFinished(a[i], heap[a][i], heap);
    }
    forall i | 0 <= i < |columns|
      ensures Finished(columns[i].typ, Rewrite(trees[columns[i]], {}, keyspace), heap, heap.Keys)
    {
      ExactFinished(columns[i].typ, trees[columns[i]], heap);
      RewriteNothing(trees[columns[i]], keyspace);
    }
  }
}
