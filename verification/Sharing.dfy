/**
 The pool of builders taken from one table. Slices of the table, of the builders and of the
 client share arrays; the results here say when nobody notices.
 */
module Sharing {
  import opened Statements
  import opened Builders
  import opened Tables
  import opened Clients

  /** `b` holds statement `s` and writes into no array of the table. */
  ghost predicate Fits(t: Table, b: Builder, s: Statement)
    reads b.Own(), b.Arrays()
  {
    b.Sliced() && b.Tidy() && b.State() == s && b.Spare() + b.Own() !! t.Arrays()
  }

  /** `x` reads none of `spare` and writes into none of `arrays`, and shares no objects with `own`. */
  ghost predicate Avoids(x: Builder, own: set<object>, arrays: set<object>, spare: set<object>)
    reads x.Own()
  {
    x.Own() !! own && x.Own() + x.Spare() !! arrays && own + spare !! x.Arrays()
  }

  /** The two builders share no objects, and neither may write into an array the other reads. */
  ghost predicate Strangers(x: Builder, y: Builder)
    reads x.Own(), y.Own()
  {
    Avoids(x, y.Own(), y.Arrays(), y.Spare())
  }

  /** The pool holds the statements `states`, every builder on its own. */
  ghost predicate Sound(t: Table, pool: seq<Builder>, states: seq<Statement>)
    reads t.Arrays()
    reads set i, o | 0 <= i < |pool| && o in pool[i].Own() :: o
    reads set i, o | 0 <= i < |pool| && o in pool[i].Arrays() :: o
  {
    && t.Valid() && |states| == |pool|
    && (forall i :: 0 <= i < |pool| ==> Fits(t, pool[i], states[i]))
    && (forall i, j :: 0 <= i < j < |pool| ==> Strangers(pool[i], pool[j]))
  }

  /** All that the builders of the pool may write to. */
  function Footprint(pool: seq<Builder>): set<object>
    reads set i, o | 0 <= i < |pool| && o in pool[i].Own() :: o
  {
    set i, o | 0 <= i < |pool| && o in pool[i].Own() + pool[i].Spare() :: o
  }

  /** The builders of the pool welcome the slices that are still to come. */
  ghost predicate Waits(pool: seq<Builder>, lent: set<object>, lentSpare: set<object>)
    reads set i, o | 0 <= i < |pool| && o in pool[i].Own() :: o
  {
    forall i :: 0 <= i < |pool| ==> Welcomes(pool[i], lent, lentSpare) && pool[i].Own() !! lent
  }

  /** The slice of `c` is not the table's own, and it shares no room with those still to come after it. */
  ghost predicate Arrives(t: Table, c: SliceCall, lent: set<object>, lentSpare: set<object>) {
    && WellFormed(c) && Lent(c) + lent !! t.Arrays()
    && lentSpare <= lent && Lent(c) !! lentSpare && LentSpare(c) !! lent
  }

  // ---- taking a builder ----

  /** All that the builders of the pool consist of and read. */
  ghost function Reached(pool: seq<Builder>): set<object>
    reads set i, o | 0 <= i < |pool| && o in pool[i].Own() :: o
  {
    if pool == [] then {} else Reached(pool[1..]) + pool[0].Own() + pool[0].Arrays()
  }

  lemma {:induction false} ReachedHas(pool: seq<Builder>, i: nat)
    requires i < |pool|
    ensures pool[i].Own() <= Reached(pool) && pool[i].Arrays() <= Reached(pool)
  {
    if i > 0 {
      ReachedHas(pool[1..], i - 1);
    }
  }

  /** A new builder reads the table's arrays, those of the call, and new ones; it has room in those of the call only. */
  lemma {:induction false} Meet(t: Table, x: Builder, s: Statement, b: Builder, lent: set<object>,
                                lentSpare: set<object>, known: set<object>)
    requires Fits(t, x, s) && Welcomes(x, lent, lentSpare) && x.Own() !! lent
    requires x.Own() <= known && x.Arrays() <= known && b.Own() !! known
    requires forall o :: o in b.Arrays() ==> o in t.Arrays() || o in lent || o !in known
    requires b.Spare() <= lentSpare
    ensures Strangers(x, b)
  {
  }

  /** A builder just handed out fits and welcomes the slices still to come. */
  method HandFit(t: Table, c: SliceCall, ghost v: ValueCall, ghost lent: set<object>, ghost lentSpare: set<object>,
                 ghost known: set<object>) returns (b: Builder)
    requires t.Valid() && c.Takes() && Arrives(t, c, lent, lentSpare) && v == Value(c) && v.Takes()
    ensures t.Valid() && fresh(b.Own()) && Fits(t, b, Taken(t.metadata, v)) && Welcomes(b, lent, lentSpare)
    ensures b.Spare() <= LentSpare(c) && b.Own() !! known
    ensures forall o :: o in b.Arrays() ==> o in t.Arrays() || o in Lent(c) || o !in known
  {
    hide Builder.State, Builder.Sliced, Builder.Tidy, Builder.Spare, Table.Valid, Taken, Value, WellFormed, Lent,
         LentSpare;
    b := Hand(t, c);
  }

  /** It is a stranger to the whole pool. */
  method HandStranger(t: Table, c: SliceCall, ghost v: ValueCall, pool: seq<Builder>, ghost states: seq<Statement>,
                      ghost lent: set<object>, ghost lentSpare: set<object>) returns (b: Builder)
    requires Sound(t, pool, states) && c.Takes() && Arrives(t, c, lent, lentSpare) && v == Value(c) && v.Takes()
    requires Waits(pool, Lent(c), LentSpare(c))
    ensures t.Valid() && fresh(b.Own()) && Fits(t, b, Taken(t.metadata, v)) && Welcomes(b, lent, lentSpare)
    ensures b.Spare() <= LentSpare(c)
    ensures forall i :: 0 <= i < |pool| ==> Fits(t, pool[i], states[i]) && Strangers(pool[i], b)
    ensures forall i, j :: 0 <= i < j < |pool| ==> Strangers(pool[i], pool[j])
  {
    hide Builder.State, Builder.Sliced, Builder.Tidy, Builder.Spare, Table.Valid, Table.Arrays, Taken, Value,
         WellFormed, Lent, LentSpare, Fits, Welcomes, Strangers, Reached;
    ghost var known := Reached(pool);
    forall i | 0 <= i < |pool| ensures pool[i].Own() <= known && pool[i].Arrays() <= known {
      ReachedHas(pool, i);
    }
    b := HandFit(t, c, v, lent, lentSpare, known);
    forall i | 0 <= i < |pool| ensures Fits(t, pool[i], states[i]) && Strangers(pool[i], b) {
      Meet(t, pool[i], states[i], b, Lent(c), LentSpare(c), known);
    }
  }

  method Take(t: Table, c: SliceCall, ghost v: ValueCall, pool: seq<Builder>, ghost states: seq<Statement>,
              ghost lent: set<object>, ghost lentSpare: set<object>) returns (more: seq<Builder>)
    requires Sound(t, pool, states) && c.Takes() && Arrives(t, c, lent, lentSpare) && v == Value(c) && v.Takes()
    requires Waits(pool, Lent(c) + lent, LentSpare(c) + lentSpare)
    ensures Sound(t, more, Step(t.metadata, states, v)) && Waits(more, lent, lentSpare)
    ensures forall o :: o in Footprint(more) ==> o in Footprint(pool) || o in LentSpare(c) || fresh(o)
  {
    hide Fits, Strangers, Table.Valid, Table.Arrays, Taken, Value, WellFormed, Lent, LentSpare;
    WaitsForEach(pool, Lent(c), LentSpare(c), lent, lentSpare);
    var b := HandStranger(t, c, v, pool, states, lent, lentSpare);
    more := pool + [b];
  }

  lemma {:induction false} WaitsForEach(pool: seq<Builder>, lent: set<object>, lentSpare: set<object>,
                                        others: set<object>, othersSpare: set<object>)
    requires Waits(pool, lent + others, lentSpare + othersSpare)
    ensures Waits(pool, lent, lentSpare) && Waits(pool, others, othersSpare)
  {
  }

  // ---- changing a builder ----

  /** A call and the same call with its values are of one kind. */
  predicate SameKind(c: SliceCall, v: ValueCall) {
    && v.Takes() == c.Takes() && v.Changes() == c.Changes() && v.Ask? == c.Ask? && v.ToCql? == c.ToCql?
    && (c.Changes() ==> v.k == c.k)
  }

  lemma {:induction false} ValueKind(c: SliceCall)
    requires WellFormed(c)
    ensures SameKind(c, Value(c))
  {
  }

  lemma {:induction false} AvoidsOwn(x: Builder, y: Builder)
    requires Strangers(x, y)
    ensures x.Own() + x.Arrays() !! y.Own() + y.Spare()
  {
  }

  /** `now` holds what was in `before`, what was lent, and things nobody knew. */
  ghost predicate Only(now: set<object>, before: set<object>, lent: set<object>, known: set<object>) {
    forall o :: o in now ==> o in before || o in lent || o !in known
  }

  /** A stranger that gained nothing but what was lent and what is new stays a stranger. */
  lemma {:induction false} StayStrangers(x: Builder, y: Builder, arrays: set<object>, spare: set<object>,
                                         lent: set<object>, lentSpare: set<object>, known: set<object>)
    requires Avoids(x, y.Own(), arrays, spare) && Welcomes(x, lent, lentSpare) && x.Own() !! lent
    requires x.Own() <= known && x.Arrays() <= known
    requires Only(y.Arrays(), arrays, lent, known) && Only(y.Spare(), spare, lentSpare, known)
    ensures Strangers(x, y) && Strangers(y, x)
  {
  }

  /** Builder `k` of the pool is a stranger to all others. */
  ghost predicate Alone(t: Table, pool: seq<Builder>, states: seq<Statement>, k: nat)
    requires k < |pool| == |states|
    reads *
  {
    && Fits(t, pool[k], states[k])
    && forall i :: 0 <= i < |pool| && i != k ==>
         Fits(t, pool[i], states[i]) && Strangers(pool[i], pool[k]) && Strangers(pool[k], pool[i])
  }

  /** The builders of the pool consist of and read known things only. */
  ghost predicate AllKnown(pool: seq<Builder>, known: set<object>)
    reads set i, o | 0 <= i < |pool| && o in pool[i].Own() :: o
  {
    forall i :: 0 <= i < |pool| ==> pool[i].Own() <= known && pool[i].Arrays() <= known
  }

  /** A builder that welcomes the argument of a call fits afterwards. */
  method ChangeFit(t: Table, c: SliceCall, ghost v: ValueCall, b: Builder, ghost s: Statement, ghost known: set<object>)
    returns (said: seq<Cql>)
    requires t.Valid() && Fits(t, b, s) && c.Changes() && WellFormed(c) && v == Value(c) && v.Changes()
    requires Welcomes(b, Lent(c), LentSpare(c)) && Lent(c) !! t.Arrays()
    modifies b.Own(), b.Spare()
    ensures t.Valid() && Fits(t, b, Changed(s, v)) && said == (if c.ToCql? then [Tables.ToCql(s)] else [])
    ensures Only(b.Arrays(), old(b.Arrays()), Lent(c), known) && Only(b.Spare(), old(b.Spare()), LentSpare(c), known)
    ensures forall o :: o in b.Spare() ==> o in old(b.Spare()) || o in LentSpare(c) || fresh(o)
  {
    hide Builder.State, Builder.Sliced, Builder.Tidy, Builder.Arrays, Builder.Spare, Table.Valid, Changed, Value,
         WellFormed, Lent, LentSpare, Welcomes;
    said := Change(b, c);
  }

  /** A call on one builder leaves the table and all others as they are. */
  method ChangeKept(t: Table, c: SliceCall, ghost v: ValueCall, pool: seq<Builder>, ghost states: seq<Statement>,
                    ghost known: set<object>) returns (said: seq<Cql>)
    requires t.Valid() && c.Changes() && WellFormed(c) && v == Value(c) && SameKind(c, v)
    requires c.k < |pool| == |states| && Fits(t, pool[c.k], states[c.k])
    requires Welcomes(pool[c.k], Lent(c), LentSpare(c)) && Lent(c) !! t.Arrays()
    requires forall i :: 0 <= i < |pool| && i != c.k ==>
      Fits(t, pool[i], states[i]) && pool[i].Own() + pool[i].Arrays() !! pool[c.k].Own() + pool[c.k].Spare()
    modifies pool[c.k].Own(), pool[c.k].Spare()
    ensures t.Valid() && Fits(t, pool[c.k], Changed(states[c.k], v)) && said == Said(t.metadata, states, v)
    ensures Only(pool[c.k].Arrays(), old(pool[c.k].Arrays()), Lent(c), known)
    ensures Only(pool[c.k].Spare(), old(pool[c.k].Spare()), LentSpare(c), known)
    ensures forall o :: o in pool[c.k].Spare() ==> o in old(pool[c.k].Spare()) || o in LentSpare(c) || fresh(o)
    ensures forall i :: 0 <= i < |pool| && i != c.k ==>
      && Fits(t, pool[i], states[i])
      && pool[i].Arrays() == old(pool[i].Arrays()) && pool[i].Spare() == old(pool[i].Spare())
  {
    hide Fits, Table.Valid, Table.Arrays, Changed, Builder.Spare, Builder.State, Builder.Sliced, Builder.Tidy, Value,
         WellFormed, Lent, LentSpare, Welcomes, Only;
    said := ChangeFit(t, c, v, pool[c.k], states[c.k], known);
  }

  /** It stays alone. */
  method ChangeAlone(t: Table, c: SliceCall, ghost v: ValueCall, pool: seq<Builder>, ghost states: seq<Statement>,
                     ghost known: set<object>) returns (said: seq<Cql>)
    requires t.Valid() && c.Changes() && WellFormed(c) && v == Value(c) && SameKind(c, v)
    requires c.k < |pool| == |states| && Alone(t, pool, states, c.k) && AllKnown(pool, known)
    requires Waits(pool, Lent(c), LentSpare(c)) && Lent(c) !! t.Arrays()
    modifies pool[c.k].Own(), pool[c.k].Spare()
    ensures t.Valid() && Alone(t, pool, states[c.k := Changed(states[c.k], v)], c.k)
    ensures said == Said(t.metadata, states, v)
    ensures Only(pool[c.k].Arrays(), old(pool[c.k].Arrays()), Lent(c), known)
    ensures Only(pool[c.k].Spare(), old(pool[c.k].Spare()), LentSpare(c), known)
    ensures forall o :: o in pool[c.k].Spare() ==> o in old(pool[c.k].Spare()) || o in LentSpare(c) || fresh(o)
    ensures forall i :: 0 <= i < |pool| && i != c.k ==>
      pool[i].Arrays() == old(pool[i].Arrays()) && pool[i].Spare() == old(pool[i].Spare())
  {
    hide Table.Valid, Table.Arrays, Changed, Fits, Avoids, Builder.Spare, Builder.State, Builder.Sliced, Builder.Tidy,
         Value, WellFormed, Lent, LentSpare, Welcomes, Only;
    ghost var k, y := c.k, pool[c.k];
    ghost var arrays, spare := y.Arrays(), y.Spare();
    ghost var next := states[k := Changed(states[k], v)];
    forall i | 0 <= i < |pool| && i != k ensures pool[i].Own() + pool[i].Arrays() !! y.Own() + y.Spare() {
      AvoidsOwn(pool[i], y);
    }
    said := ChangeKept(t, c, v, pool, states, known);
    forall i | 0 <= i < |pool| && i != k
      ensures Fits(t, pool[i], next[i]) && Strangers(pool[i], y) && Strangers(y, pool[i])
    {
      var x := pool[i];
      assert old(Strangers(x, y));
      assert Avoids(x, y.Own(), arrays, spare);
      StayStrangers(x, y, arrays, spare, Lent(c), LentSpare(c), known);
    }
  }

  lemma {:induction false} SoundAlone(t: Table, pool: seq<Builder>, states: seq<Statement>, k: nat)
    requires Sound(t, pool, states) && k < |pool|
    ensures Alone(t, pool, states, k)
  {
    hide Fits, Table.Valid, Table.Arrays, Builder.Spare, Builder.Arrays, Builder.State, Builder.Sliced, Builder.Tidy;
    forall i | 0 <= i < |pool| && i != k
      ensures Fits(t, pool[i], states[i]) && Strangers(pool[i], pool[k]) && Strangers(pool[k], pool[i])
    {
      assert Strangers(if i < k then pool[i] else pool[k], if i < k then pool[k] else pool[i]);
    }
  }

  /** A builder that gained nothing but what was lent and what is new still welcomes what is to come. */
  lemma {:induction false} StillWelcomes(y: Builder, arrays: set<object>, spare: set<object>, now: set<object>,
                                         nowSpare: set<object>, lent: set<object>, lentSpare: set<object>,
                                         known: set<object>)
    requires spare !! lent && arrays !! lentSpare && lentSpare <= lent <= known && now !! lentSpare && nowSpare !! lent
    requires Only(y.Arrays(), arrays, now, known) && Only(y.Spare(), spare, nowSpare, known)
    ensures Welcomes(y, lent, lentSpare)
  {
  }

  /** A call on builder `k` leaves the table and every other builder of the pool as they are. */
  method ChangeOne(t: Table, c: SliceCall, ghost v: ValueCall, pool: seq<Builder>, ghost states: seq<Statement>,
                   ghost lent: set<object>, ghost lentSpare: set<object>) returns (said: seq<Cql>)
    requires Sound(t, pool, states) && c.Changes() && Arrives(t, c, lent, lentSpare) && v == Value(c) && SameKind(c, v)
    requires Waits(pool, Lent(c) + lent, LentSpare(c) + lentSpare) && c.k < |pool|
    modifies pool[c.k].Own(), pool[c.k].Spare()
    ensures Sound(t, pool, Step(t.metadata, states, v)) && said == Said(t.metadata, states, v)
    ensures Waits(pool, lent, lentSpare)
    ensures forall o :: o in Footprint(pool) ==> o in old(Footprint(pool)) || o in LentSpare(c) || fresh(o)
  {
    hide Fits, Table.Valid, Table.Arrays, Changed, Builder.Spare, Builder.Arrays, Builder.State, Builder.Sliced,
         Builder.Tidy, Value, WellFormed, Lent, LentSpare, Only, Reached;
    ghost var known, k := Reached(pool) + lent, c.k;
    SoundAlone(t, pool, states, k);
    WaitsForEach(pool, Lent(c), LentSpare(c), lent, lentSpare);
    forall i | 0 <= i < |pool| ensures pool[i].Own() <= known && pool[i].Arrays() <= known {
      ReachedHas(pool, i);
    }
    ghost var arrays, spare := pool[k].Arrays(), pool[k].Spare();
    said := ChangeAlone(t, c, v, pool, states, known);
    StillWelcomes(pool[k], arrays, spare, Lent(c), LentSpare(c), lent, lentSpare, known);
    forall i, j | 0 <= i < j < |pool| ensures Strangers(pool[i], pool[j]) {
      assert old(Strangers(pool[i], pool[j]));
    }
    forall o | o in Footprint(pool) ensures o in old(Footprint(pool)) || o in LentSpare(c) || fresh(o) {
      var i :| 0 <= i < |pool| && o in pool[i].Own() + pool[i].Spare();
      assert o in old(pool[i].Own() + pool[i].Spare()) || o in LentSpare(c) || fresh(o);
    }
  }

  // ---- lists of calls ----

  /** The builders do not notice the table's own statements. */
  method AskValue(t: Table, c: SliceCall, ghost v: ValueCall) returns (said: Cql)
    requires t.Valid() && c.Ask? && WellFormed(c) && v == Value(c)
    ensures t.Valid() && v.Ask? && said == Tables.ToCql(Answer(t.metadata, v.question))
  {
    hide Answer, Table.Valid, Table.Arrays;
    said := AskTable(t, c.question);
  }

  method AskBeside(t: Table, c: SliceCall, ghost v: ValueCall, pool: seq<Builder>, ghost states: seq<Statement>)
    returns (said: seq<Cql>)
    requires Sound(t, pool, states) && c.Ask? && WellFormed(c) && v == Value(c)
    ensures Sound(t, pool, states) && said == Said(t.metadata, states, v)
    ensures Footprint(pool) == old(Footprint(pool))
  {
    hide Answer, Table.Valid, Table.Arrays, Builder.State, Builder.Sliced, Builder.Tidy, WellFormed, Value;
    var answer := AskValue(t, c, v);
    said := [answer];
    forall i | 0 <= i < |pool| ensures Fits(t, pool[i], states[i]) {
      assert old(Fits(t, pool[i], states[i]));
    }
    forall i, j | 0 <= i < j < |pool| ensures Strangers(pool[i], pool[j]) {
      assert old(Strangers(pool[i], pool[j]));
    }
  }

  method ServeOne(t: Table, c: SliceCall, ghost v: ValueCall, pool: seq<Builder>, ghost states: seq<Statement>,
                  ghost lent: set<object>, ghost lentSpare: set<object>) returns (more: seq<Builder>, said: seq<Cql>)
    requires Sound(t, pool, states) && Arrives(t, c, lent, lentSpare) && v == Value(c)
    requires Waits(pool, Lent(c) + lent, LentSpare(c) + lentSpare)
    modifies Footprint(pool)
    ensures Sound(t, more, Step(t.metadata, states, v)) && said == Said(t.metadata, states, v)
    ensures Waits(more, lent, lentSpare)
    ensures forall o :: o in Footprint(more) ==> o in old(Footprint(pool)) || o in LentSpare(c) || fresh(o)
  {
    hide Taken, Changed, Table.Valid, Table.Arrays, Fits, Strangers, Builder.State, Builder.Sliced, Builder.Tidy,
         Builder.Arrays, Builder.Spare, Value, WellFormed, Lent, LentSpare, Answer, Sound, Footprint;
    ValueKind(c);
    SoundTable(t, pool, states);
    WaitsForEach(pool, Lent(c), LentSpare(c), lent, lentSpare);
    more, said := pool, [];
    if c.Takes() {
      more := Take(t, c, v, pool, states, lent, lentSpare);
    } else if c.Ask? {
      said := AskBeside(t, c, v, pool, states);
    } else if c.k < |pool| {
      FootprintHas(pool, c.k);
      said := ChangeOne(t, c, v, pool, states, lent, lentSpare);
    }
  }

  lemma {:induction false} SoundTable(t: Table, pool: seq<Builder>, states: seq<Statement>)
    requires Sound(t, pool, states)
    ensures t.Valid() && |states| == |pool|
  {
  }

  lemma {:induction false} FootprintHas(pool: seq<Builder>, k: nat)
    requires k < |pool|
    ensures pool[k].Own() <= Footprint(pool) && pool[k].Spare() <= Footprint(pool)
  {
    assert forall o :: o in pool[k].Own() + pool[k].Spare() ==> o in Footprint(pool);
  }

  /** The arrays a list of calls lends. */
  function Lents(calls: seq<SliceCall>): set<object> {
    if calls == [] then {} else Lent(calls[0]) + Lents(calls[1..])
  }

  /** Those that a builder may find room in. */
  function LentSpares(calls: seq<SliceCall>): (arrays: set<object>)
    ensures arrays <= Lents(calls)
  {
    if calls == [] then {} else LentSpare(calls[0]) + LentSpares(calls[1..])
  }

  /**
   A slice with room shares its array with no other argument. Full slices may be the same
   or overlap, however often they are passed.
   */
  ghost predicate Apart(calls: seq<SliceCall>) {
    forall i, j :: 0 <= i < |calls| && 0 <= j < |calls| && i != j ==> LentSpare(calls[i]) !! Lent(calls[j])
  }

  /** Arguments without room are always apart. */
  lemma {:induction false} FullIsApart(calls: seq<SliceCall>)
    requires forall c :: c in calls ==> LentSpare(c) == {}
    ensures Apart(calls)
  {
  }

  lemma {:induction false} LentFrom(calls: seq<SliceCall>, n: nat, o: object) returns (j: nat)
    requires n <= |calls| && o in Lents(calls[n..])
    ensures n <= j < |calls| && o in Lent(calls[j])
    ensures o in LentSpares(calls[n..]) ==> exists k :: n <= k < |calls| && o in LentSpare(calls[k])
    decreases |calls| - n
  {
    assert calls[n..][1..] == calls[n + 1..];
    if o in Lents(calls[n + 1..]) {
      j := LentFrom(calls, n + 1, o);
    } else {
      j := n;
    }
  }

  /** The next argument shares no room with those after it. */
  lemma {:induction false} ApartNext(calls: seq<SliceCall>, n: nat)
    requires Apart(calls) && n < |calls|
    ensures Lent(calls[n]) !! LentSpares(calls[n + 1..]) && LentSpare(calls[n]) !! Lents(calls[n + 1..])
    ensures Lents(calls[n..]) == Lent(calls[n]) + Lents(calls[n + 1..])
    ensures LentSpares(calls[n..]) == LentSpare(calls[n]) + LentSpares(calls[n + 1..])
  {
    assert calls[n..][1..] == calls[n + 1..];
    forall o | o in Lents(calls[n + 1..])
      ensures o !in LentSpare(calls[n]) && (o in LentSpares(calls[n + 1..]) ==> o !in Lent(calls[n]))
    {
      var j := LentFrom(calls, n + 1, o);
      if o in LentSpares(calls[n + 1..]) {
        var k :| n + 1 <= k < |calls| && o in LentSpare(calls[k]);
      }
    }
  }

  /** The calls with the values that are in their slices now. */
  ghost function ValuesOf(calls: seq<SliceCall>): (values: seq<ValueCall>)
    requires forall c :: c in calls ==> WellFormed(c)
    reads Lents(calls)
    ensures |values| == |calls|
  {
    if calls == [] then [] else [Value(calls[0])] + ValuesOf(calls[1..])
  }

  /** The calls before `n` have been served; those from `n` on still mean `values`. */
  ghost predicate Serving(t: Table, calls: seq<SliceCall>, n: nat, pool: seq<Builder>, values: seq<ValueCall>)
    requires n <= |calls| == |values| && forall c :: c in calls ==> WellFormed(c)
    reads *
  {
    && Sound(t, pool, Run(t.metadata, values[..n]))
    && Waits(pool, Lents(calls[n..]), LentSpares(calls[n..])) && Lents(calls[n..]) !! t.Arrays()
    && ValuesOf(calls[n..]) == values[n..]
  }

  lemma {:induction false} ServingNext(t: Table, calls: seq<SliceCall>, n: nat, pool: seq<Builder>,
                                       values: seq<ValueCall>)
    requires n < |calls| == |values| && (forall c :: c in calls ==> WellFormed(c)) && Apart(calls)
    requires Serving(t, calls, n, pool, values)
    ensures var lent, lentSpare := Lents(calls[n + 1..]), LentSpares(calls[n + 1..]);
      && Arrives(t, calls[n], lent, lentSpare)
      && Waits(pool, Lent(calls[n]) + lent, LentSpare(calls[n]) + lentSpare)
      && values[n] == Value(calls[n]) && ValuesOf(calls[n + 1..]) == values[n + 1..]
      && Footprint(pool) !! lent
  {
    hide Sound, Lent, LentSpare, Value, WellFormed, Apart;
    ApartNext(calls, n);
    assert calls[n..][1..] == calls[n + 1..] && values[n..][1..] == values[n + 1..];
  }

  method ServeNext(t: Table, calls: seq<SliceCall>, n: nat, pool: seq<Builder>, ghost values: seq<ValueCall>,
                   ghost lent: set<object>) returns (more: seq<Builder>, said: seq<Cql>)
    requires n < |calls| == |values| && (forall c :: c in calls ==> WellFormed(c)) && Apart(calls)
    requires Serving(t, calls, n, pool, values) && lent == Lents(calls[n + 1..])
    modifies Footprint(pool)
    ensures Serving(t, calls, n + 1, more, values)
    ensures said == Said(t.metadata, Run(t.metadata, values[..n]), values[n])
    ensures forall o :: o in Footprint(more) ==> o in old(Footprint(pool)) || o in LentSpare(calls[n]) || fresh(o)
  {
    hide Step, Said, Sound, Waits, Footprint, Value, WellFormed, Lent, LentSpare, Lents, LentSpares, Apart;
    ServingNext(t, calls, n, pool, values);
    assert values[..n + 1][..n] == values[..n];
    more, said := ServeOne(t, calls[n], values[n], pool, Run(t.metadata, values[..n]), lent,
                           LentSpares(calls[n + 1..]));
  }

  lemma {:induction false} LentSparesHas(calls: seq<SliceCall>, n: nat)
    requires n < |calls|
    ensures LentSpare(calls[n]) <= LentSpares(calls)
  {
    if n > 0 {
      LentSparesHas(calls[1..], n - 1);
    }
  }

  /**
   Any calls on any builders of one table, with any slices of the client's that share no
   room: each builder ends up, and every statement comes out, as if builders, arguments and
   table shared nothing. The table itself is left untouched.
   */
  method Serve(t: Table, calls: seq<SliceCall>) returns (pool: seq<Builder>, said: seq<Cql>)
    requires t.Valid() && (forall c :: c in calls ==> WellFormed(c)) && Lents(calls) !! t.Arrays()
    requires Apart(calls)
    modifies LentSpares(calls)
    ensures Sound(t, pool, Run(t.metadata, old(ValuesOf(calls)))) && said == Returned(t.metadata, old(ValuesOf(calls)))
  {
    hide Step, Said, Sound, Serving, Value, WellFormed, Lent, LentSpare, Lents, LentSpares, Apart;
    pool, said := [], [];
    ghost var values := ValuesOf(calls);
    ServingNone(t, calls);
    for n := 0 to |calls|
      invariant Serving(t, calls, n, pool, values) && said == Returned(t.metadata, values[..n])
      invariant forall o :: o in Footprint(pool) ==> o in LentSpares(calls) || fresh(o)
    {
      LentSparesHas(calls, n);
      assert values[..n + 1][..n] == values[..n];
      var more: seq<Cql>;
      pool, more := ServeNext(t, calls, n, pool, values, Lents(calls[n + 1..]));
      said := said + more;
    }
    assert values[..|calls|] == values;
    ServedAll(t, calls, pool, values);
  }

  lemma {:induction false} ServingNone(t: Table, calls: seq<SliceCall>)
    requires t.Valid() && (forall c :: c in calls ==> WellFormed(c)) && Lents(calls) !! t.Arrays()
    ensures Serving(t, calls, 0, [], ValuesOf(calls))
  {
    assert calls[0..] == calls;
  }

  lemma {:induction false} ServedAll(t: Table, calls: seq<SliceCall>, pool: seq<Builder>, values: seq<ValueCall>)
    requires |calls| == |values| && (forall c :: c in calls ==> WellFormed(c))
    requires Serving(t, calls, |calls|, pool, values)
    ensures Sound(t, pool, Run(t.metadata, values))
  {
    assert values[..|calls|] == values;
  }

  // ---- whatever the client shares ----

  /** The builder has slices and writes into no array of the table. */
  ghost predicate Tame(t: Table, b: Builder)
    reads b.Own()
  {
    b.Sliced() && b.Own() + b.Spare() !! t.Arrays()
  }

  /** Neither builder writes to the other's own objects. */
  ghost predicate Beside(x: Builder, y: Builder)
    reads x.Own(), y.Own()
  {
    x.Own() !! y.Own() && x.Own() !! y.Spare() && y.Own() !! x.Spare()
  }

  ghost predicate AllTame(t: Table, pool: seq<Builder>, lent: set<object>)
    reads t.Arrays()
    reads set i, o | 0 <= i < |pool| && o in pool[i].Own() :: o
  {
    && t.Valid()
    && (forall i :: 0 <= i < |pool| ==> Tame(t, pool[i]) && pool[i].Own() !! lent)
    && (forall i, j :: 0 <= i < |pool| && 0 <= j < |pool| && i != j ==> Beside(pool[i], pool[j]))
  }

  method HandTame(t: Table, c: SliceCall, ghost known: set<object>) returns (b: Builder)
    requires t.Valid() && c.Takes() && WellFormed(c) && Lent(c) !! t.Arrays()
    ensures t.Valid() && fresh(b.Own()) && Tame(t, b) && b.Own() !! known && b.Spare() <= LentSpare(c)
  {
    hide Builder.State, Builder.Sliced, Builder.Tidy, Builder.Spare, Table.Valid, Taken, Value, WellFormed, Lent,
         LentSpare;
    b := Hand(t, c);
  }

  method TakeAny(t: Table, c: SliceCall, pool: seq<Builder>, ghost lent: set<object>) returns (more: seq<Builder>)
    requires AllTame(t, pool, lent) && c.Takes() && WellFormed(c) && Lent(c) !! t.Arrays() && Lent(c) <= lent
    ensures AllTame(t, more, lent) && |more| == |pool| + 1
    ensures forall o :: o in Footprint(more) ==> o in Footprint(pool) || o in LentSpare(c) || fresh(o)
  {
    hide Builder.State, Builder.Sliced, Builder.Tidy, Builder.Arrays, Builder.Spare, Table.Valid, Table.Arrays,
         WellFormed, Lent, LentSpare, Tame, Reached;
    ghost var known := Reached(pool) + lent;
    forall i | 0 <= i < |pool| ensures pool[i].Own() <= known && pool[i].Arrays() <= known {
      ReachedHas(pool, i);
    }
    var b := HandTame(t, c, known);
    more := pool + [b];
  }

  method ChangeTame(t: Table, c: SliceCall, b: Builder, ghost known: set<object>) returns (said: seq<Cql>)
    requires t.Valid() && Tame(t, b) && c.Changes() && WellFormed(c) && Lent(c) !! t.Arrays()
    modifies b.Own(), b.Spare()
    ensures |said| == if c.ToCql? then 1 else 0
    ensures t.Valid() && Tame(t, b) && Only(b.Spare(), old(b.Spare()), LentSpare(c), known)
    ensures forall o :: o in b.Spare() ==> o in old(b.Spare()) || o in LentSpare(c) || fresh(o)
  {
    hide Builder.State, Builder.Sliced, Builder.Tidy, Builder.Arrays, Builder.Spare, Table.Valid, Changed, Value,
         WellFormed, Lent, LentSpare;
    said := Change(b, c);
  }

  method ChangeAny(t: Table, c: SliceCall, pool: seq<Builder>, ghost lent: set<object>) returns (said: seq<Cql>)
    requires AllTame(t, pool, lent) && c.Changes() && c.k < |pool| && WellFormed(c) && Lent(c) !! t.Arrays()
    requires Lent(c) <= lent
    modifies pool[c.k].Own(), pool[c.k].Spare()
    ensures AllTame(t, pool, lent) && |said| == if c.ToCql? then 1 else 0
    ensures forall o :: o in Footprint(pool) ==> o in old(Footprint(pool)) || o in LentSpare(c) || fresh(o)
  {
    hide Builder.State, Builder.Sliced, Builder.Tidy, Builder.Arrays, Builder.Spare, Table.Valid, Table.Arrays,
         WellFormed, Lent, LentSpare, Tame, Reached, AllTame;
    said := ChangeOneAny(t, c, pool, lent);
    forall o | o in Footprint(pool) ensures o in old(Footprint(pool)) || o in LentSpare(c) || fresh(o) {
      var i :| 0 <= i < |pool| && o in pool[i].Own() + pool[i].Spare();
      assert o in old(pool[i].Own() + pool[i].Spare()) || o in LentSpare(c) || fresh(o);
    }
  }

  method ChangeOneAny(t: Table, c: SliceCall, pool: seq<Builder>, ghost lent: set<object>) returns (said: seq<Cql>)
    requires AllTame(t, pool, lent) && c.Changes() && c.k < |pool| && WellFormed(c) && Lent(c) !! t.Arrays()
    requires Lent(c) <= lent
    modifies pool[c.k].Own(), pool[c.k].Spare()
    ensures AllTame(t, pool, lent) && |said| == if c.ToCql? then 1 else 0
    ensures forall o :: o in pool[c.k].Spare() ==> o in old(pool[c.k].Spare()) || o in LentSpare(c) || fresh(o)
    ensures forall i :: 0 <= i < |pool| && i != c.k ==> pool[i].Spare() == old(pool[i].Spare())
  {
    hide Builder.State, Builder.Sliced, Builder.Tidy, Builder.Arrays, Builder.Spare, Table.Valid, Table.Arrays,
         WellFormed, Lent, LentSpare, Tame, Reached, Footprint;
    ghost var known := Reached(pool) + lent;
    forall i | 0 <= i < |pool| ensures pool[i].Own() <= known && pool[i].Arrays() <= known {
      ReachedHas(pool, i);
    }
    TableApart(t, pool, lent, c.k);
    said := ChangeTame(t, c, pool[c.k], known);
  }

  lemma {:induction false} TableApart(t: Table, pool: seq<Builder>, lent: set<object>, k: nat)
    requires AllTame(t, pool, lent) && k < |pool|
    ensures pool[k].Own() + pool[k].Spare() !! t.Arrays()
  {
  }

  /** One call, whatever its slice shares: the table is untouched, and its own statements are those of its metadata. */
  method ServeOneAny(t: Table, c: SliceCall, pool: seq<Builder>, ghost lent: set<object>)
    returns (more: seq<Builder>, said: seq<Cql>)
    requires AllTame(t, pool, lent) && WellFormed(c) && Lent(c) !! t.Arrays() && Lent(c) <= lent
    modifies Footprint(pool)
    ensures AllTame(t, more, lent)
    ensures |more| == |pool| + (if c.Takes() then 1 else 0) && |said| == (if Speaks(c, |pool|) then 1 else 0)
    ensures c.Ask? ==> said == Said(t.metadata, [], old(Value(c)))
    ensures forall o :: o in Footprint(more) ==> o in old(Footprint(pool)) || o in LentSpare(c) || fresh(o)
  {
    hide Builder.State, Builder.Sliced, Builder.Tidy, Builder.Arrays, Builder.Spare, Table.Valid, Table.Arrays,
         WellFormed, Lent, LentSpare, Tame, Beside, Footprint, Answer, Taken, Value;
    more, said := pool, [];
    if c.Takes() {
      more := TakeAny(t, c, pool, lent);
    } else if c.Ask? {
      said := AskAny(t, c, pool, lent);
    } else if c.k < |pool| {
      FootprintHas(pool, c.k);
      said := ChangeAny(t, c, pool, lent);
    }
  }

  method AskAny(t: Table, c: SliceCall, pool: seq<Builder>, ghost lent: set<object>) returns (said: seq<Cql>)
    requires AllTame(t, pool, lent) && c.Ask? && WellFormed(c)
    ensures AllTame(t, pool, lent) && |said| == 1 && said == Said(t.metadata, [], old(Value(c)))
    ensures Footprint(pool) == old(Footprint(pool))
  {
    hide Answer, Table.Valid, Table.Arrays, Builder.Sliced, Builder.State, Builder.Spare, Builder.Tidy, Tame, Beside;
    var answer := AskTable(t, c.question);
    said := [answer];
  }

  /** Whether a call on a pool of `n` builders returns a statement. */
  predicate Speaks(c: SliceCall, n: nat) {
    c.Ask? || (c.ToCql? && c.k < n)
  }

  /** The number of builders that calls take. */
  function TakenBy(calls: seq<SliceCall>): nat {
    if calls == [] then 0 else TakenBy(calls[..|calls| - 1]) + if calls[|calls| - 1].Takes() then 1 else 0
  }

  /** The slices whose array no slice with room shares still hold `values`. */
  ghost predicate Unmoved(calls: seq<SliceCall>, values: seq<ValueCall>)
    requires |calls| == |values| && forall c :: c in calls ==> WellFormed(c)
    reads Lents(calls) - LentSpares(calls)
  {
    forall i :: 0 <= i < |calls| && Lent(calls[i]) !! LentSpares(calls) ==>
      Lent(calls[i]) <= Lents(calls) - LentSpares(calls) && Value(calls[i]) == values[i]
  }

  /** At first all slices do. */
  lemma {:induction false} UnmovedFirst(calls: seq<SliceCall>)
    requires forall c :: c in calls ==> WellFormed(c)
    ensures forall i :: 0 <= i < |calls| ==> ValuesOf(calls)[i] == Value(calls[i])
    ensures Unmoved(calls, ValuesOf(calls))
  {
    hide Value, Lent, LentSpare, WellFormed, Lents, LentSpares, ValuesOf;
    forall i | 0 <= i < |calls| ensures ValuesOf(calls)[i] == Value(calls[i]) && Lent(calls[i]) <= Lents(calls) {
      ValueAt(calls, i);
      LentsHas(calls, i);
    }
  }

  lemma {:induction false} UnmovedAt(calls: seq<SliceCall>, values: seq<ValueCall>, i: nat)
    requires i < |calls| == |values| && (forall c :: c in calls ==> WellFormed(c)) && Unmoved(calls, values)
    ensures Lent(calls[i]) !! LentSpares(calls) ==> Value(calls[i]) == values[i]
  {
    hide Value, Lent, WellFormed, Lents, LentSpares;
  }

  lemma {:induction false} ValueAt(calls: seq<SliceCall>, i: nat)
    requires i < |calls| && forall c :: c in calls ==> WellFormed(c)
    ensures ValuesOf(calls)[i] == Value(calls[i])
  {
    hide Value, Lent, WellFormed;
    if i > 0 {
      ValueAt(calls[1..], i - 1);
    }
  }

  /** The next call, whatever its slice shares. */
  method ServeNextAny(t: Table, calls: seq<SliceCall>, n: nat, pool: seq<Builder>, ghost values: seq<ValueCall>,
                      ghost lent: set<object>, ghost kept: set<object>)
    returns (more: seq<Builder>, said: seq<Cql>)
    requires n < |calls| == |values| && (forall c :: c in calls ==> WellFormed(c)) && Lents(calls) !! t.Arrays()
    requires lent == Lents(calls) && kept == lent - LentSpares(calls)
    requires AllTame(t, pool, lent) && Unmoved(calls, values) && Footprint(pool) !! kept
    modifies Footprint(pool)
    ensures AllTame(t, more, lent) && Unmoved(calls, values) && Footprint(more) !! kept
    ensures |more| == |pool| + (if calls[n].Takes() then 1 else 0)
    ensures |said| == (if Speaks(calls[n], |pool|) then 1 else 0)
    ensures calls[n].Ask? && Lent(calls[n]) !! LentSpares(calls) ==> said == Said(t.metadata, [], values[n])
    ensures forall o :: o in Footprint(more) ==> o in old(Footprint(pool)) || o in LentSpares(calls) || fresh(o)
  {
    hide Table.Valid, Table.Arrays, AllTame, WellFormed, Lent, LentSpare, Lents, LentSpares, Footprint, Value, Answer,
         Said, Unmoved;
    LentSparesHas(calls, n);
    LentsHas(calls, n);
    UnmovedAt(calls, values, n);
    more, said := ServeOneAny(t, calls[n], pool, lent);
  }

  /** What was said so far: one list for each call, with the table's answers where nothing moved the question. */
  ghost predicate Heard(m: Metadata, calls: seq<SliceCall>, values: seq<ValueCall>, said: seq<seq<Cql>>)
    requires |said| <= |calls| == |values|
  {
    forall i :: 0 <= i < |said| ==>
      && |said[i]| == (if Speaks(calls[i], TakenBy(calls[..i])) then 1 else 0)
      && (calls[i].Ask? && Lent(calls[i]) !! LentSpares(calls) ==> said[i] == Said(m, [], values[i]))
  }

  lemma {:induction false} HeardMore(m: Metadata, calls: seq<SliceCall>, values: seq<ValueCall>, said: seq<seq<Cql>>,
                                     more: seq<Cql>)
    requires |said| < |calls| == |values| && Heard(m, calls, values, said)
    requires var n := |said|;
      && |more| == (if Speaks(calls[n], TakenBy(calls[..n])) then 1 else 0)
      && (calls[n].Ask? && Lent(calls[n]) !! LentSpares(calls) ==> more == Said(m, [], values[n]))
    ensures Heard(m, calls, values, said + [more])
    ensures TakenBy(calls[..|said| + 1]) == TakenBy(calls[..|said|]) + if calls[|said|].Takes() then 1 else 0
  {
    hide Said, Lent, LentSpares, Speaks;
    assert calls[..|said| + 1][..|said|] == calls[..|said|];
  }

  /**
   Any calls with any slices but the table's own, shared in any way. Every call is served, and
   the table stays as it is: whatever it is asked, its answer is the statement of its metadata
   and of the columns in the question, unless a slice with room shares their array.
   */
  method ServeAny(t: Table, calls: seq<SliceCall>) returns (pool: seq<Builder>, said: seq<seq<Cql>>)
    requires t.Valid() && (forall c :: c in calls ==> WellFormed(c)) && Lents(calls) !! t.Arrays()
    modifies LentSpares(calls)
    ensures t.Valid() && |pool| == TakenBy(calls) && |said| == |calls|
    ensures forall i :: 0 <= i < |calls| ==>
      |said[i]| == if calls[i].Ask? || (calls[i].ToCql? && calls[i].k < TakenBy(calls[..i])) then 1 else 0
    ensures forall i :: 0 <= i < |calls| && calls[i].Ask? && Lent(calls[i]) !! LentSpares(calls) ==>
      said[i] == Said(t.metadata, [], old(Value(calls[i])))
  {
    hide Table.Valid, Table.Arrays, AllTame, WellFormed, Lent, LentSpare, Lents, LentSpares, Footprint, Value, Said,
         Unmoved, Speaks, TakenBy, Heard;
    ghost var values, lent := ValuesOf(calls), Lents(calls);
    UnmovedFirst(calls);
    pool, said := ServeAll(t, calls, values, lent, lent - LentSpares(calls));
    assert calls[..|calls|] == calls;
    assert Heard(t.metadata, calls, values, said);
    HeardAll(t.metadata, calls, values, said);
    TameTable(t, pool, lent);
  }

  lemma {:induction false} HeardAll(m: Metadata, calls: seq<SliceCall>, values: seq<ValueCall>, said: seq<seq<Cql>>)
    requires |said| == |calls| == |values| && Heard(m, calls, values, said)
    ensures forall i :: 0 <= i < |calls| ==>
      |said[i]| == if calls[i].Ask? || (calls[i].ToCql? && calls[i].k < TakenBy(calls[..i])) then 1 else 0
    ensures forall i :: 0 <= i < |calls| && calls[i].Ask? && Lent(calls[i]) !! LentSpares(calls) ==>
      said[i] == Said(m, [], values[i])
  {
  }

  /** The loop over the calls. */
  method ServeAll(t: Table, calls: seq<SliceCall>, ghost values: seq<ValueCall>, ghost lent: set<object>,
                  ghost kept: set<object>)
    returns (pool: seq<Builder>, said: seq<seq<Cql>>)
    requires t.Valid() && |calls| == |values| && (forall c :: c in calls ==> WellFormed(c))
    requires Lents(calls) !! t.Arrays()
    requires lent == Lents(calls) && kept == lent - LentSpares(calls) && Unmoved(calls, values)
    modifies LentSpares(calls)
    ensures AllTame(t, pool, lent) && |pool| == TakenBy(calls[..|calls|]) && |said| == |calls|
    ensures Heard(t.metadata, calls, values, said)
  {
    hide Table.Valid, Table.Arrays, AllTame, WellFormed, Lent, LentSpare, Lents, LentSpares, Footprint, Value, Said,
         Unmoved, Speaks, Heard;
    pool, said := [], [];
    FootprintNone();
    TameTable(t, [], lent);
    HeardNone(t.metadata, calls, values);
    for n := 0 to |calls|
      invariant AllTame(t, pool, lent) && Unmoved(calls, values) && Footprint(pool) !! kept
      invariant |pool| == TakenBy(calls[..n]) && |said| == n && Heard(t.metadata, calls, values, said)
      invariant forall o :: o in Footprint(pool) ==> o in LentSpares(calls) || fresh(o)
    {
      var more: seq<Cql>;
      pool, more := ServeNextAny(t, calls, n, pool, values, lent, kept);
      HeardMore(t.metadata, calls, values, said, more);
      said := said + [more];
    }
  }

  lemma {:induction false} HeardNone(m: Metadata, calls: seq<SliceCall>, values: seq<ValueCall>)
    requires |calls| == |values|
    ensures Heard(m, calls, values, [])
  {
  }

  lemma {:induction false} TameTable(t: Table, pool: seq<Builder>, lent: set<object>)
    ensures AllTame(t, pool, lent) ==> t.Valid()
    ensures t.Valid() ==> AllTame(t, [], lent)
  {
  }

  lemma {:induction false} FootprintNone()
    ensures Footprint([]) == {}
  {
  }

  lemma {:induction false} LentsHas(calls: seq<SliceCall>, n: nat)
    requires n < |calls|
    ensures Lent(calls[n]) <= Lents(calls)
  {
    if n > 0 {
      LentsHas(calls[1..], n - 1);
    }
  }
}
