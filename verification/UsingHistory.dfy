/**
 What the USING clause says after any history of setters and writes, read off the history
 itself, and exactly when writing a clause twice gives the same clause.
 */
module UsingHistory {
  import opened Text
  import opened Docs
  import opened Durations
  import opened Using

  type History = seq<Event>

  /** The state the setters and writers of a history leave behind. */
  function Run(h: History): UsingState {
    if h == [] then UNSET else Apply(Run(h[..|h| - 1]), h[|h| - 1])
  }

  /** The position of the last event with property `p`, or -1. */
  function Last(h: History, p: Event -> bool): (k: int)
    ensures -1 <= k < |h|
    ensures k >= 0 ==> p(h[k])
    ensures forall j :: k < j < |h| ==> !p(h[j])
  {
    if h == [] then -1 else if p(h[|h| - 1]) then |h| - 1 else Last(h[..|h| - 1], p)
  }

  predicate SetsTtl(e: Event) { e.TTL? || e.TTLNamed? }
  predicate SetsTimestamp(e: Event) { e.Timestamp? || e.TimestampNamed? }
  predicate SetsTimeout(e: Event) { e.Timeout? || e.TimeoutNamed? }

  /** The name the last `TTLNamed` gave, whether or not a `TTL` came after it. */
  function LastTtlName(h: History): string {
    var k := Last(h, (e: Event) => e.TTLNamed?);
    if k < 0 then "" else h[k].name
  }

  /**
   The last of `TTL` and `TTLNamed` decides. A TTL of zero or minus one seconds prints as
   0 on the first write only; from then on the last name given, if any, shows through.
   */
  function TtlWanted(h: History): Ask {
    var k := Last(h, SetsTtl);
    if k < 0 then Nothing
    else if h[k].TTLNamed? then NameAsk(h[k].name)
    else
      var s := TtlSeconds(h[k].d);
      if s != 0 && s != -1 then Fixed(Itoa(s))
      else if Last(h, (e: Event) => e.Write?) < k then Fixed("0")
      else NameAsk(LastTtlName(h))
  }

  /** The last of `Timestamp` and `TimestampNamed` decides, but a later `TTL` erases a name. */
  function TimestampWanted(h: History): Ask {
    var k := Last(h, SetsTimestamp);
    if k < 0 then Nothing
    else if h[k].Timestamp? then
      var v := TimestampMicros(h[k].t);
      if v == 0 then Nothing else Fixed(Itoa(v))
    else if Last(h, (e: Event) => e.TTL?) > k then Nothing
    else NameAsk(h[k].name)
  }

  function TimeoutWanted(h: History): Ask {
    var k := Last(h, SetsTimeout);
    if k < 0 then Nothing
    else if h[k].TimeoutNamed? then NameAsk(h[k].name)
    else if h[k].d == 0 then Nothing
    else Fixed(DurationText(h[k].d))
  }

  /** After every history the clause is `USING c (AND c)*` of what the history asked for. */
  lemma {:induction false} ClauseOfHistory(d: Doc, h: History)
    ensures PutUsing(d, Run(h)) == PutAsks(d, TtlWanted(h), TimestampWanted(h), TimeoutWanted(h))
    ensures UsingNames(Run(h)) ==
      AskNames(TtlWanted(h)) + AskNames(TimestampWanted(h)) + AskNames(TimeoutWanted(h))
  {
    TtlOfHistory(h);
    TimestampOfHistory(h);
    TimeoutOfHistory(h);
  }

  lemma {:induction false} TtlOfHistory(h: History)
    ensures Run(h).ttlName == LastTtlName(h)
    ensures var k := Last(h, SetsTtl);
      Run(h).ttl ==
      if k < 0 || h[k].TTLNamed? then 0
      else if TtlSeconds(h[k].d) != 0 && TtlSeconds(h[k].d) != -1 then TtlSeconds(h[k].d)
      else if Last(h, (e: Event) => e.Write?) < k then -1 else 0
    ensures TtlAsk(Run(h)) == TtlWanted(h)
  {
    TtlFields(h);
    assert Itoa(0) == "0";
    var k := Last(h, SetsTtl);
    if k >= 0 && h[k].TTLNamed? {
      assert LastTtlName(h) == h[k].name;
    }
  }

  lemma {:induction false} TtlFields(h: History)
    ensures Run(h).ttlName == LastTtlName(h)
    ensures var k := Last(h, SetsTtl);
      Run(h).ttl ==
      if k < 0 || h[k].TTLNamed? then 0
      else if TtlSeconds(h[k].d) != 0 && TtlSeconds(h[k].d) != -1 then TtlSeconds(h[k].d)
      else if Last(h, (e: Event) => e.Write?) < k then -1 else 0
  {
    if h != [] {
      TtlFields(h[..|h| - 1]);
    }
  }

  lemma {:induction false} TimestampOfHistory(h: History)
    ensures var k := Last(h, SetsTimestamp);
      && Run(h).timestamp == (if k < 0 || h[k].TimestampNamed? then 0 else TimestampMicros(h[k].t))
      && Run(h).timestampName ==
         (if k < 0 || h[k].Timestamp? || Last(h, (e: Event) => e.TTL?) > k then "" else h[k].name)
    ensures TimestampAsk(Run(h)) == TimestampWanted(h)
  {
    if h != [] {
      TimestampOfHistory(h[..|h| - 1]);
    }
  }

  lemma {:induction false} TimeoutOfHistory(h: History)
    ensures var k := Last(h, SetsTimeout);
      && Run(h).timeout == (if k < 0 || h[k].TimeoutNamed? then 0 else h[k].d)
      && Run(h).timeoutName == (if k < 0 || h[k].Timeout? then "" else h[k].name)
    ensures TimeoutAsk(Run(h)) == TimeoutWanted(h)
  {
    if h != [] {
      TimeoutOfHistory(h[..|h| - 1]);
    }
  }

  /** A timeout clause without an amount is written exactly for a non-zero timeout below one millisecond. */
  lemma {:induction false} EmptyTimeout(u: UsingState)
    ensures TimeoutAsk(u) == Fixed("") <==> u.timeout != 0 && u.timeout < 1_000_000
  {
    DurationEmpty(u.timeout);
  }

  // ---- writing twice ----

  /** While a zero TTL is pending, the second write differs from the first in length or in names. */
  lemma {:induction false} PendingZeroTtlChanges(d: Doc, u: UsingState)
    requires u.ttl == -1
    ensures
      || |PutUsing(d, Written(u)).Stmt()| < |PutUsing(d, u).Stmt()|
      || |UsingNames(Written(u))| == |UsingNames(u)| + 1
  {
    var v := Written(u);
    assert TimestampAsk(v) == TimestampAsk(u) && TimeoutAsk(v) == TimeoutAsk(u);
    assert TtlAsk(u) == Fixed("0") by { assert Itoa(0) == "0"; }
    AsksLength(d, TtlAsk(u), TimestampAsk(u), TimeoutAsk(u));
    AsksLength(d, TtlAsk(v), TimestampAsk(u), TimeoutAsk(u));
  }

  function AskLength(first: bool, keyword: string, a: Ask): nat {
    match a
    case Nothing => 0
    case Fixed(text) => (if first then 6 else 4) + |keyword| + |text| + 1
    case ByName(_) => (if first then 6 else 4) + |keyword| + 2
  }

  lemma {:induction false} AsksLength(d: Doc, a: Ask, b: Ask, c: Ask)
    ensures |PutAsks(d, a, b, c).Stmt()| ==
      |d.Stmt()| + AskLength(true, "TTL ", a) + AskLength(a.Nothing?, "TIMESTAMP ", b)
      + AskLength(a.Nothing? && b.Nothing?, "TIMEOUT ", c)
  {
    AskGrows(d, true, "TTL ", a);
    AskGrows(PutAsk(d, true, "TTL ", a), a.Nothing?, "TIMESTAMP ", b);
    AskGrows(PutAsk(PutAsk(d, true, "TTL ", a), a.Nothing?, "TIMESTAMP ", b), a.Nothing? && b.Nothing?, "TIMEOUT ", c);
  }

  lemma {:induction false} AskGrows(d: Doc, first: bool, keyword: string, a: Ask)
    ensures |PutAsk(d, first, keyword, a).Stmt()| == |d.Stmt()| + AskLength(first, keyword, a)
  {
    var e := Put(Put(d, if first then "USING " else "AND "), keyword);
    assert |e.Stmt()| == |d.Stmt()| + (if first then 6 else 4) + |keyword|;
  }
}
