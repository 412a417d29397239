/**
 The USING clause as text, with its amounts read back: after any history of setters and
 writes, what is printed for the last setter of a kind.
 */
module UsingTexts {
  import opened Wrappers
  import opened Text
  import opened Docs
  import opened Durations
  import opened Using
  import opened UsingHistory

  /** What one clause adds to the text. */
  function AskWords(first: bool, keyword: string, a: Ask): string {
    match a
    case Nothing => ""
    case Fixed(text) => (if first then "USING " else "AND ") + keyword + text + " "
    case ByName(_) => (if first then "USING " else "AND ") + keyword + "? "
  }

  lemma {:induction false} AskAdds(d: Doc, first: bool, keyword: string, a: Ask)
    ensures PutAsk(d, first, keyword, a).Stmt() == d.Stmt() + AskWords(first, keyword, a)
  {
    var s, p := d.Stmt(), if first then "USING " else "AND ";
    assert Put(Put(d, p), keyword).Stmt() == s + p + keyword;
    match a
    case Nothing => assert s + "" == s;
    case Fixed(text) => Regroup(s, p, keyword, text, " ");
    case ByName(_) =>
      Regroup(s, p, keyword, "?", " ");
      assert p + keyword + "?" + " " == p + keyword + "? ";
  }

  lemma {:induction false} Regroup(s: string, a: string, b: string, c: string, e: string)
    ensures s + a + b + c + e == s + (a + b + c + e)
  {
  }

  /** The whole clause is its three parts. */
  lemma {:induction false} UsingWords(d: Doc, u: UsingState)
    ensures PutUsing(d, u).Stmt() ==
      d.Stmt() + AskWords(true, "TTL ", TtlAsk(u))
      + AskWords(TtlAsk(u).Nothing?, "TIMESTAMP ", TimestampAsk(u))
      + AskWords(TtlAsk(u).Nothing? && TimestampAsk(u).Nothing?, "TIMEOUT ", TimeoutAsk(u))
  {
    hide AskWords, PutAsk, TtlAsk, TimestampAsk, TimeoutAsk;
    var a, b, c := TtlAsk(u), TimestampAsk(u), TimeoutAsk(u);
    var d1 := PutAsk(d, true, "TTL ", a);
    var d2 := PutAsk(d1, a.Nothing?, "TIMESTAMP ", b);
    AskAdds(d, true, "TTL ", a);
    AskAdds(d1, a.Nothing?, "TIMESTAMP ", b);
    AskAdds(d2, a.Nothing? && b.Nothing?, "TIMEOUT ", c);
  }

  /**
   A TTL prints its whole seconds, cut toward zero, but 0 for minus one; such a small TTL is
   printed only until the clause has been written once.
   */
  lemma {:induction false} TtlPrinted(d: Doc, h: History, k: nat) returns (amount: string, rest: string)
    requires k < |h| && h[k].TTL? && forall j :: k < j < |h| ==> !h[j].TTL? && !h[j].TTLNamed?
    requires -2_000_000_000 < h[k].d < 1_000_000_000 ==> forall j :: k < j < |h| ==> !h[j].Write?
    ensures PutUsing(d, Run(h)).Stmt() == d.Stmt() + "USING TTL " + amount + " " + rest
    ensures IsNumber(amount)
    ensures h[k].d >= 1_000_000_000 ==>
      ReadInt(amount) * 1_000_000_000 <= h[k].d < (ReadInt(amount) + 1) * 1_000_000_000
    ensures h[k].d <= -2_000_000_000 ==>
      (ReadInt(amount) - 1) * 1_000_000_000 < h[k].d <= ReadInt(amount) * 1_000_000_000
    ensures -2_000_000_000 < h[k].d < 1_000_000_000 ==> ReadInt(amount) == 0
  {
    TtlIsFixed(h, k);
    amount := TtlAmount(h[k].d);
    rest := FirstWords(d, Run(h), amount);
  }

  /** The text of a TTL. */
  lemma {:induction false} TtlAmount(d: int) returns (amount: string)
    ensures var n := TtlSeconds(d); amount == if n != 0 && n != -1 then Itoa(n) else "0"
    ensures IsNumber(amount)
    ensures d >= 1_000_000_000 ==> ReadInt(amount) * 1_000_000_000 <= d < (ReadInt(amount) + 1) * 1_000_000_000
    ensures d <= -2_000_000_000 ==> (ReadInt(amount) - 1) * 1_000_000_000 < d <= ReadInt(amount) * 1_000_000_000
    ensures -2_000_000_000 < d < 1_000_000_000 ==> ReadInt(amount) == 0
  {
    hide IsNumber, ReadInt, Itoa, Quo;
    var n := TtlSeconds(d);
    var shown := if n == -1 then 0 else n;
    amount := Itoa(shown);
    ReadItoa(shown);
    assert Itoa(0) == "0" by { ItoaZero(); }
  }

  lemma {:induction false} ItoaZero()
    ensures Itoa(0) == "0"
  {
  }

  lemma {:induction false} FirstWords(d: Doc, u: UsingState, amount: string) returns (rest: string)
    requires TtlAsk(u) == Fixed(amount) || (amount == "?" && TtlAsk(u).ByName?)
    ensures PutUsing(d, u).Stmt() == d.Stmt() + "USING TTL " + amount + " " + rest
  {
    hide PutUsing, TtlAsk, TimestampAsk, TimeoutAsk;
    UsingWords(d, u);
    rest := AskWords(false, "TIMESTAMP ", TimestampAsk(u)) + AskWords(false, "TIMEOUT ", TimeoutAsk(u));
    OwnWords(true, "TTL ", TtlAsk(u), amount);
    Regroup(d.Stmt(), "USING ", "TTL ", amount, " ");
    assert d.Stmt() + "USING " + "TTL " == d.Stmt() + "USING TTL ";
  }

  lemma {:induction false} TtlIsFixed(h: History, k: nat)
    requires k < |h| && h[k].TTL? && k == Last(h, SetsTtl)
    requires -2_000_000_000 < h[k].d < 1_000_000_000 ==> forall j :: k < j < |h| ==> !h[j].Write?
    ensures var n := TtlSeconds(h[k].d); TtlAsk(Run(h)) == Fixed(if n != 0 && n != -1 then Itoa(n) else "0")
  {
    hide Run, TtlAsk, Quo;
    TtlOfHistory(h);
    var n := TtlSeconds(h[k].d);
    if n == 0 || n == -1 {
      assert -2_000_000_000 < h[k].d < 1_000_000_000;
      var w := Last(h, (e: Event) => e.Write?);
      assert w < k;
    }
  }

  /** The text before the TIMESTAMP clause: the preamble, or a TTL clause and the word that joins the two. */
  ghost predicate Leads(before: string) {
    before == "USING " || exists ttl: string :: before == "USING TTL " + ttl + " AND "
  }

  /** A timestamp prints its whole microseconds, cut toward zero, unless there are none. */
  lemma {:induction false} TimestampPrinted(d: Doc, h: History, k: nat)
    returns (before: string, amount: string, rest: string)
    requires k < |h| && h[k].Timestamp? && forall j :: k < j < |h| ==> !h[j].Timestamp? && !h[j].TimestampNamed?
    requires h[k].t >= 1000 || h[k].t <= -1000
    ensures PutUsing(d, Run(h)).Stmt() == d.Stmt() + before + "TIMESTAMP " + amount + " " + rest
    ensures Leads(before) && IsNumber(amount)
    ensures h[k].t >= 1000 ==> ReadInt(amount) * 1000 <= h[k].t < (ReadInt(amount) + 1) * 1000
    ensures h[k].t <= -1000 ==> (ReadInt(amount) - 1) * 1000 < h[k].t <= ReadInt(amount) * 1000
  {
    TimestampOfHistory(h);
    var n := TimestampMicros(h[k].t);
    amount := Itoa(n);
    ReadItoa(n);
    before, rest := MiddleWords(d, Run(h), amount);
  }

  lemma {:induction false} MiddleWords(d: Doc, u: UsingState, text: string) returns (before: string, rest: string)
    requires TimestampAsk(u) == Fixed(text) || (text == "?" && TimestampAsk(u).ByName?)
    ensures PutUsing(d, u).Stmt() == d.Stmt() + before + "TIMESTAMP " + text + " " + rest
    ensures Leads(before)
  {
    hide PutUsing, TtlAsk, TimestampAsk, TimeoutAsk;
    UsingWords(d, u);
    var first := TtlAsk(u).Nothing?;
    var ttl := AskWords(true, "TTL ", TtlAsk(u));
    before := ttl + if first then "USING " else "AND ";
    rest := AskWords(false, "TIMEOUT ", TimeoutAsk(u));
    TtlLeads(TtlAsk(u));
    var own := AskWords(first, "TIMESTAMP ", TimestampAsk(u));
    assert own == (if first then "USING " else "AND ") + "TIMESTAMP " + text + " " by {
      OwnWords(first, "TIMESTAMP ", TimestampAsk(u), text);
    }
    Regroup(d.Stmt() + ttl, if first then "USING " else "AND ", "TIMESTAMP ", text, " ");
    assert d.Stmt() + ttl + (if first then "USING " else "AND ") == d.Stmt() + before;
  }

  lemma {:induction false} OwnWords(first: bool, keyword: string, a: Ask, text: string)
    requires a == Fixed(text) || (text == "?" && a.ByName?)
    ensures AskWords(first, keyword, a) == (if first then "USING " else "AND ") + keyword + text + " "
  {
    var s := (if first then "USING " else "AND ") + keyword;
    assert s + "? " == s + "?" + " ";
  }

  lemma {:induction false} TtlLeads(a: Ask)
    ensures Leads(AskWords(true, "TTL ", a) + if a.Nothing? then "USING " else "AND ")
  {
    var before := AskWords(true, "TTL ", a) + if a.Nothing? then "USING " else "AND ";
    if a.Nothing? {
      assert "" + "USING " == "USING ";
    } else {
      var text := if a.Fixed? then a.text else "?";
      OwnWords(true, "TTL ", a, text);
      assert before == "USING TTL " + text + " AND ";
    }
  }

  /**
   A name given last for the TTL, and for the timestamp if no `TTL` came after it, stands in the
   clause as a parameter.
   */
  lemma {:induction false} NamePrinted(d: Doc, h: History, k: nat) returns (before: string, rest: string)
    requires k < |h| && (h[k].TTLNamed? || h[k].TimestampNamed?) && h[k].name != ""
    requires h[k].TTLNamed? ==> forall j :: k < j < |h| ==> !h[j].TTL? && !h[j].TTLNamed?
    requires h[k].TimestampNamed? ==>
      forall j :: k < j < |h| ==> !h[j].TTL? && !h[j].Timestamp? && !h[j].TimestampNamed?
    ensures h[k].TTLNamed? ==>
      && PutUsing(d, Run(h)).Stmt() == d.Stmt() + "USING TTL ? " + rest
      && UsingNames(Run(h)) != [] && UsingNames(Run(h))[0] == h[k].name
    ensures h[k].TimestampNamed? ==>
      && PutUsing(d, Run(h)).Stmt() == d.Stmt() + before + "TIMESTAMP ? " + rest && Leads(before)
      && h[k].name in UsingNames(Run(h))
  {
    before := "";
    if h[k].TTLNamed? {
      TtlNamePrinted(h, k);
      rest := FirstWords(d, Run(h), "?");
      assert d.Stmt() + "USING TTL " + "?" + " " == d.Stmt() + "USING TTL ? ";
    } else {
      TimestampNamePrinted(h, k);
      before, rest := MiddleWords(d, Run(h), "?");
      assert d.Stmt() + before + "TIMESTAMP " + "?" + " " == d.Stmt() + before + "TIMESTAMP ? ";
    }
  }

  lemma {:induction false} TtlNamePrinted(h: History, k: nat)
    requires k < |h| && h[k].TTLNamed? && h[k].name != ""
    requires forall j :: k < j < |h| ==> !h[j].TTL? && !h[j].TTLNamed?
    ensures TtlAsk(Run(h)).ByName? && UsingNames(Run(h)) != [] && UsingNames(Run(h))[0] == h[k].name
  {
    TtlOfHistory(h);
  }

  lemma {:induction false} TimestampNamePrinted(h: History, k: nat)
    requires k < |h| && h[k].TimestampNamed? && h[k].name != ""
    requires forall j :: k < j < |h| ==> !h[j].TTL? && !h[j].Timestamp? && !h[j].TimestampNamed?
    ensures TimestampAsk(Run(h)).ByName? && h[k].name in UsingNames(Run(h))
  {
    TimestampOfHistory(h);
    assert Last(h, (e: Event) => e.TTL?) <= k;
  }

  /**
   A timeout prints, last of all, a text that reads back as its whole milliseconds; a name for
   it is a parameter.
   */
  lemma {:induction false} TimeoutPrinted(d: Doc, h: History, k: nat) returns (before: string, amount: string)
    requires k < |h| && forall j :: k < j < |h| ==> !h[j].Timeout? && !h[j].TimeoutNamed?
    requires (h[k].Timeout? && h[k].d != 0) || (h[k].TimeoutNamed? && h[k].name != "")
    ensures PutUsing(d, Run(h)).Stmt() == before + "TIMEOUT " + amount + " "
    ensures before == d.Stmt() + "USING " || exists w: string :: before == d.Stmt() + "USING " + w + "AND "
    ensures h[k].Timeout? && h[k].d > 0 ==> ParseDuration(amount) == Some(h[k].d - h[k].d % 1_000_000)
    ensures h[k].TimeoutNamed? ==> amount == "?" && h[k].name in UsingNames(Run(h))
  {
    hide PutUsing, DurationText, ParseDuration;
    TimeoutIs(h, k);
    amount := if h[k].Timeout? then DurationText(h[k].d) else "?";
    if h[k].Timeout? && h[k].d > 0 {
      DurationRoundTrip(h[k].d);
    }
    before := EndWords(d, Run(h), amount);
  }

  lemma {:induction false} TimeoutIs(h: History, k: nat)
    requires k < |h| && forall j :: k < j < |h| ==> !h[j].Timeout? && !h[j].TimeoutNamed?
    requires (h[k].Timeout? && h[k].d != 0) || (h[k].TimeoutNamed? && h[k].name != "")
    ensures h[k].Timeout? ==> TimeoutAsk(Run(h)) == Fixed(DurationText(h[k].d))
    ensures h[k].TimeoutNamed? ==> TimeoutAsk(Run(h)).ByName? && h[k].name in UsingNames(Run(h))
  {
    hide DurationText;
    TimeoutOfHistory(h);
  }

  lemma {:induction false} EndWords(d: Doc, u: UsingState, text: string) returns (before: string)
    requires TimeoutAsk(u) == Fixed(text) || (text == "?" && TimeoutAsk(u).ByName?)
    ensures PutUsing(d, u).Stmt() == before + "TIMEOUT " + text + " "
    ensures before == d.Stmt() + "USING " || exists w: string :: before == d.Stmt() + "USING " + w + "AND "
  {
    hide PutUsing, TtlAsk, TimestampAsk, TimeoutAsk;
    UsingWords(d, u);
    var a, b := TtlAsk(u), TimestampAsk(u);
    var first := a.Nothing? && b.Nothing?;
    var ttl, stamp := AskWords(true, "TTL ", a), AskWords(a.Nothing?, "TIMESTAMP ", b);
    before := d.Stmt() + ttl + stamp + if first then "USING " else "AND ";
    OwnWords(first, "TIMEOUT ", TimeoutAsk(u), text);
    Regroup(d.Stmt() + ttl + stamp, if first then "USING " else "AND ", "TIMEOUT ", text, " ");
    var w := BeginWords(a, b);
    if first {
      assert ttl == "" && stamp == "" && d.Stmt() + "" + "" == d.Stmt();
    } else {
      assert before == d.Stmt() + (ttl + stamp) + "AND ";
      assert before == d.Stmt() + "USING " + w + "AND ";
    }
  }

  lemma {:induction false} BeginWords(a: Ask, b: Ask) returns (w: string)
    ensures !a.Nothing? || !b.Nothing? ==>
      AskWords(true, "TTL ", a) + AskWords(a.Nothing?, "TIMESTAMP ", b) == "USING " + w
  {
    w := "";
    if !a.Nothing? {
      OwnWords(true, "TTL ", a, if a.Fixed? then a.text else "?");
      w := "TTL " + (if a.Fixed? then a.text else "?") + " " + AskWords(a.Nothing?, "TIMESTAMP ", b);
    } else if !b.Nothing? {
      OwnWords(true, "TIMESTAMP ", b, if b.Fixed? then b.text else "?");
      w := "TIMESTAMP " + (if b.Fixed? then b.text else "?") + " ";
    }
  }
}
