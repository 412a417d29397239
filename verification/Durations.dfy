/**
 `formatDuration` of qb/utils.go, and a reader of the texts it prints. Durations are
 nanoseconds: 60_000_000_000 to the minute, 1_000_000_000 to the second, 1_000_000 to
 the millisecond.
 */
module Durations {
  import opened Wrappers
  import opened Text

  /** Go's integer division truncates toward zero; `Rem` takes the sign of the dividend. */
  function Quo(a: int, b: int): int
    requires b > 0
  {
    if a >= 0 then a / b else -(-a / b)
  }

  function Rem(a: int, b: int): int
    requires b > 0
  {
    if a >= 0 then a % b else -(-a % b)
  }

  datatype Unit = Min | Sec | Milli
  {
    function Text(): string {
      match this case Min => "m" case Sec => "s" case Milli => "ms"
    }
  }

  function Part(n: int, unit: Unit): string {
    if n > 0 then Itoa(n) + unit.Text() else ""
  }

  function Minutes(d: int): int { Quo(d, 60_000_000_000) }
  function Seconds(d: int): int { Quo(Rem(d, 60_000_000_000), 1_000_000_000) }
  function Milliseconds(d: int): int { Quo(Rem(Rem(d, 60_000_000_000), 1_000_000_000), 1_000_000) }

  function DurationText(d: int): string {
    Part(Minutes(d), Min) + (Part(Seconds(d), Sec) + Part(Milliseconds(d), Milli))
  }

  function Join(parts: seq<string>): string {
    if parts == [] then "" else parts[0] + Join(parts[1..])
  }

  lemma {:induction false} JoinSnoc(parts: seq<string>, s: string)
    ensures Join(parts + [s]) == Join(parts) + s
  {
    if parts == [] {
      assert parts + [s] == [s] && [s][1..] == [];
    } else {
      assert (parts + [s])[1..] == parts[1..] + [s];
      JoinSnoc(parts[1..], s);
      assert parts[0] + (Join(parts[1..]) + s) == parts[0] + Join(parts[1..]) + s;
    }
  }

  method FormatDuration(duration: int) returns (text: string)
    ensures text == DurationText(duration)
  {
    var d := duration;
    var minutes := Quo(d, 60_000_000_000);
    d := Rem(d, 60_000_000_000);
    var seconds := Quo(d, 1_000_000_000);
    d := Rem(d, 1_000_000_000);
    var milliseconds := Quo(d, 1_000_000);

    var res: seq<string> := [];
    if minutes > 0 {
      JoinSnoc(res, Itoa(minutes) + "m");
      res := res + [Itoa(minutes) + "m"];
    }
    assert Join(res) == Part(minutes, Min);
    if seconds > 0 {
      JoinSnoc(res, Itoa(seconds) + "s");
      res := res + [Itoa(seconds) + "s"];
    }
    assert Join(res) == Part(minutes, Min) + Part(seconds, Sec);
    if milliseconds > 0 {
      JoinSnoc(res, Itoa(milliseconds) + "ms");
      res := res + [Itoa(milliseconds) + "ms"];
    }
    assert Join(res) == Part(minutes, Min) + Part(seconds, Sec) + Part(milliseconds, Milli);
    text := Join(res);
  }

  // ---- reading a duration text ----

  function DigitRun(s: string): (n: nat)
    ensures n <= |s|
  {
    if s == "" || !IsDigit(s[0]) then 0 else 1 + DigitRun(s[1..])
  }

  datatype Group = NoGroup | Group(amount: int, rest: string)

  /** The leading `<digits><unit>` group of a text, taking `ms` before `m`. */
  function FirstGroup(s: string): (g: Group)
    ensures g.Group? ==> |g.rest| < |s|
  {
    var k := DigitRun(s);
    var n := ParseDecimal(s[..k]);
    if k == 0 || k == |s| then NoGroup
    else if s[k] == 's' then Group(n * 1_000_000_000, s[k + 1..])
    else if s[k] != 'm' then NoGroup
    else if k + 1 < |s| && s[k + 1] == 's' then Group(n * 1_000_000, s[k + 2..])
    else Group(n * 60_000_000_000, s[k + 1..])
  }

  /** Reads a sequence of groups; nothing else is a duration. */
  function ParseDuration(s: string): Option<int>
    decreases |s|
  {
    if s == "" then Some(0) else
      match FirstGroup(s)
      case NoGroup => None
      case Group(n, rest) => Plus(n, ParseDuration(rest))
  }

  function Plus(n: int, rest: Option<int>): Option<int> {
    if rest.Some? then Some(n + rest.value) else None
  }

  function Amount(n: int, unit: Unit): int {
    match unit
    case Min => n * 60_000_000_000
    case Sec => n * 1_000_000_000
    case Milli => n * 1_000_000
  }

  lemma {:induction false} DigitRunIs(digits: string, rest: string)
    requires AllDigits(digits) && (rest != "" ==> !IsDigit(rest[0]))
    ensures DigitRun(digits + rest) == |digits|
  {
    if digits == "" {
      assert digits + rest == rest;
    } else {
      assert (digits + rest)[1..] == digits[1..] + rest;
      DigitRunIs(digits[1..], rest);
    }
  }

  lemma {:induction false} ParseGroup(digits: string, unit: Unit, rest: string)
    requires digits != "" && AllDigits(digits)
    requires unit == Min && rest != "" ==> rest[0] != 's'
    ensures FirstGroup(digits + (unit.Text() + rest)) == Group(Amount(ParseDecimal(digits), unit), rest)
  {
    var s := digits + (unit.Text() + rest);
    var k := |digits|;
    DigitRunIs(digits, unit.Text() + rest);
    assert s[..k] == digits;
    assert s[k] == unit.Text()[0];
    if unit == Milli {
      assert s[k + 1] == 's' && s[k + 2..] == rest;
    } else {
      assert s[k + 1..] == rest;
      assert k + 1 < |s| ==> s[k + 1] == rest[0];
    }
  }

  /** The three parts are in range and add up to the duration cut to whole milliseconds. */
  lemma {:induction false} Parts(d: int)
    requires d >= 0
    ensures 0 <= Seconds(d) < 60 && 0 <= Milliseconds(d) < 1000 && 0 <= Minutes(d)
    ensures Minutes(d) * 60_000_000_000 + Seconds(d) * 1_000_000_000 + Milliseconds(d) * 1_000_000 == d - d % 1_000_000
  {
  }

  /** The printed text reads back as the duration cut, not rounded, to milliseconds. */
  lemma {:induction false} DurationRoundTrip(d: int)
    requires d >= 0
    ensures ParseDuration(DurationText(d)) == Some(d - d % 1_000_000)
  {
    Parts(d);
    ParseSum(DurationText(d), Minutes(d), Seconds(d), Milliseconds(d), d - d % 1_000_000);
  }

  lemma {:induction false} ParseSum(text: string, m: nat, s: nat, ms: nat, sum: int)
    requires text == Part(m, Min) + (Part(s, Sec) + Part(ms, Milli))
    requires sum == Amount(m, Min) + Amount(s, Sec) + Amount(ms, Milli)
    ensures ParseDuration(text) == Some(sum)
  {
    hide *;
    ParseNothing();
    var p3, t3 := PartGroup(ms, Milli, "");
    ParseFrom(p3, t3, Amount(ms, Milli), "", 0);
    var p2, t2 := PartGroup(s, Sec, t3);
    ParseFrom(p2, t2, Amount(s, Sec), t3, Amount(ms, Milli));
    var p1, t1 := PartGroup(m, Min, t2);
    ParseFrom(p1, t1, Amount(m, Min), t2, Amount(s, Sec) + Amount(ms, Milli));
    assert t1 == text;
  }

  lemma {:induction false} ParseNothing()
    ensures ParseDuration("") == Some(0) && StartsWithDigit("")
  {
  }

  predicate StartsWithDigit(s: string) {
    s != "" ==> IsDigit(s[0])
  }

  /** `t` is `p` and `rest`, where `p` is nothing or a group worth `n`. */
  predicate Grouped(p: string, t: string, n: int, rest: string) {
    t == p + rest && if p == "" then n == 0 else IsDigit(p[0]) && FirstGroup(t) == Group(n, rest)
  }

  lemma {:induction false} PartGroup(n: nat, unit: Unit, rest: string) returns (p: string, t: string)
    requires StartsWithDigit(rest)
    ensures p == Part(n, unit) && t == p + rest && Grouped(p, t, Amount(n, unit), rest)
  {
    hide FirstGroup, ParseDecimal, Decimal;
    p, t := Part(n, unit), Part(n, unit) + rest;
    if n > 0 {
      ParseDecimalOfDecimal(n);
      ParseGroup(Decimal(n), unit, rest);
      assert t == Decimal(n) + (unit.Text() + rest);
    }
  }

  lemma {:induction false} ParseFrom(p: string, t: string, n: int, rest: string, v: int)
    requires Grouped(p, t, n, rest) && ParseDuration(rest) == Some(v) && StartsWithDigit(rest)
    ensures ParseDuration(t) == Some(n + v) && StartsWithDigit(t)
  {
    hide FirstGroup;
    if p == "" {
      assert t == rest;
    }
  }

  /** The text in letters: minutes, then seconds, then milliseconds, each only if there are any. */
  lemma {:induction false} DurationLetters(d: int)
    requires d >= 0
    ensures var m, s, ms := d / 60_000_000_000, d / 1_000_000_000 % 60, d / 1_000_000 % 1000;
      DurationText(d) ==
        (if m > 0 then Itoa(m) + "m" else "")
        + ((if s > 0 then Itoa(s) + "s" else "") + (if ms > 0 then Itoa(ms) + "ms" else ""))
  {
    hide Itoa;
    ByMilliseconds(d);
    Parts(d);
    var k := d / 1_000_000;
    assert d / 60_000_000_000 == k / 60_000 && d / 1_000_000_000 == k / 1000;
    assert k % 60_000 / 1000 == k / 1000 % 60;
  }

  /** Two durations print alike exactly when they agree on whole milliseconds. */
  lemma {:induction false} DurationInjective(d: int, e: int)
    requires d >= 0 && e >= 0
    ensures DurationText(d) == DurationText(e) <==> d / 1_000_000 == e / 1_000_000
  {
    DurationRoundTrip(d);
    DurationRoundTrip(e);
    ByMilliseconds(d);
    ByMilliseconds(e);
  }

  lemma {:induction false} ByMilliseconds(d: int)
    requires d >= 0
    ensures var k := d / 1_000_000;
      Minutes(d) == k / 60_000 && Seconds(d) == k % 60_000 / 1000 && Milliseconds(d) == k % 1000
  {
  }

  /** Nothing is printed exactly for durations below one millisecond, negative ones included. */
  lemma {:induction false} DurationEmpty(d: int)
    ensures DurationText(d) == "" <==> d < 1_000_000
  {
    if d >= 0 {
      Parts(d);
    } else {
      assert Minutes(d) <= 0 && Seconds(d) <= 0 && Milliseconds(d) <= 0;
    }
  }
}
