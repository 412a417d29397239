/**
 The named-query scanner of queryx.go and its recursive specification `Tokens`.
 Scanner and printer (`Templates.Named`) are inverse to each other.
 */
module NamedQuery {
  import opened Wrappers
  import opened Text
  import opened Templates

  datatype QueryError = ExpectedNamedQuery | UnexpectedColon(at: nat)

  predicate AllowedBindRune(b: char) {
    'a' <= b <= 'z' || 'A' <= b <= 'Z' || '0' <= b <= '9'
  }

  predicate IsNameByte(b: char) {
    AllowedBindRune(b) || b == '_' || b == '.'
  }

  predicate Plain(name: string) {
    forall i :: 0 <= i < |name| ==> IsNameByte(name[i])
  }

  /** How a scan ends: normally, on a lone final colon, or on a colon after a non-empty name. */
  datatype Ending = Done | Dangling | Clash(at: nat)
  datatype Scanned = Scanned(tokens: Template, ending: Ending)

  function Prepend(t: Template, s: Scanned): Scanned {
    Scanned(t + s.tokens, s.ending)
  }

  /**
   The specification. Outside a name a colon opens a name, at the offset `at` of `s` in
   the whole query.
   */
  function Tokens(s: string, at: nat): Scanned
    decreases |s|
  {
    if s == "" then Scanned([], Done)
    else if s[0] == ':' then InName("", s[1..], at + 1)
    else Prepend([Ch(s[0])], Tokens(s[1..], at + 1))
  }

  /**
   Inside a name: a second colon straight after the first is an escaped colon, a colon
   after a non-empty name is an error, and the first byte that is no name byte ends the
   name. The last byte of the query always ends it; a `_` or `.` there is text.
   */
  function InName(name: string, s: string, at: nat): Scanned
    decreases |s|
  {
    if s == "" then Scanned([], Dangling)
    else if s[0] == ':' then
      if name == "" then Prepend([Ch(':')], Tokens(s[1..], at + 1)) else Scanned([], Clash(at))
    else if IsNameByte(s[0]) && |s| > 1 then InName(name + [s[0]], s[1..], at + 1)
    else if AllowedBindRune(s[0]) then Scanned([Hole(name + [s[0]])], Done)
    else Prepend([Hole(name), Ch(s[0])], Tokens(s[1..], at + 1))
  }

  /** The three results of `CompileNamedQuery`. */
  datatype Compiled = Compiled(stmt: string, names: seq<string>, err: Option<QueryError>)

  function Compile(qs: string): Compiled {
    if ':' !in qs then Compiled("", [], Some(ExpectedNamedQuery)) else
      var r := Tokens(qs, 0);
      if r.ending.Clash? then Compiled("", Names(r.tokens), Some(UnexpectedColon(r.ending.at)))
      else Compiled(Stmt(r.tokens), Names(r.tokens), None)
  }

  /** The scanner loop of `CompileNamedQuery`. */
  method CompileNamedQuery(qs: string) returns (stmt: string, names: seq<string>, err: Option<QueryError>)
    ensures Compiled(stmt, names, err) == Compile(qs)
  {
    CountZero(qs, ':');
    if Count(qs, ':') == 0 {
      return "", [], Some(ExpectedNamedQuery);
    }
    names := [];
    var rebound := "";
    var inName := false;
    var last := |qs| - 1;
    var name := "";

    for i := 0 to |qs|
      invariant inName ==> i > 0 && (qs[i - 1] == ':' <==> name == "") && (i == |qs| ==> name == "")
      invariant Read(Tokens(qs, 0), rebound, names,
                     if inName then InName(name, qs[i..], i) else Tokens(qs[i..], i))
    {
      var b := qs[i];
      Forward(Tokens(qs, 0), rebound, names, inName, name, qs[i..], i);
      assert qs[i..][1..] == qs[i + 1..];
      if b == ':' {
        if inName && i > 0 && qs[i - 1] == ':' {
          rebound := rebound + ":";
          inName := false;
          continue;
        } else if inName {
          return "", names, Some(UnexpectedColon(i));
        }
        inName := true;
        name := "";
      } else if inName && (AllowedBindRune(b) || b == '_' || b == '.') && i != last {
        name := name + [b];
      } else if inName {
        inName := false;
        if i == last && AllowedBindRune(b) {
          name := name + [b];
        }
        names := names + [name];
        rebound := rebound + "?";
        if i != last {
          rebound := rebound + [b];
        } else if !AllowedBindRune(b) {
          rebound := rebound + [b];
        }
      } else {
        rebound := rebound + [b];
      }
    }
    return rebound, names, None;
  }

  /** What is written so far and what `rest` still yields together make up `all`. */
  ghost predicate Read(all: Scanned, rebound: string, names: seq<string>, rest: Scanned) {
    && Stmt(all.tokens) == rebound + Stmt(rest.tokens)
    && Names(all.tokens) == names + Names(rest.tokens)
    && all.ending == rest.ending
  }

  /** One byte of the scan, in every state and for every byte. */
  lemma {:induction false} Forward(all: Scanned, rebound: string, names: seq<string>,
                                   inName: bool, name: string, s: string, at: nat)
    requires s != ""
    requires Read(all, rebound, names, if inName then InName(name, s, at) else Tokens(s, at))
    ensures !inName && s[0] != ':' ==> Read(all, rebound + [s[0]], names, Tokens(s[1..], at + 1))
    ensures !inName && s[0] == ':' ==> Read(all, rebound, names, InName("", s[1..], at + 1))
    ensures inName && s[0] == ':' && name == "" ==> Read(all, rebound + ":", names, Tokens(s[1..], at + 1))
    ensures inName && s[0] == ':' && name != "" ==> Names(all.tokens) == names && all.ending == Clash(at)
    ensures inName && s[0] != ':' && IsNameByte(s[0]) && |s| > 1 ==>
      Read(all, rebound, names, InName(name + [s[0]], s[1..], at + 1))
    ensures inName && s[0] != ':' && |s| == 1 && AllowedBindRune(s[0]) ==>
      Read(all, rebound + "?", names + [name + [s[0]]], Tokens(s[1..], at + 1))
    ensures inName && s[0] != ':' && (if |s| == 1 then !AllowedBindRune(s[0]) else !IsNameByte(s[0])) ==>
      Read(all, rebound + "?" + [s[0]], names + [name], Tokens(s[1..], at + 1))
  {
    var rest := Tokens(s[1..], at + 1).tokens;
    if !inName {
      Channels(rebound, names, Ch(s[0]), rest);
    } else if s[0] == ':' {
      Channels(rebound, names, Ch(':'), rest);
    } else {
      Channels(rebound, names, Hole(name + [s[0]]), []);
      Channels(rebound, names, Hole(name), [Ch(s[0])] + rest);
      Channels(rebound + "?", names + [name], Ch(s[0]), rest);
      assert [Hole(name), Ch(s[0])] + rest == [Hole(name)] + ([Ch(s[0])] + rest);
    }
  }

  lemma {:induction false} Channels(rebound: string, names: seq<string>, p: Piece, rest: Template)
    ensures rebound + Stmt([p] + rest) == rebound + [if p.Ch? then p.c else '?'] + Stmt(rest)
    ensures names + Names([p] + rest) == names + (if p.Hole? then [p.name] else []) + Names(rest)
  {
    assert ([p] + rest)[1..] == rest;
  }

  // ---- scanning and printing are inverse ----

  /** Every hole is followed by a text byte that cannot belong to its name. */
  predicate Delimited(t: Template) {
    t != [] ==> (t[0].Hole? ==> |t| > 1 && t[1].Ch? && Delimiter(t[1].c)) && Delimited(t[1..])
  }

  predicate Delimiter(c: char) {
    !IsNameByte(c) && c != ':'
  }

  predicate PlainNames(t: Template) {
    forall i :: 0 <= i < |t| && t[i].Hole? ==> Plain(t[i].name)
  }

  /** A printed piece followed by `tail` scans back to the piece. */
  predicate Scannable(p: Piece, tail: string) {
    p.Hole? ==> Plain(p.name) && tail != "" && Delimiter(tail[0])
  }

  lemma {:induction false} ScanPiece(p: Piece, tail: string, at: nat)
    requires Scannable(p, tail)
    ensures Tokens(Printed(p) + tail, at) == Prepend([p], Tokens(tail, at + |Printed(p)|))
  {
    var s := Printed(p) + tail;
    if p.Hole? {
      ScanHole(p.name, tail, at);
    } else if p.c == ':' {
      assert s[1..] == ":" + tail && s[1..][1..] == tail;
    } else {
      assert s[1..] == tail;
    }
  }

  lemma {:induction false} ScanHole(name: string, tail: string, at: nat)
    requires Scannable(Hole(name), tail)
    ensures Tokens(":" + name + tail, at) == Prepend([Hole(name)], Tokens(tail, at + 1 + |name|))
  {
    var s := ":" + name + tail;
    assert s[1..] == name + tail;
    ScanName("", name, tail, at + 1);
    assert "" + name == name;
  }

  /** A lone colon opens the longest run of name bytes. */
  lemma {:induction false} ScanName(before: string, name: string, tail: string, at: nat)
    requires Plain(name) && tail != "" && Delimiter(tail[0])
    ensures InName(before, name + tail, at) == Prepend([Hole(before + name)], Tokens(tail, at + |name|))
    decreases |name|
  {
    var s := name + tail;
    if name == "" {
      assert s == tail && before + name == before;
      PrependPrepend([Hole(before)], [Ch(tail[0])], Tokens(tail[1..], at + 1));
    } else {
      assert s[1..] == name[1..] + tail;
      assert before + [name[0]] + name[1..] == before + name;
      ScanName(before + [name[0]], name[1..], tail, at + 1);
    }
  }

  lemma {:induction false} NamedPrepend(p: Piece, t: Template)
    ensures Named([p] + t) == Printed(p) + Named(t)
    ensures Named([p]) == Printed(p)
  {
    assert ([p] + t)[1..] == t;
  }

  lemma {:induction false} NamedCons(t: Template)
    requires t != [] && Delimited(t)
    ensures t[0].Hole? ==> Named(t[1..]) != "" && Delimiter(Named(t[1..])[0])
    ensures t == [t[0]] + t[1..]
  {
  }

  /** Scanning a printed template gives the template back, whatever follows it. */
  lemma {:induction false} ScanOfPrint(t: Template, rest: string, at: nat)
    requires Delimited(t) && PlainNames(t)
    ensures Tokens(Named(t) + rest, at) == Prepend(t, Tokens(rest, at + |Named(t)|))
  {
    if t == [] {
      assert Named(t) + rest == rest;
    } else {
      NamedCons(t);
      var p, tail := t[0], Named(t[1..]) + rest;
      assert Named(t) + rest == Printed(p) + tail;
      ScanPiece(p, tail, at);
      ScanOfPrint(t[1..], rest, at + |Printed(p)|);
      PrependPrepend([p], t[1..], Tokens(rest, at + |Named(t)|));
    }
  }

  lemma {:induction false} PrependPrepend(a: Template, b: Template, s: Scanned)
    ensures Prepend(a, Prepend(b, s)) == Prepend(a + b, s)
  {
    assert a + (b + s.tokens) == a + b + s.tokens;
  }

  predicate Reprints(r: Scanned, s: string) {
    PlainNames(r.tokens) && s == Named(r.tokens) + (if r.ending.Dangling? then ":" else "")
  }

  /** Printing what a successful scan read gives the query back, up to a lone final colon. */
  lemma {:induction false} PrintOfScan(s: string, at: nat)
    requires !Tokens(s, at).ending.Clash?
    ensures Reprints(Tokens(s, at), s)
    decreases |s|
  {
    if s != "" {
      Shift("", s);
      if s[0] == ':' {
        PrintOfName("", s[1..], at + 1);
      } else {
        PrintOfScan(s[1..], at + 1);
        ReprintsCons(Ch(s[0]), Tokens(s[1..], at + 1), s[1..]);
      }
    }
  }

  lemma {:induction false} PrintOfName(name: string, s: string, at: nat)
    requires !InName(name, s, at).ending.Clash? && Plain(name) && (s == "" ==> name == "")
    ensures Reprints(InName(name, s, at), ":" + name + s)
    decreases |s|
  {
    if s != "" {
      Shift(name, s);
      var r := Tokens(s[1..], at + 1);
      if s[0] == ':' {
        PrintOfScan(s[1..], at + 1);
        ReprintsCons(Ch(':'), r, s[1..]);
      } else if IsNameByte(s[0]) && |s| > 1 {
        PrintOfName(name + [s[0]], s[1..], at + 1);
      } else if AllowedBindRune(s[0]) {
        ReprintsCons(Hole(name + [s[0]]), Scanned([], Done), "");
      } else {
        PrintOfScan(s[1..], at + 1);
        ReprintsCons(Ch(s[0]), r, s[1..]);
        ReprintsCons(Hole(name), Prepend([Ch(s[0])], r), s);
        PrependPrepend([Hole(name)], [Ch(s[0])], r);
      }
    }
  }

  lemma {:induction false} ReprintsCons(p: Piece, r: Scanned, s: string)
    requires Reprints(r, s) && (p.Hole? ==> Plain(p.name))
    ensures Reprints(Prepend([p], r), Printed(p) + s)
  {
    NamedPrepend(p, r.tokens);
    var end := if r.ending.Dangling? then ":" else "";
    assert Printed(p) + (Named(r.tokens) + end) == Printed(p) + Named(r.tokens) + end;
  }

  /** A name that a colon follows directly. */
  function Clashing(name: string, rest: string): string {
    ":" + name + ":" + rest
  }

  /** `r` stopped at a colon that directly follows the non-empty name `name`. */
  ghost predicate ClashesAt(r: Scanned, s: string, at: nat, name: string, rest: string) {
    && name != "" && Plain(name)
    && Delimited(r.tokens) && PlainNames(r.tokens)
    && s == Named(r.tokens) + Clashing(name, rest)
    && r.ending == Clash(at + |Named(r.tokens)| + 1 + |name|)
  }

  /** A scan is stopped by a colon exactly where one directly follows a non-empty name. */
  lemma {:induction false} ClashMeans(s: string, at: nat) returns (name: string, rest: string)
    requires Tokens(s, at).ending.Clash?
    ensures ClashesAt(Tokens(s, at), s, at, name, rest)
    decreases |s|
  {
    assert s == [s[0]] + s[1..];
    if s[0] == ':' {
      name, rest := ClashMeansName("", s[1..], at + 1);
      assert ":" + "" + s[1..] == s;
    } else {
      name, rest := ClashMeans(s[1..], at + 1);
      ClashesCons(Ch(s[0]), Tokens(s[1..], at + 1), s[1..], at, name, rest);
    }
  }

  lemma {:induction false} ClashMeansName(before: string, s: string, at: nat) returns (name: string, rest: string)
    requires InName(before, s, at).ending.Clash? && Plain(before) && at > |before|
    ensures ClashesAt(InName(before, s, at), ":" + before + s, at - 1 - |before|, name, rest)
    decreases |s|
  {
    Shift(before, s);
    if s[0] == ':' && before != "" {
      name, rest := before, s[1..];
      ClashHere(before, s, at);
    } else if s[0] == ':' {
      name, rest := ClashMeans(s[1..], at + 1);
      ClashesCons(Ch(':'), Tokens(s[1..], at + 1), s[1..], at - 1, name, rest);
    } else if IsNameByte(s[0]) && |s| > 1 {
      name, rest := ClashMeansName(before + [s[0]], s[1..], at + 1);
    } else {
      name, rest := ClashMeans(s[1..], at + 1);
    }
  }

  lemma {:induction false} Shift(before: string, s: string)
    requires s != ""
    ensures s == [s[0]] + s[1..]
    ensures ":" + before + s == ":" + (before + [s[0]]) + s[1..]
    ensures before == "" ==> ":" + before + s == ":" + [s[0]] + s[1..]
  {
  }

  lemma {:induction false} ClashHere(before: string, s: string, at: nat)
    requires Plain(before) && before != "" && at > |before| && s != "" && s[0] == ':'
    ensures ClashesAt(InName(before, s, at), ":" + before + s, at - 1 - |before|, before, s[1..])
  {
    assert ":" + before + s == Named([]) + Clashing(before, s[1..]);
  }

  lemma {:induction false} ClashesCons(p: Piece, r: Scanned, s: string, at: nat, name: string, rest: string)
    requires ClashesAt(r, s, at + |Printed(p)|, name, rest) && Scannable(p, s)
    ensures ClashesAt(Prepend([p], r), Printed(p) + s, at, name, rest)
  {
    var t := r.tokens;
    NamedPrepend(p, t);
    assert ([p] + t)[1..] == t;
    if t != [] {
      assert s[0] == Named(t)[0] == Printed(t[0])[0];
    }
    assert Printed(p) + (Named(t) + Clashing(name, rest)) == Printed(p) + Named(t) + Clashing(name, rest);
  }

  /** Conversely, any query of that shape stops there. */
  lemma {:induction false} ClashFrom(t: Template, name: string, rest: string)
    requires Delimited(t) && PlainNames(t) && name != "" && Plain(name)
    ensures Compile(Named(t) + Clashing(name, rest)) ==
      Compiled("", Names(t), Some(UnexpectedColon(|Named(t)| + 1 + |name|)))
  {
    hide Named, Names, Delimited, PlainNames, Plain, InName, Clashing;
    ScanOfPrint(t, Clashing(name, rest), 0);
    ClashingStarts(name, rest, |Named(t)|);
    ClashTail("", name, rest, |Named(t)| + 1);
    PrependNothing(t);
  }

  lemma {:induction false} ClashingStarts(name: string, rest: string, at: nat)
    ensures Clashing(name, rest) != "" && Clashing(name, rest)[0] == ':'
    ensures Tokens(Clashing(name, rest), at) == InName("", name + ":" + rest, at + 1)
  {
    assert Clashing(name, rest)[1..] == name + ":" + rest;
  }

  lemma {:induction false} PrependNothing(t: Template)
    ensures t + [] == t
  {
  }

  lemma {:induction false} ClashTail(before: string, name: string, rest: string, at: nat)
    requires before + name != "" && Plain(name)
    ensures InName(before, name + ":" + rest, at) == Scanned([], Clash(at + |name|))
    decreases |name|
  {
    var s := name + ":" + rest;
    if name != "" {
      assert s[1..] == name[1..] + ":" + rest;
      ClashTail(before + [name[0]], name[1..], rest, at + 1);
    }
  }

  /**
   Round trip, exactly: a separated template survives printing and compiling if and only
   if all its names are plain and there is any colon to be seen.
   */
  lemma {:induction false} RoundTrip(t: Template)
    requires Separated(t)
    ensures Compile(Named(t)) == Compiled(Stmt(t), Names(t), None) <==>
      && (forall name, i :: name in Names(t) && 0 <= i < |name| ==>
            var b := name[i]; 'A' <= b <= 'Z' || 'a' <= b <= 'z' || '0' <= b <= '9' || b == '_' || b == '.')
      && (Names(t) != [] || Ch(':') in t)
  {
    PlainByNames(t);
    SeparatedIsDelimited(t);
    ColonInNamed(t);
    if ':' in Named(t) {
      if PlainNames(t) {
        PlainSurvives(t);
      } else if Compile(Named(t)) == Compiled(Stmt(t), Names(t), None) {
        OnlyPlainSurvives(t, 0);
      }
    }
  }

  lemma {:induction false} PlainByNames(t: Template)
    ensures PlainNames(t) <==> forall name :: name in Names(t) ==> Plain(name)
  {
    if t != [] {
      var rest := t[1..];
      PlainByNames(rest);
      assert Names(t) == (if t[0].Hole? then [t[0].name] else []) + Names(rest);
    }
  }

  lemma {:induction false} PlainSurvives(t: Template)
    requires Delimited(t) && PlainNames(t)
    ensures Tokens(Named(t), 0) == Scanned(t, Done)
  {
    ScanOfPrint(t, "", 0);
    assert Named(t) + "" == Named(t);
    PrependNothing(t);
  }

  lemma {:induction false} SeparatedIsDelimited(t: Template)
    requires Separated(t)
    ensures Delimited(t)
  {
    if t != [] {
      SeparatedIsDelimited(t[1..]);
    }
  }

  lemma {:induction false} ColonInNamed(t: Template)
    ensures ':' in Named(t) <==> Names(t) != [] || Ch(':') in t
  {
    if t != [] {
      ColonInNamed(t[1..]);
      assert t == [t[0]] + t[1..];
      assert t[0].Hole? ==> Named(t)[0] == ':';
    }
  }

  lemma {:induction false} OnlyPlainSurvives(t: Template, at: nat)
    requires Delimited(t)
    requires var r := Tokens(Named(t), at);
      !r.ending.Clash? && Stmt(r.tokens) == Stmt(t) && Names(r.tokens) == Names(t)
    ensures PlainNames(t)
  {
    if t != [] {
      NamedCons(t);
      var p, tail := t[0], Named(t[1..]);
      if p.Hole? && !Plain(p.name) {
        BadFirstName(t, at);
        assert false;
      } else {
        ScanPiece(p, tail, at);
        SameTail(p, Tokens(tail, at + |Printed(p)|).tokens, t[1..]);
        OnlyPlainSurvives(t[1..], at + |Printed(p)|);
      }
    }
  }

  lemma {:induction false} BadFirstName(t: Template, at: nat)
    requires t != [] && Delimited(t) && t[0].Hole? && !Plain(t[0].name)
    ensures var r := Tokens(Named(t), at);
      r.ending.Clash? || Stmt(r.tokens) != Stmt(t) || Names(r.tokens) != Names(t)
  {
    NamedCons(t);
    assert Named(t)[1..] == t[0].name + Named(t[1..]);
    BadNameChanges("", t[0].name, Named(t[1..]), at + 1);
    assert Stmt(t)[0] == '?' && Names(t)[0] == t[0].name;
  }

  /** A name that is not plain is cut short, unescaped or refused. */
  lemma {:induction false} BadNameChanges(before: string, name: string, tail: string, at: nat)
    requires !Plain(name) && tail != ""
    ensures var r := InName(before, name + tail, at);
      || r.ending.Clash?
      || (r.tokens != [] && r.tokens[0] == Ch(':'))
      || (Names(r.tokens) != [] && |Names(r.tokens)[0]| < |before| + |name|)
    decreases |name|
  {
    var s := name + tail;
    if IsNameByte(name[0]) {
      assert s[1..] == name[1..] + tail;
      BadNameChanges(before + [name[0]], name[1..], tail, at + 1);
    }
  }

  lemma {:induction false} SameTail(p: Piece, u: Template, v: Template)
    requires Stmt([p] + u) == Stmt([p] + v) && Names([p] + u) == Names([p] + v)
    ensures Stmt(u) == Stmt(v) && Names(u) == Names(v)
  {
    Concat([p], u);
    Concat([p], v);
    assert Stmt(u) == Stmt([p] + u)[1..] && Stmt(v) == Stmt([p] + v)[1..];
    var k := |Names([p])|;
    assert Names(u) == Names([p] + u)[k..] && Names(v) == Names([p] + v)[k..];
  }

  /**
   Conservation: colons are names, pairs of escape bytes and at most one lone final colon;
   every `?` of the output is a name or was in the query; nothing grows.
   */
  lemma {:induction false} Conservation(qs: string)
    requires Compile(qs).err == None
    ensures var c := Compile(qs); var r := Tokens(qs, 0);
      && Count(qs, ':') == |c.names| + 2 * Count(c.stmt, ':') + (if r.ending.Dangling? then 1 else 0)
      && Count(c.stmt, '?') == Count(qs, '?') + |c.names|
      && |c.stmt| <= |qs|
      && |c.names| <= Count(qs, ':')
  {
    var r := Tokens(qs, 0);
    PrintOfScan(qs, 0);
    PrintCounts(r.tokens);
    var end := if r.ending.Dangling? then ":" else "";
    CountConcat(Named(r.tokens), end, ':');
    CountConcat(Named(r.tokens), end, '?');
  }

  lemma {:induction false} PrintCounts(t: Template)
    requires PlainNames(t)
    ensures Count(Named(t), ':') == |Names(t)| + 2 * Count(Stmt(t), ':')
    ensures Count(Stmt(t), '?') == Count(Named(t), '?') + |Names(t)|
    ensures |Stmt(t)| <= |Named(t)|
  {
    if t != [] {
      var head := Printed(t[0]);
      PrintCounts(t[1..]);
      assert Stmt(t)[1..] == Stmt(t[1..]);
      CountConcat(head, Named(t[1..]), ':');
      CountConcat(head, Named(t[1..]), '?');
      if t[0].Hole? {
        assert head[1..] == t[0].name;
        CountZero(t[0].name, ':');
        CountZero(t[0].name, '?');
        assert ':' !in t[0].name && '?' !in t[0].name;
      } else if t[0].c == ':' {
        assert Count("::", ':') == 2 && Count("::", '?') == 0;
      }
    }
  }
}
