/**
 What `CompileNamedQuery` does with one name, byte by byte. The statements here spell out
 which bytes a name may hold and go through none of the scanner's own predicates.
 */
module QueryBytes {
  import opened Wrappers
  import opened Templates
  import opened NamedQuery

  /**
   Between texts without colons, `:name` before a byte that no name holds compiles to `?` exactly
   for names of name bytes.
   */
  lemma {:induction false} NameCompiles(pre: string, name: string, c: char, post: string)
    requires ':' !in pre && ':' !in name && ':' !in post && c != ':'
    requires !('A' <= c <= 'Z' || 'a' <= c <= 'z' || '0' <= c <= '9' || c == '_' || c == '.')
    ensures Compile(pre + ":" + name + [c] + post) == Compiled(pre + "?" + [c] + post, [name], None) <==>
      forall i :: 0 <= i < |name| ==>
        var b := name[i]; 'A' <= b <= 'Z' || 'a' <= b <= 'z' || '0' <= b <= '9' || b == '_' || b == '.'
  {
    var tail := [c] + post;
    var t := Lit(pre) + [Hole(name)] + Lit(tail);
    OneName(pre, name, tail);
    assert pre + ":" + name + tail == pre + ":" + name + [c] + post && pre + "?" + tail == pre + "?" + [c] + post;
    assert (pre + ":" + name + tail)[|pre|] == ':';
    if Plain(name) {
      PlainSurvives(t);
    } else if Compile(Named(t)) == Compiled(Stmt(t), Names(t), None) {
      OnlyPlainSurvives(t, 0);
    }
  }

  /** The template with one parameter between two texts without colons. */
  lemma {:induction false} OneName(pre: string, name: string, tail: string)
    requires ':' !in pre && ':' !in tail && tail != "" && Delimiter(tail[0])
    ensures var t := Lit(pre) + [Hole(name)] + Lit(tail);
      && Named(t) == pre + ":" + name + tail && Stmt(t) == pre + "?" + tail && Names(t) == [name]
      && Delimited(t) && (PlainNames(t) <==> Plain(name))
  {
    hide Stmt, Names, Named, Delimited, PlainNames, Plain, Delimiter;
    var rest := [Hole(name)] + Lit(tail);
    assert Lit(pre) + [Hole(name)] + Lit(tail) == Lit(pre) + rest;
    assert pre[..|pre|] == pre && tail[..|tail|] == tail && Lit(tail) + [] == Lit(tail);
    NamedText(tail, |tail|, []);
    NamedPrepend(Hole(name), Lit(tail));
    NamedText(pre, |pre|, rest);
    NamedNothing(tail);
    assert pre + (":" + name + tail) == pre + ":" + name + tail;
    ChannelsAfterText(pre, rest);
    OfLit(tail);
    Cons(Hole(name), Lit(tail));
    assert pre + (['?'] + tail) == pre + "?" + tail && [name] + [] == [name];
    HoleDelimited(name, tail);
    DelimitedText(pre, |pre|, rest);
    PlainByNames(Lit(pre) + rest);
    assert [name][0] == name;
  }

  lemma {:induction false} NamedNothing(tail: string)
    ensures Named([]) == "" && tail + "" == tail
  {
  }

  lemma {:induction false} HoleDelimited(name: string, tail: string)
    requires tail != "" && Delimiter(tail[0])
    ensures Delimited([Hole(name)] + Lit(tail))
  {
    var t := [Hole(name)] + Lit(tail);
    LitStarts(tail);
    assert t[1..] == Lit(tail) && Lit(tail) + [] == Lit(tail);
    DelimitedText(tail, |tail|, []);
  }

  lemma {:induction false} NamedText(s: string, n: nat, t: Template)
    requires n <= |s| && ':' !in s
    ensures Named(Chars(s, n) + t) == s[..n] + Named(t)
    decreases n
  {
    hide Named;
    if n == 0 {
      assert [] + t == t && s[..0] + Named(t) == Named(t);
    } else {
      var p := Ch(s[n - 1]);
      assert Chars(s, n) + t == Chars(s, n - 1) + ([p] + t);
      NamedText(s, n - 1, [p] + t);
      NamedPrepend(p, t);
      assert s[n - 1] in s && Printed(p) == [s[n - 1]];
      assert s[..n - 1] + ([s[n - 1]] + Named(t)) == s[..n] + Named(t);
    }
  }

  lemma {:induction false} DelimitedText(s: string, n: nat, t: Template)
    requires n <= |s| && Delimited(t)
    ensures Delimited(Chars(s, n) + t)
    decreases n
  {
    if n == 0 {
      assert [] + t == t;
    } else {
      var u := [Ch(s[n - 1])] + t;
      assert u[1..] == t;
      DelimitedText(s, n - 1, u);
      assert Chars(s, n) + t == Chars(s, n - 1) + u;
    }
  }

  /** A name at the very end keeps its last byte only if that is a letter or a digit. */
  lemma {:induction false} NameAtEnd(pre: string, name: string)
    requires ':' !in pre && name != ""
    requires forall i :: 0 <= i < |name| ==>
      var b := name[i]; 'A' <= b <= 'Z' || 'a' <= b <= 'z' || '0' <= b <= '9' || b == '_' || b == '.'
    ensures var n := |name| - 1; var b := name[n];
      Compile(pre + ":" + name) ==
        if b == '_' || b == '.' then Compiled(pre + "?" + [b], [name[..n]], None) else Compiled(pre + "?", [name], None)
  {
    hide Compile, Stmt, Names, InName, Tokens;
    var n := |name| - 1;
    LastByte("", name, |pre| + 1);
    assert "" + name == name && "" + name[..n] == name[..n];
    ColonFirst(name, |pre|);
    CompileAfterText(pre, ":" + name);
    TwoPieces(name[..n], name[n]);
    OfHole(name);
    assert pre + (":" + name) == pre + ":" + name && pre + "?" + [name[n]] == pre + ("?" + [name[n]]);
  }

  lemma {:induction false} ColonFirst(name: string, at: nat)
    ensures Tokens(":" + name, at) == InName("", name, at + 1) && ':' in ":" + name
  {
    assert (":" + name)[1..] == name && (":" + name)[0] == ':';
  }

  lemma {:induction false} TwoPieces(name: string, c: char)
    ensures Stmt([Hole(name), Ch(c)]) == "?" + [c] && Names([Hole(name), Ch(c)]) == [name]
  {
    Cons(Hole(name), [Ch(c)]);
    Cons(Ch(c), []);
    assert [Ch(c)] + [] == [Ch(c)] && [Hole(name)] + [Ch(c)] == [Hole(name), Ch(c)];
  }

  /** After text, the compiled rest follows it. */
  lemma {:induction false} CompileAfterText(pre: string, rest: string)
    requires ':' !in pre && ':' in rest && !Tokens(rest, |pre|).ending.Clash?
    ensures var r := Tokens(rest, |pre|);
      Compile(pre + rest) == Compiled(pre + Stmt(r.tokens), Names(r.tokens), None)
  {
    hide Tokens, Stmt, Names;
    AfterText(pre, rest, 0);
    ChannelsAfterText(pre, Tokens(rest, |pre|).tokens);
    assert ':' in pre + rest;
  }

  /** How a name ends that reaches the end of the query. */
  lemma {:induction false} LastByte(before: string, name: string, at: nat)
    requires name != "" && Plain(name)
    ensures var n := |name| - 1;
      InName(before, name, at) ==
        if AllowedBindRune(name[n]) then Scanned([Hole(before + name)], Done)
        else Scanned([Hole(before + name[..n]), Ch(name[n])], Done)
    decreases |name|
  {
    if |name| > 1 {
      LastByte(before + [name[0]], name[1..], at + 1);
      assert before + [name[0]] + name[1..] == before + name;
      assert before + [name[0]] + name[1..][..|name| - 2] == before + name[..|name| - 1];
    } else {
      assert before + [name[0]] == before + name && before + name[..0] == before && name[1..] == "";
      assert [Hole(before), Ch(name[0])] + [] == [Hole(before), Ch(name[0])];
    }
  }

  /** Text without colons is text. */
  lemma {:induction false} AfterText(pre: string, rest: string, at: nat)
    requires ':' !in pre
    ensures Tokens(pre + rest, at) == Prepend(Lit(pre), Tokens(rest, at + |pre|))
  {
    NamedText(pre, |pre|, []);
    DelimitedText(pre, |pre|, []);
    assert Lit(pre) + [] == Lit(pre) && pre[..|pre|] == pre && pre + "" == pre;
    OfLit(pre);
    PlainByNames(Lit(pre));
    ScanOfPrint(Lit(pre), rest, at);
  }

  lemma {:induction false} ChannelsAfterText(pre: string, t: Template)
    ensures Stmt(Lit(pre) + t) == pre + Stmt(t) && Names(Lit(pre) + t) == Names(t)
  {
    OfLit(pre);
    Concat(Lit(pre), t);
    assert [] + Names(t) == Names(t);
  }

  /** Two colons are one colon of the text. */
  lemma {:induction false} EscapedColon(pre: string, post: string)
    requires ':' !in pre && ':' !in post
    ensures Compile(pre + "::" + post) == Compiled(pre + ":" + post, [], None)
  {
    hide Compile, Stmt, Names;
    DoubleColon(post, |pre|);
    CompileAfterText(pre, "::" + post);
    OfLit(post);
    Cons(Ch(':'), Lit(post));
    assert pre + ("::" + post) == pre + "::" + post && pre + ([':'] + post) == pre + ":" + post;
  }

  lemma {:induction false} DoubleColon(post: string, at: nat)
    requires ':' !in post
    ensures Tokens("::" + post, at) == Scanned([Ch(':')] + Lit(post), Done) && ':' in "::" + post
  {
    var s := "::" + post;
    assert s[1..] == ":" + post && s[1..][1..] == post && s[0] == ':';
    AfterText(post, "", at + 2);
    assert post + "" == post && Lit(post) + [] == Lit(post);
  }

  /** A lone colon at the very end vanishes. */
  lemma {:induction false} FinalColon(pre: string)
    requires ':' !in pre
    ensures Compile(pre + ":") == Compiled(pre, [], None)
  {
    CompileAfterText(pre, ":");
    assert pre + "" == pre;
  }

  /** A colon right after a name is refused, with its offset; a query without colons is refused at once. */
  lemma {:induction false} ColonAfterName(pre: string, name: string, rest: string)
    requires ':' !in pre && name != ""
    requires forall i :: 0 <= i < |name| ==>
      var b := name[i]; 'A' <= b <= 'Z' || 'a' <= b <= 'z' || '0' <= b <= '9' || b == '_' || b == '.'
    ensures Compile(pre + ":" + name + ":" + rest) == Compiled("", [], Some(UnexpectedColon(|pre| + 1 + |name|)))
    ensures Compile(pre) == Compiled("", [], Some(ExpectedNamedQuery))
  {
    assert Plain(name);
    NamedText(pre, |pre|, []);
    DelimitedText(pre, |pre|, []);
    assert Lit(pre) + [] == Lit(pre) && pre[..|pre|] == pre && pre + "" == pre;
    OfLit(pre);
    PlainByNames(Lit(pre));
    ClashFrom(Lit(pre), name, rest);
    assert pre + Clashing(name, rest) == pre + ":" + name + ":" + rest;
  }
}
