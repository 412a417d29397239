/**
 The four recursions of cmd/schemagen over CQL types, on type trees: resolving references
 to user types, finding a user type's name, collecting imports, printing the Go type.
 */
module CqlTypes {
  datatype Code =
    | Ascii | Text | Varchar | Inet | BigInt | Varint | Blob | Boolean | Counter | Date | Timestamp
    | Decimal | Double | Float | Int | SmallInt | TinyInt | Time | UUID | TimeUUID | Duration
    | List | Set | Map | TupleCode | UserType | Other

  /**
   A type as the driver describes it. `Opaque` is a type it does not know, with the
   validator text it got. A `Native` type of code List, Map and so on is one that claims the
   code without being of the driver's type for it. The unused key of a list is left out.
   */
  datatype Type =
    | Nil
    | Native(code: Code)
    | ListOf(isSet: bool, elem: Type)
    | MapOf(key: Type, elem: Type)
    | Tuple(elems: seq<Type>)
    | Udt(keyspace: string, name: string)
    | Opaque(validator: string)

  // ---- names behind frozen<...>; a validator text is read by code points ----

  /** `unicode.IsSpace`. */
  predicate IsSpace(c: char) {
    || '\t' <= c <= '\r' || c == ' ' || c == '\U{0085}' || c == '\U{00A0}' || c == '\U{1680}'
    || '\U{2000}' <= c <= '\U{200A}' || c == '\U{2028}'
    || c == '\U{2029}' || c == '\U{202F}' || c == '\U{205F}' || c == '\U{3000}'
  }

  function TrimLeft(s: string): (t: string)
    ensures |t| <= |s|
  {
    if s != "" && IsSpace(s[0]) then TrimLeft(s[1..]) else s
  }

  function TrimRight(s: string): (t: string)
    ensures |t| <= |s|
  {
    if s != "" && IsSpace(s[|s| - 1]) then TrimRight(s[..|s| - 1]) else s
  }

  function Trim(s: string): (t: string)
    ensures |t| <= |s|
  {
    TrimRight(TrimLeft(s))
  }

  predicate Frozen(s: string) {
    |s| >= 7 && s[..7] == "frozen<" && s[|s| - 1] == '>'
  }

  /** `name[len("frozen<") : len(name)-1]`. */
  function Unfrozen(s: string): string
    requires Frozen(s) && |s| >= 8
  {
    s[7..|s| - 1]
  }

  lemma {:induction false} FrozenLength(s: string)
    requires Frozen(s)
    ensures |s| >= 8
  {
    assert s[..7][6] == '<';
  }

  /** The name under any depth of `frozen<...>` and spaces. */
  function Stripped(s: string): string
    decreases |s|
  {
    var t := Trim(s);
    if Frozen(t) then
      FrozenLength(t);
      Stripped(Unfrozen(t))
    else t
  }

  method Strip(validator: string) returns (name: string)
    ensures name == Stripped(validator)
  {
    name := Trim(validator);
    TrimTwice(validator);
    while Frozen(name)
      invariant Trim(name) == name && Stripped(name) == Stripped(validator)
      decreases |name|
    {
      FrozenLength(name);
      TrimTwice(Unfrozen(name));
      name := Trim(Unfrozen(name));
    }
  }

  lemma {:induction false} TrimTwice(s: string)
    ensures Trim(Trim(s)) == Trim(s)
  {
    TrimLeftEnds(s);
    TrimRightEnds(TrimLeft(s));
  }

  lemma {:induction false} TrimLeftEnds(s: string)
    ensures TrimLeft(s) == "" || !IsSpace(TrimLeft(s)[0])
  {
    if s != "" && IsSpace(s[0]) {
      TrimLeftEnds(s[1..]);
    }
  }

  lemma {:induction false} TrimRightEnds(s: string)
    ensures var t := TrimRight(s); t == "" || (!IsSpace(t[|t| - 1]) && t[0] == s[0])
  {
    if s != "" && IsSpace(s[|s| - 1]) {
      TrimRightEnds(s[..|s| - 1]);
    }
  }

  /** The white space of Unicode, one by one. */
  const WHITE := "\t\n\U{000B}\U{000C}\r \U{0085}\U{00A0}\U{1680}\U{2000}\U{2001}\U{2002}\U{2003}\U{2004}\U{2005}" +
    "\U{2006}\U{2007}\U{2008}\U{2009}\U{200A}\U{2028}\U{2029}\U{202F}\U{205F}\U{3000}"

  lemma {:induction false} WhiteIs(c: char)
    ensures IsSpace(c) <==> c in WHITE
  {
    assert |WHITE| == 25;
    var i := SpaceAt(c);
    if IsSpace(c) {
      assert WHITE[i] == c;
    }
  }

  /** The place of a white space among all of them. */
  function SpaceAt(c: char): nat {
    if '\t' <= c <= '\r' then (c - '\t') as int
    else if c == ' ' then 5 else if c == '\U{0085}' then 6 else if c == '\U{00A0}' then 7 else if c == '\U{1680}' then 8
    else if '\U{2000}' <= c <= '\U{200A}' then 9 + (c - '\U{2000}') as int
    else if c == '\U{2028}' then 20 else if c == '\U{2029}' then 21 else if c == '\U{202F}' then 22
    else if c == '\U{205F}' then 23 else 24
  }

  /** One `frozen<...>` goes, with the white space around it. */
  lemma {:induction false} StripFrozen(before: string, inner: string, after: string)
    requires forall c :: c in before || c in after ==> c in WHITE
    ensures Stripped(before + "frozen<" + inner + ">" + after) == Stripped(inner)
  {
    var t := "frozen<" + inner + ">";
    forall c ensures IsSpace(c) <==> c in WHITE {
      WhiteIs(c);
    }
    TrimAround(before, t, after);
    assert before + t + after == before + "frozen<" + inner + ">" + after;
    assert t[..7] == "frozen<" && t[7..|t| - 1] == inner;
  }

  /** Anything else loses the white space around it and nothing more. */
  lemma {:induction false} StripPlain(before: string, name: string, after: string)
    requires forall c :: c in before || c in after ==> c in WHITE
    requires name != "" && name[0] !in WHITE && name[|name| - 1] !in WHITE
    requires !(|name| >= 8 && name[..7] == "frozen<" && name[|name| - 1] == '>')
    ensures Stripped(before + name + after) == name
  {
    forall c ensures IsSpace(c) <==> c in WHITE {
      WhiteIs(c);
    }
    TrimAround(before, name, after);
    if Frozen(name) {
      FrozenLength(name);
    }
  }

  lemma {:induction false} TrimAround(before: string, t: string, after: string)
    requires forall c :: c in before || c in after ==> IsSpace(c)
    requires t != "" && !IsSpace(t[0]) && !IsSpace(t[|t| - 1])
    ensures Trim(before + t + after) == t
  {
    TrimBefore(before, t + after);
    assert before + t + after == before + (t + after) && (t + after)[0] == t[0];
    TrimAfter(t, after);
  }

  lemma {:induction false} TrimBefore(before: string, t: string)
    requires (forall c :: c in before ==> IsSpace(c)) && (t != "" ==> !IsSpace(t[0]))
    ensures TrimLeft(before + t) == t
  {
    if before == "" {
      assert before + t == t;
    } else {
      assert (before + t)[1..] == before[1..] + t && before[0] in before;
      TrimBefore(before[1..], t);
    }
  }

  lemma {:induction false} TrimAfter(t: string, after: string)
    requires (forall c :: c in after ==> IsSpace(c)) && (t != "" ==> !IsSpace(t[|t| - 1]))
    ensures TrimRight(t + after) == t
  {
    var n := |after| - 1;
    if after == "" {
      assert t + after == t;
    } else {
      assert (t + after)[..|t| + n] == t + after[..n] && after[n] in after;
      TrimAfter(t, after[..n]);
    }
  }

  // ---- resolving references to user types ----

  /** `rewriteUDTTypeInfo`: opaque types that name a known user type become references to it. */
  function Rewrite(t: Type, udts: set<string>, keyspace: string): Type {
    match t
    case ListOf(isSet, elem) => ListOf(isSet, Rewrite(elem, udts, keyspace))
    case MapOf(key, elem) => MapOf(Rewrite(key, udts, keyspace), Rewrite(elem, udts, keyspace))
    case Tuple(elems) => Tuple(RewriteAll(elems, udts, keyspace))
    case Opaque(v) => if Stripped(v) in udts then Udt(keyspace, Stripped(v)) else t
    case _ => t
  }

  function RewriteAll(ts: seq<Type>, udts: set<string>, keyspace: string): (rs: seq<Type>)
    ensures |rs| == |ts|
    ensures forall i :: 0 <= i < |ts| ==> rs[i] == Rewrite(ts[i], udts, keyspace)
  {
    if ts == [] then [] else [Rewrite(ts[0], udts, keyspace)] + RewriteAll(ts[1..], udts, keyspace)
  }

  /**
   The same tree, except that an opaque leaf may have become a reference to the user type it
   names, in the keyspace.
   */
  predicate SameShape(t: Type, u: Type, keyspace: string) {
    match t
    case ListOf(isSet, elem) => u.ListOf? && u.isSet == isSet && SameShape(elem, u.elem, keyspace)
    case MapOf(key, elem) => u.MapOf? && SameShape(key, u.key, keyspace) && SameShape(elem, u.elem, keyspace)
    case Tuple(elems) =>
      u.Tuple? && |u.elems| == |elems| && forall i :: 0 <= i < |elems| ==> SameShape(elems[i], u.elems[i], keyspace)
    case Opaque(v) => u == t || u == Udt(keyspace, Stripped(v))
    case _ => u == t
  }

  lemma {:induction false} RewriteKeepsShape(t: Type, udts: set<string>, keyspace: string)
    ensures SameShape(t, Rewrite(t, udts, keyspace), keyspace)
  {
    match t
    case ListOf(_, elem) => RewriteKeepsShape(elem, udts, keyspace);
    case MapOf(key, elem) =>
      RewriteKeepsShape(key, udts, keyspace);
      RewriteKeepsShape(elem, udts, keyspace);
    case Tuple(elems) =>
      forall i | 0 <= i < |elems| ensures SameShape(elems[i], Rewrite(elems[i], udts, keyspace), keyspace) {
        RewriteKeepsShape(elems[i], udts, keyspace);
      }
    case _ =>
  }

  /** Resolving twice is resolving once. */
  lemma {:induction false} RewriteTwice(t: Type, udts: set<string>, keyspace: string)
    ensures Rewrite(Rewrite(t, udts, keyspace), udts, keyspace) == Rewrite(t, udts, keyspace)
  {
    match t
    case ListOf(_, elem) => RewriteTwice(elem, udts, keyspace);
    case MapOf(key, elem) =>
      RewriteTwice(key, udts, keyspace);
      RewriteTwice(elem, udts, keyspace);
    case Tuple(elems) =>
      var once := RewriteAll(elems, udts, keyspace);
      forall i | 0 <= i < |elems| ensures Rewrite(once[i], udts, keyspace) == once[i] {
        RewriteTwice(elems[i], udts, keyspace);
      }
      assert RewriteAll(once, udts, keyspace) == once;
    case _ =>
  }

  // ---- which user types a type uses ----

  /** `typeUsesName`. */
  predicate UsesName(t: Type, name: string) {
    match t
    case Udt(_, n) => n == name
    case MapOf(key, elem) => UsesName(key, name) || UsesName(elem, name)
    case ListOf(_, elem) => UsesName(elem, name)
    case Tuple(elems) => exists i :: 0 <= i < |elems| && UsesName(elems[i], name)
    case _ => false
  }

  /** All types a type consists of, itself included. */
  function TypesIn(t: Type): set<Type> {
    match t
    case ListOf(_, elem) => {t} + TypesIn(elem)
    case MapOf(key, elem) => {t} + TypesIn(key) + TypesIn(elem)
    case Tuple(elems) => {t} + set i, u | 0 <= i < |elems| && u in TypesIn(elems[i]) :: u
    case _ => {t}
  }

  /** A type uses a name exactly if a reference to it is among its parts. */
  lemma {:induction false} UsesMeans(t: Type, name: string)
    ensures UsesName(t, name) <==> exists u :: u in TypesIn(t) && u.Udt? && u.name == name
  {
    match t
    case ListOf(_, elem) =>
      UsesMeans(elem, name);
      assert TypesIn(t) == {t} + TypesIn(elem);
    case MapOf(key, elem) =>
      UsesMeans(key, name);
      UsesMeans(elem, name);
      assert TypesIn(t) == {t} + TypesIn(key) + TypesIn(elem);
    case Tuple(elems) =>
      forall i | 0 <= i < |elems|
        ensures UsesName(elems[i], name) <==> exists u :: u in TypesIn(elems[i]) && u.Udt? && u.name == name
      {
        UsesMeans(elems[i], name);
      }
      if UsesName(t, name) {
        var i :| 0 <= i < |elems| && UsesName(elems[i], name);
        var u :| u in TypesIn(elems[i]) && u.Udt? && u.name == name;
        assert u in TypesIn(t);
      }
      forall u | u in TypesIn(t) && u.Udt? && u.name == name ensures UsesName(t, name) {
        var i :| 0 <= i < |elems| && u in TypesIn(elems[i]);
        assert UsesName(elems[i], name);
      }
    case Udt(_, _) => assert TypesIn(t) == {t};
    case Nil => assert TypesIn(t) == {t};
    case Native(_) => assert TypesIn(t) == {t};
    case Opaque(_) => assert TypesIn(t) == {t};
  }

  /** Before resolution: a reference to `name`, or an opaque leaf that stands for the known user type `name`. */
  predicate Mentions(t: Type, name: string, udts: set<string>) {
    match t
    case Udt(_, n) => n == name
    case Opaque(v) => Stripped(v) == name && name in udts
    case MapOf(key, elem) => Mentions(key, name, udts) || Mentions(elem, name, udts)
    case ListOf(_, elem) => Mentions(elem, name, udts)
    case Tuple(elems) => exists i :: 0 <= i < |elems| && Mentions(elems[i], name, udts)
    case _ => false
  }

  /** After resolution a name is used exactly if it was mentioned before. */
  lemma {:induction false} RewriteUses(t: Type, udts: set<string>, keyspace: string, name: string)
    ensures UsesName(Rewrite(t, udts, keyspace), name) <==> Mentions(t, name, udts)
  {
    match t
    case ListOf(_, elem) => RewriteUses(elem, udts, keyspace, name);
    case MapOf(key, elem) =>
      RewriteUses(key, udts, keyspace, name);
      RewriteUses(elem, udts, keyspace, name);
    case Tuple(elems) =>
      forall i | 0 <= i < |elems|
        ensures UsesName(Rewrite(elems[i], udts, keyspace), name) <==> Mentions(elems[i], name, udts)
      {
        RewriteUses(elems[i], udts, keyspace, name);
      }
    case _ =>
  }
}
