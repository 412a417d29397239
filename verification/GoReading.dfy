/**
 A reader of Go type texts: slices, byte arrays, maps, structs with numbered fields, and words.
 Reading what is printed for a CQL type gives back the type part by part.
 */
module GoReading {
  import opened Text
  import opened Camelizing
  import opened CqlTypes
  import opened GoTexts
  import Durations

  datatype Syntax =
    | Word(text: string)
    | SliceOf(item: Syntax)
    | ArrayOf16(item: Syntax)
    | MapFrom(index: Syntax, item: Syntax)
    | StructOf(fields: seq<Syntax>)

  datatype Reading = NoType | Reading(syntax: Syntax, rest: string)

  predicate Starts(s: string, p: string) {
    |p| <= |s| && s[..|p|] == p
  }

  predicate IsWordByte(c: char) {
    'a' <= c <= 'z' || 'A' <= c <= 'Z' || '0' <= c <= '9' || c == '.'
  }

  function WordRun(s: string): (n: nat)
    ensures n <= |s|
  {
    if s == "" || !IsWordByte(s[0]) then 0 else 1 + WordRun(s[1..])
  }

  /** The type at the start of a text, and what follows it. */
  function ReadType(s: string): (r: Reading)
    ensures r.Reading? ==> |r.rest| < |s|
    decreases |s|
  {
    if Starts(s, "[]") then
      var r := ReadType(s[2..]);
      if r.NoType? then NoType else Reading(SliceOf(r.syntax), r.rest)
    else if Starts(s, "[16]") then
      var r := ReadType(s[4..]);
      if r.NoType? then NoType else Reading(ArrayOf16(r.syntax), r.rest)
    else if Starts(s, "map[") then
      var k := ReadType(s[4..]);
      if k.NoType? || !Starts(k.rest, "]") then NoType else
        var e := ReadType(k.rest[1..]);
        if e.NoType? then NoType else Reading(MapFrom(k.syntax, e.syntax), e.rest)
    else if Starts(s, "struct {\n") then ReadFields(s[9..], [])
    else
      var n := WordRun(s);
      if n == 0 then NoType else Reading(Word(s[..n]), s[n..])
  }

  /** The fields of a struct up to its closing brace, numbered on from those read before. */
  function ReadFields(s: string, before: seq<Syntax>): (r: Reading)
    ensures r.Reading? ==> |r.rest| < |s|
    decreases |s|
  {
    if Starts(s, "\t}") then Reading(StructOf(before), s[2..])
    else if !Starts(s, "\t\tField") then NoType
    else
      var t := s[7..];
      var n := Durations.DigitRun(t);
      if n == 0 || ParseDecimal(t[..n]) != |before| + 1 || !Starts(t[n..], " ") then NoType
      else
        var r := ReadType(t[n + 1..]);
        if r.NoType? || !Starts(r.rest, "\n") then NoType
        else ReadFields(r.rest[1..], before + [r.syntax])
  }

  /** The Go types for the CQL types without parts. */
  function NativeSyntax(code: Code): Syntax {
    match code
    case Ascii | Text | Varchar | Inet => Word("string")
    case BigInt | Varint => Word("int64")
    case Blob => SliceOf(Word("byte"))
    case Boolean => Word("bool")
    case Counter => Word("int")
    case Date | Timestamp => Word("time.Time")
    case Decimal => Word("inf.Dec")
    case Double => Word("float64")
    case Float => Word("float32")
    case Int => Word("int32")
    case SmallInt => Word("int16")
    case TinyInt => Word("int8")
    case Time => Word("time.Duration")
    case UUID | TimeUUID => ArrayOf16(Word("byte"))
    case Duration => Word("gocqlv2.Duration")
    case List | Set => SliceOf(Word("any"))
    case Map => MapFrom(Word("any"), Word("any"))
    case TupleCode | UserType | Other => Word("any")
  }

  /** The Go type of a CQL type, as syntax. */
  function SyntaxOf(t: Type): Syntax
    requires Printable(t)
  {
    match t
    case Native(code) => NativeSyntax(code)
    case ListOf(_, elem) => SliceOf(SyntaxOf(elem))
    case MapOf(key, elem) => MapFrom(SyntaxOf(key), SyntaxOf(elem))
    case Tuple(elems) => StructOf(seq(|elems|, i requires 0 <= i < |elems| => SyntaxOf(elems[i])))
    case Udt(_, name) => Word(Camel(name).value + "UserType")
    case Opaque(_) => Word("any")
  }

  /** What may follow a type: nothing, the bracket after a map's key, or the end of a field's line. */
  predicate Stops(rest: string) {
    rest == "" || rest[0] == ']' || rest[0] == '\n'
  }

  predicate IsWord(w: string) {
    w != "" && forall i :: 0 <= i < |w| ==> IsWordByte(w[i])
  }

  lemma {:induction false} RunOfWord(w: string, rest: string)
    requires (forall i :: 0 <= i < |w| ==> IsWordByte(w[i])) && Stops(rest)
    ensures WordRun(w + rest) == |w|
  {
    if w == "" {
      assert w + rest == rest;
    } else {
      assert (w + rest)[1..] == w[1..] + rest;
      RunOfWord(w[1..], rest);
    }
  }

  lemma {:induction false} ReadWord(w: string, rest: string)
    requires IsWord(w) && Stops(rest)
    ensures ReadType(w + rest) == Reading(Word(w), rest)
  {
    var s := w + rest;
    assert s[0] == w[0];
    NoStart(w, rest, "map[", 3);
    NoStart(w, rest, "struct {\n", 6);
    RunOfWord(w, rest);
    assert s[..|w|] == w && s[|w|..] == rest;
  }

  /** A word and a stop do not start like `p`, which has a byte of neither kind at `k`. */
  lemma {:induction false} NoStart(w: string, rest: string, p: string, k: nat)
    requires IsWord(w) && Stops(rest) && k < |p|
    requires !IsWordByte(p[k]) && forall i :: 0 <= i <= k ==> p[i] != ']' && p[i] != '\n'
    ensures !Starts(w + rest, p)
  {
    var s, j := w + rest, if k < |w| then k else |w|;
    if j < |s| {
      assert s[j] == if k < |w| then w[k] else rest[0];
      assert p[j] != s[j] && (|p| <= |s| ==> s[..|p|][j] == s[j]);
    }
  }

  lemma {:induction false} StartsWith(p: string, s: string)
    ensures Starts(p + s, p) && (p + s)[|p|..] == s
  {
  }

  lemma {:induction false} ReadSlice(text: string, rest: string, x: Syntax)
    requires ReadType(text + rest) == Reading(x, rest)
    ensures ReadType("[]" + text + rest) == Reading(SliceOf(x), rest)
  {
    StartsWith("[]", text + rest);
    assert "[]" + text + rest == "[]" + (text + rest);
  }

  lemma {:induction false} ReadArray(text: string, rest: string, x: Syntax)
    requires ReadType(text + rest) == Reading(x, rest)
    ensures ReadType("[16]" + text + rest) == Reading(ArrayOf16(x), rest)
  {
    var s := "[16]" + text + rest;
    StartsWith("[16]", text + rest);
    assert s == "[16]" + (text + rest) && s[..2][1] == '1';
    assert !Starts(s, "[]");
  }

  lemma {:induction false} ReadMap(key: string, elem: string, rest: string, x: Syntax, y: Syntax)
    requires ReadType(key + ("]" + (elem + rest))) == Reading(x, "]" + (elem + rest))
    requires ReadType(elem + rest) == Reading(y, rest)
    ensures ReadType("map[" + key + "]" + elem + rest) == Reading(MapFrom(x, y), rest)
  {
    hide ReadType, Starts;
    var tail := "]" + (elem + rest);
    var s := "map[" + key + "]" + elem + rest;
    StartsWith("map[", key + tail);
    StartsWith("]", elem + rest);
    assert s == "map[" + (key + tail);
    OtherStart(s, "[]");
    OtherStart(s, "[16]");
    MapStep(s, key + tail, tail, elem + rest);
  }

  lemma {:induction false} OtherStart(s: string, p: string)
    requires s != "" && p != "" && s[0] != p[0]
    ensures !Starts(s, p)
  {
    if |p| <= |s| {
      assert s[..|p|][0] == s[0];
    }
  }

  lemma {:induction false} MapStep(s: string, inner: string, tail: string, last: string)
    requires Starts(s, "map[") && !Starts(s, "[]") && !Starts(s, "[16]") && s[4..] == inner
    requires ReadType(inner).Reading? && ReadType(inner).rest == tail && Starts(tail, "]") && tail[1..] == last
    requires ReadType(last).Reading?
    ensures ReadType(s) == Reading(MapFrom(ReadType(inner).syntax, ReadType(last).syntax), ReadType(last).rest)
  {
    hide Starts;
  }

  /** One field, and the fields after it. */
  lemma {:induction false} ReadField(before: seq<Syntax>, text: string, tail: string, x: Syntax)
    requires ReadType(text + ("\n" + tail)) == Reading(x, "\n" + tail)
    ensures ReadFields(FieldText(|before|, text) + tail, before) == ReadFields(tail, before + [x])
  {
    hide ReadType, ReadFields, Starts, Durations.DigitRun, ParseDecimal, Itoa;
    var number, line := Itoa(|before| + 1), text + ("\n" + tail);
    NumberText(|before| + 1);
    FieldSplit(number, text, tail);
    StartsWith("\t\tField", number + (" " + line));
    Durations.DigitRunIs(number, " " + line);
    StartsWith(number, " " + line);
    StartsWith(" ", line);
    StartsWith("\n", tail);
    var s := "\t\tField" + (number + (" " + line));
    NotClosed(s);
    assert (number + (" " + line))[|number|..] == " " + line;
    assert (number + (" " + line))[|number| + 1..] == line && (number + (" " + line))[..|number|] == number;
    FieldStep(s, number, line, before, x, tail);
  }

  lemma {:induction false} NumberText(n: nat)
    ensures Itoa(n) != "" && AllDigits(Itoa(n)) && ParseDecimal(Itoa(n)) == n
  {
    ParseDecimalOfDecimal(n);
  }

  lemma {:induction false} NotClosed(s: string)
    ensures Starts(s, "\t\tField") ==> !Starts(s, "\t}")
  {
    if Starts(s, "\t\tField") {
      assert s[1] == s[..7][1] == '\t';
      assert |s| >= 2 && s[..2][1] == '\t';
    }
  }

  lemma {:induction false} FieldStep(s: string, number: string, line: string, before: seq<Syntax>, x: Syntax,
                                     tail: string)
    requires Starts(s, "\t\tField") && !Starts(s, "\t}")
    requires var t := s[7..]; var n := Durations.DigitRun(t);
      n > 0 && ParseDecimal(t[..n]) == |before| + 1 && Starts(t[n..], " ") && t[n + 1..] == line
    requires ReadType(line) == Reading(x, "\n" + tail) && Starts("\n" + tail, "\n")
    ensures ReadFields(s, before) == ReadFields(tail, before + [x])
  {
    hide ReadType, Durations.DigitRun, ParseDecimal, Starts;
    assert ("\n" + tail)[1..] == tail;
  }

  lemma {:induction false} FieldSplit(number: string, text: string, tail: string)
    ensures "\t\tField" + number + " " + text + "\n" + tail == "\t\tField" + (number + (" " + (text + ("\n" + tail))))
  {
  }

  /** The texts of the fields from number `i` on. */
  function FieldsFrom(elems: seq<Type>, i: nat): string
    requires i <= |elems| && forall j :: 0 <= j < |elems| ==> Printable(elems[j])
    decreases |elems| - i
  {
    if i == |elems| then "" else FieldText(i, GoText(elems[i])) + FieldsFrom(elems, i + 1)
  }

  lemma {:induction false} FieldsSplit(elems: seq<Type>, i: nat)
    requires i <= |elems| && forall j :: 0 <= j < |elems| ==> Printable(elems[j])
    ensures FieldTexts(elems) == FieldTexts(elems[..i]) + FieldsFrom(elems, i)
    decreases |elems| - i
  {
    hide FieldText, GoText;
    if i == |elems| {
      assert elems[..i] == elems;
    } else {
      FieldsSplit(elems, i + 1);
      assert elems[..i + 1][..i] == elems[..i];
      assert FieldTexts(elems[..i + 1]) == FieldTexts(elems[..i]) + FieldText(i, GoText(elems[i]));
    }
  }

  /** Reading the text of a CQL type gives the type back, key apart from element and fields in order. */
  lemma {:induction false} ReadsBack(t: Type, rest: string)
    requires Printable(t) && Stops(rest)
    ensures ReadType(GoText(t) + rest) == Reading(SyntaxOf(t), rest)
    decreases t, 1
  {
    hide ReadType, ReadFields;
    match t
    case Native(code) => NativeReads(code, rest);
    case ListOf(_, elem) =>
      ReadsBack(elem, rest);
      ReadSlice(GoText(elem), rest, SyntaxOf(elem));
    case MapOf(key, elem) =>
      ReadsBack(key, "]" + (GoText(elem) + rest));
      ReadsBack(elem, rest);
      ReadMap(GoText(key), GoText(elem), rest, SyntaxOf(key), SyntaxOf(elem));
    case Tuple(elems) => TupleReads(elems, rest);
    case Udt(_, name) =>
      CamelShape(name);
      ReadWord(Camel(name).value + "UserType", rest);
    case Opaque(_) => ReadWord("any", rest);
  }

  lemma {:induction false} TupleReads(elems: seq<Type>, rest: string)
    requires (forall i :: 0 <= i < |elems| ==> Printable(elems[i])) && Stops(rest)
    ensures ReadType(GoText(Tuple(elems)) + rest) == Reading(SyntaxOf(Tuple(elems)), rest)
    decreases elems, 2
  {
    hide ReadType, ReadFields, FieldTexts, FieldsFrom;
    var tail := FieldsFrom(elems, 0) + "\t}" + rest;
    NoFields();
    FieldsSplit(elems, 0);
    assert elems[..0] == [] && SyntaxOf(Tuple(elems)).fields[..0] == [];
    assert FieldTexts(elems) == FieldsFrom(elems, 0);
    FieldsRead(elems, 0, rest);
    ReadStruct(tail);
    assert GoText(Tuple(elems)) + rest == "struct {\n" + tail;
  }

  lemma {:induction false} NoFields()
    ensures FieldTexts([]) == ""
  {
  }

  lemma {:induction false} ReadStruct(tail: string)
    ensures ReadType("struct {\n" + tail) == ReadFields(tail, [])
  {
    var s := "struct {\n" + tail;
    StartsWith("struct {\n", tail);
    assert s[0] == 's' && forall p: string {:trigger Starts(s, p)} :: |p| > 0 && p[0] != 's' ==> !Starts(s, p);
  }

  lemma {:induction false} FieldsRead(elems: seq<Type>, i: nat, rest: string)
    requires i <= |elems| && forall j :: 0 <= j < |elems| ==> Printable(elems[j])
    ensures var fields := SyntaxOf(Tuple(elems)).fields;
      ReadFields(FieldsFrom(elems, i) + "\t}" + rest, fields[..i]) == Reading(StructOf(fields), rest)
    decreases elems, 1, |elems| - i
  {
    hide ReadType, ReadFields, FieldText, GoText;
    var fields := SyntaxOf(Tuple(elems)).fields;
    if i == |elems| {
      assert "" + "\t}" + rest == "\t}" + rest && fields[..i] == fields;
      EndOfFields(rest, fields);
    } else {
      var tail := FieldsFrom(elems, i + 1) + "\t}" + rest;
      ReadsBack(elems[i], "\n" + tail);
      ReadField(fields[..i], GoText(elems[i]), tail, SyntaxOf(elems[i]));
      FieldsRead(elems, i + 1, rest);
      assert fields[i] == SyntaxOf(elems[i]) && fields[..i] + [fields[i]] == fields[..i + 1];
      assert FieldsFrom(elems, i) + "\t}" + rest == FieldText(i, GoText(elems[i])) + tail;
    }
  }

  lemma {:induction false} EndOfFields(rest: string, fields: seq<Syntax>)
    ensures ReadFields("\t}" + rest, fields) == Reading(StructOf(fields), rest)
  {
    StartsWith("\t}", rest);
  }

  lemma {:induction false} NativeReads(code: Code, rest: string)
    requires Stops(rest)
    ensures ReadType(NativeText(code) + rest) == Reading(SyntaxOf(Native(code)), rest)
  {
    hide ReadType, IsWord, Stops;
    BytesAndAny();
    assert Stops("]" + ("any" + rest)) by { StopsAtBracket("any" + rest); }
    match code
    case Blob =>
      ReadWord("byte", rest);
      ReadSlice("byte", rest, Word("byte"));
      assert "[]" + "byte" == "[]byte";
    case UUID | TimeUUID =>
      ReadWord("byte", rest);
      ReadArray("byte", rest, Word("byte"));
      assert "[16]" + "byte" == "[16]byte";
    case List | Set =>
      ReadWord("any", rest);
      ReadSlice("any", rest, Word("any"));
      assert "[]" + "any" == "[]any";
    case Map =>
      ReadWord("any", "]" + ("any" + rest));
      ReadWord("any", rest);
      ReadMap("any", "any", rest, Word("any"), Word("any"));
      assert "map[" + "any" + "]" + "any" == "map[any]any";
    case _ =>
      WordOf(code);
      ReadWord(NativeText(code), rest);
  }

  lemma {:induction false} BytesAndAny()
    ensures IsWord("byte") && IsWord("any")
  {
  }

  lemma {:induction false} StopsAtBracket(s: string)
    ensures Stops("]" + s)
  {
  }

  /** The other codes print as one word. */
  lemma {:induction false} WordOf(code: Code)
    requires code != Blob && code != UUID && code != TimeUUID && code != List && code != Set && code != Map
    ensures IsWord(NativeText(code)) && NativeSyntax(code) == Word(NativeText(code))
  {
    hide IsWord;
    PlainWords();
    DottedWords();
  }

  lemma {:induction false} PlainWords()
    ensures IsWord("string") && IsWord("int64") && IsWord("bool") && IsWord("int") && IsWord("float64")
    ensures IsWord("float32") && IsWord("int32") && IsWord("int16") && IsWord("int8") && IsWord("any")
  {
  }

  lemma {:induction false} DottedWords()
    ensures IsWord("time.Time") && IsWord("inf.Dec") && IsWord("time.Duration") && IsWord("gocqlv2.Duration")
  {
  }
}
