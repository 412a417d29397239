/**
 What cmd/schemagen prints for a type, and the packages that text needs: map_types.go
 against `collectImports`.
 */
module GoTexts {
  import opened Text
  import opened Camelizing
  import opened CqlTypes

  function NativeText(code: Code): string {
    match code
    case Ascii | Text | Varchar | Inet => "string"
    case BigInt | Varint => "int64"
    case Blob => "[]byte"
    case Boolean => "bool"
    case Counter => "int"
    case Date | Timestamp => "time.Time"
    case Decimal => "inf.Dec"
    case Double => "float64"
    case Float => "float32"
    case Int => "int32"
    case SmallInt => "int16"
    case TinyInt => "int8"
    case Time => "time.Duration"
    case UUID | TimeUUID => "[16]byte"
    case Duration => "gocqlv2.Duration"
    case List | Set => "[]any"
    case Map => "map[any]any"
    case TupleCode | UserType | Other => "any"
  }

  /** The types that can be printed: no nil inside, and every user type has a proper name. */
  predicate Printable(t: Type) {
    match t
    case Nil => false
    case ListOf(_, elem) => Printable(elem)
    case MapOf(key, elem) => Printable(key) && Printable(elem)
    case Tuple(elems) => forall i :: 0 <= i < |elems| ==> Printable(elems[i])
    case Udt(_, name) => Nameable(name)
    case _ => true
  }

  /**
   A type can be printed exactly if nothing in it is nil and every user type's name is of the
   bytes that Go names allow.
   */
  lemma {:induction false} PrintableMeans(t: Type)
    ensures Printable(t) <==> forall u :: u in TypesIn(t) ==>
      && u != Nil
      && (u.Udt? ==> forall c :: c in u.name ==> 'a' <= c <= 'z' || 'A' <= c <= 'Z' || '0' <= c <= '9' || c == '_')
  {
    PrintableParts(t);
    forall u: Type
      ensures Writable(u) <==>
        && u != Nil
        && (u.Udt? ==> forall c :: c in u.name ==> 'a' <= c <= 'z' || 'A' <= c <= 'Z' || '0' <= c <= '9' || c == '_')
    {
      assert u.Udt? ==> (Nameable(u.name) <==> forall c :: c in u.name ==> AllowedBindRune(c) || c == '_');
    }
  }

  predicate Writable(u: Type) {
    u != Nil && (u.Udt? ==> Nameable(u.name))
  }

  lemma {:induction false} PrintableParts(t: Type)
    ensures Printable(t) <==> forall u :: u in TypesIn(t) ==> Writable(u)
  {
    hide Nameable;
    match t
    case ListOf(_, elem) =>
      PrintableParts(elem);
      assert TypesIn(t) == {t} + TypesIn(elem) && Writable(t);
    case MapOf(key, elem) =>
      PrintableParts(key);
      PrintableParts(elem);
      assert TypesIn(t) == {t} + TypesIn(key) + TypesIn(elem) && Writable(t);
    case Tuple(elems) =>
      forall i | 0 <= i < |elems| ensures Printable(elems[i]) <==> forall u :: u in TypesIn(elems[i]) ==> Writable(u) {
        PrintableParts(elems[i]);
      }
      assert t in TypesIn(t);
      if Printable(t) {
        forall u | u in TypesIn(t) ensures Writable(u) {
          if u != t {
            var i :| 0 <= i < |elems| && u in TypesIn(elems[i]);
          }
        }
      } else {
        var i :| 0 <= i < |elems| && !Printable(elems[i]);
        var u :| u in TypesIn(elems[i]) && !Writable(u);
        assert u in TypesIn(t);
      }
    case Nil => assert t in TypesIn(t) && !Writable(t);
    case Udt(_, _) => assert TypesIn(t) == {t} && (Printable(t) <==> Writable(t));
    case Native(_) => assert TypesIn(t) == {t} && Writable(t);
    case Opaque(_) => assert TypesIn(t) == {t} && Writable(t);
  }

  function GoText(t: Type): string
    requires Printable(t)
  {
    match t
    case Native(code) => NativeText(code)
    case ListOf(_, elem) => "[]" + GoText(elem)
    case MapOf(key, elem) => "map[" + GoText(key) + "]" + GoText(elem)
    case Tuple(elems) => "struct {\n" + FieldTexts(elems) + "\t}"
    case Udt(_, name) => Camel(name).value + "UserType"
    case Opaque(_) => "any"
  }

  /** The fields of a tuple's struct, numbered from one. */
  function FieldTexts(elems: seq<Type>): string
    requires forall i :: 0 <= i < |elems| ==> Printable(elems[i])
  {
    if elems == [] then ""
    else
      var n := |elems| - 1;
      FieldTexts(elems[..n]) + FieldText(n, GoText(elems[n]))
  }

  function FieldText(i: nat, text: string): string {
    "\t\tField" + Itoa(i + 1) + " " + text + "\n"
  }

  // ---- qualifiers ----

  datatype Package = TimePackage | InfPackage | GocqlPackage
  {
    function Word(): string {
      match this case TimePackage => "time" case InfPackage => "inf" case GocqlPackage => "gocqlv2"
    }

    function Path(): string {
      match this
      case TimePackage => "time"
      case InfPackage => "gopkg.in/inf.v0"
      case GocqlPackage => "github.com/apache/cassandra-gocql-driver/v2"
    }
  }

  /** The package word ends right before position `j`, where there is a dot. */
  predicate QualifiesAt(s: string, p: Package, j: nat) {
    j < |s| && s[j] == '.' && j >= |p.Word()| && s[j - |p.Word()|..j] == p.Word()
  }

  /** The text uses the package: somewhere it says `time.` and so on. */
  ghost predicate Qualifies(s: string, p: Package) {
    exists j :: QualifiesAt(s, p, j)
  }

  /** Every dot belongs to a package word. */
  ghost predicate DotsQualify(s: string) {
    forall j :: 0 <= j < |s| && s[j] == '.' ==> exists p :: QualifiesAt(s, p, j)
  }

  /** `t` says of its text exactly the packages of `ps`. */
  ghost predicate Says(s: string, ps: set<Package>) {
    DotsQualify(s) && forall p: Package :: Qualifies(s, p) <==> p in ps
  }

  /** The packages `collectImports` asks for. */
  function Required(t: Type): set<Package> {
    match t
    case Native(Timestamp) => {TimePackage}
    case Native(Date) => {TimePackage}
    case Native(Time) => {TimePackage}
    case Native(Decimal) => {InfPackage}
    case Native(Duration) => {GocqlPackage}
    case ListOf(_, elem) => Required(elem)
    case MapOf(key, elem) => Required(key) + Required(elem)
    case Tuple(elems) => RequiredAll(elems)
    case _ => {}
  }

  function RequiredAll(ts: seq<Type>): set<Package> {
    if ts == [] then {} else RequiredAll(ts[..|ts| - 1]) + Required(ts[|ts| - 1])
  }

  lemma {:induction false} SaysConcat(a: string, b: string, ps: set<Package>, qs: set<Package>)
    requires Says(a, ps) && Says(b, qs)
    ensures Says(a + b, ps + qs)
  {
    DotsConcat(a, b);
    forall p: Package ensures Qualifies(a + b, p) <==> Qualifies(a, p) || Qualifies(b, p) {
      QualifiesConcat(a, b, p);
    }
  }

  lemma {:induction false} DotsConcat(a: string, b: string)
    requires DotsQualify(a) && DotsQualify(b)
    ensures DotsQualify(a + b)
  {
    var s := a + b;
    forall j | 0 <= j < |s| && s[j] == '.' ensures exists p :: QualifiesAt(s, p, j) {
      if j < |a| {
        var p :| QualifiesAt(a, p, j);
        QualifiesLeft(a, b, p, j);
      } else {
        var p :| QualifiesAt(b, p, j - |a|);
        QualifiesRight(a, b, p, j - |a|);
      }
    }
  }

  lemma {:induction false} QualifiesConcat(a: string, b: string, p: Package)
    requires DotsQualify(b)
    ensures Qualifies(a + b, p) <==> Qualifies(a, p) || Qualifies(b, p)
  {
    if Qualifies(a, p) {
      var j :| QualifiesAt(a, p, j);
      QualifiesLeft(a, b, p, j);
    } else if Qualifies(b, p) {
      var j :| QualifiesAt(b, p, j);
      QualifiesRight(a, b, p, j);
    } else if Qualifies(a + b, p) {
      var j :| QualifiesAt(a + b, p, j);
      NotAcross(a, b, p, j);
    }
  }

  /** A package word cannot reach across a concatenation: the dot in `b` has its own word in `b`. */
  lemma {:induction false} NotAcross(a: string, b: string, p: Package, j: nat)
    requires DotsQualify(b) && QualifiesAt(a + b, p, j)
    ensures if j < |a| then QualifiesAt(a, p, j) else QualifiesAt(b, p, j - |a|)
  {
    if j < |a| {
      QualifiesLeft(a, b, p, j);
    } else {
      var q :| QualifiesAt(b, q, j - |a|);
      QualifiesRight(a, b, q, j - |a|);
      OneWord(a + b, p, q, j);
    }
  }

  lemma {:induction false} QualifiesLeft(a: string, b: string, p: Package, j: nat)
    requires j < |a|
    ensures QualifiesAt(a + b, p, j) <==> QualifiesAt(a, p, j)
  {
    if j >= |p.Word()| {
      assert (a + b)[j - |p.Word()|..j] == a[j - |p.Word()|..j];
    }
  }

  lemma {:induction false} QualifiesRight(a: string, b: string, p: Package, j: nat)
    requires QualifiesAt(b, p, j)
    ensures QualifiesAt(a + b, p, |a| + j)
  {
    assert (a + b)[|a| + j - |p.Word()|..|a| + j] == b[j - |p.Word()|..j];
  }

  /** The words end in different letters, so a dot belongs to one package only. */
  lemma {:induction false} OneWord(s: string, p: Package, q: Package, j: nat)
    requires QualifiesAt(s, p, j) && QualifiesAt(s, q, j)
    ensures p == q
  {
    LastLetter(s, p, j);
    LastLetter(s, q, j);
  }

  lemma {:induction false} LastLetter(s: string, p: Package, j: nat)
    requires QualifiesAt(s, p, j)
    ensures s[j - 1] == match p case TimePackage => 'e' case InfPackage => 'f' case GocqlPackage => '2'
  {
    var w := p.Word();
    assert s[j - |w|..j][|w| - 1] == s[j - 1];
  }

  lemma {:induction false} NoDots(s: string)
    requires '.' !in s
    ensures Says(s, {})
  {
  }

  lemma {:induction false} NativeSays(code: Code)
    ensures Says(NativeText(code), Required(Native(code)))
  {
    hide Says;
    match code
    case Date => TimeSays();
    case Timestamp => TimeSays();
    case Time => DurationSays();
    case Decimal => DecSays();
    case Duration => GocqlSays();
    case _ => PlainNative(code);
  }

  lemma {:induction false} TimeSays()
    ensures Says("time.Time", {TimePackage})
  {
    hide Says;
    OneDot("time.Time", TimePackage, "Time");
  }

  lemma {:induction false} DurationSays()
    ensures Says("time.Duration", {TimePackage})
  {
    hide Says;
    OneDot("time.Duration", TimePackage, "Duration");
  }

  lemma {:induction false} DecSays()
    ensures Says("inf.Dec", {InfPackage})
  {
    hide Says;
    OneDot("inf.Dec", InfPackage, "Dec");
  }

  lemma {:induction false} GocqlSays()
    ensures Says("gocqlv2.Duration", {GocqlPackage})
  {
    hide Says;
    OneDot("gocqlv2.Duration", GocqlPackage, "Duration");
  }

  lemma {:induction false} PlainNative(code: Code)
    requires code != Date && code != Timestamp && code != Time && code != Decimal && code != Duration
    ensures Says(NativeText(code), {}) && Required(Native(code)) == {}
  {
    hide Says;
    match code
    case Ascii | Text | Varchar | Inet => NoDots("string");
    case BigInt | Varint => NoDots("int64");
    case Blob => NoDots("[]byte");
    case Boolean => NoDots("bool");
    case Counter => NoDots("int");
    case Double => NoDots("float64");
    case Float => NoDots("float32");
    case Int => NoDots("int32");
    case SmallInt => NoDots("int16");
    case TinyInt => NoDots("int8");
    case UUID | TimeUUID => NoDots("[16]byte");
    case List | Set => NoDots("[]any");
    case Map => NoDots("map[any]any");
    case TupleCode | UserType | Other => NoDots("any");
  }

  /** A package word and a name in the package. */
  lemma {:induction false} OneDot(s: string, p: Package, name: string)
    requires s == p.Word() + "." + name && '.' !in name
    ensures Says(s, {p})
  {
    var n := |p.Word()|;
    DotHere(s, p, name);
    forall q: Package | Qualifies(s, q) ensures q == p {
      var j :| QualifiesAt(s, q, j);
      OneWord(s, p, q, j);
    }
  }

  lemma {:induction false} DotHere(s: string, p: Package, name: string)
    requires s == p.Word() + "." + name && '.' !in name
    ensures QualifiesAt(s, p, |p.Word()|) && forall j :: 0 <= j < |s| && s[j] == '.' ==> j == |p.Word()|
  {
    var w, n := p.Word(), |p.Word()|;
    assert s[0..n] == w && '.' !in w;
    forall j | 0 <= j < |s| && j != n ensures s[j] != '.' {
      assert s[j] == if j < n then w[j] else name[j - n - 1];
    }
  }

  lemma {:induction false} SaysBetween(a: string, b: string, c: string, ps: set<Package>)
    requires '.' !in a && Says(b, ps) && '.' !in c
    ensures Says(a + b + c, ps)
  {
    hide Says;
    NoDots(a);
    NoDots(c);
    SaysConcat(a, b, {}, ps);
    SaysConcat(a + b, c, {} + ps, {});
    assert {} + ps + {} == ps;
  }

  /** The printed text uses exactly the packages the imports are collected for. */
  lemma {:induction false} TextNeedsImports(t: Type)
    requires Printable(t)
    ensures Says(GoText(t), Required(t))
  {
    hide Says;
    match t
    case Native(code) => NativeSays(code);
    case ListOf(_, elem) =>
      TextNeedsImports(elem);
      SaysBetween("[]", GoText(elem), "", Required(elem));
      assert "[]" + GoText(elem) + "" == GoText(t);
    case MapOf(key, elem) =>
      TextNeedsImports(key);
      TextNeedsImports(elem);
      SaysBetween("map[", GoText(key), "]", Required(key));
      SaysConcat("map[" + GoText(key) + "]", GoText(elem), Required(key), Required(elem));
    case Tuple(elems) =>
      FieldsNeedImports(elems);
      SaysBetween("struct {\n", FieldTexts(elems), "\t}", RequiredAll(elems));
    case Udt(_, name) =>
      CamelShape(name);
      NoDots(Camel(name).value + "UserType");
    case Opaque(_) => NoDots("any");
  }

  lemma {:induction false} FieldsNeedImports(elems: seq<Type>)
    requires forall i :: 0 <= i < |elems| ==> Printable(elems[i])
    ensures Says(FieldTexts(elems), RequiredAll(elems))
  {
    hide Says;
    if elems == [] {
      NoDots("");
    } else {
      var n := |elems| - 1;
      FieldsNeedImports(elems[..n]);
      TextNeedsImports(elems[n]);
      var head := "\t\tField" + Itoa(n + 1) + " ";
      SaysBetween(head, GoText(elems[n]), "\n", Required(elems[n]));
      SaysConcat(FieldTexts(elems[..n]), head + GoText(elems[n]) + "\n", RequiredAll(elems[..n]), Required(elems[n]));
    }
  }
}
