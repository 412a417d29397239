/**
 A statement template: the characters of a CQL statement with its parameters still
 in place, each parameter carrying its own name. The Go code never builds it; it
 writes the two channels `Stmt` and `Names` separately.
 */
module Templates {
  import opened Text

  datatype Piece = Ch(c: char) | Hole(name: string)
  type Template = seq<Piece>

  /** The characters of a text, none of them a parameter. */
  function Lit(s: string): Template {
    Chars(s, |s|)
  }

  function Chars(s: string, n: nat): (t: Template)
    requires n <= |s|
    ensures |t| == n
    decreases n
  {
    if n == 0 then [] else Chars(s, n - 1) + [Ch(s[n - 1])]
  }

  /** First channel: the statement text, every parameter written as `?`. */
  function Stmt(t: Template): (s: string)
    ensures |s| == |t|
  {
    if t == [] then "" else [if t[0].Ch? then t[0].c else '?'] + Stmt(t[1..])
  }

  /** Second channel: the parameter names in order. */
  function Names(t: Template): seq<string> {
    if t == [] then []
    else if t[0].Hole? then [t[0].name] + Names(t[1..])
    else Names(t[1..])
  }

  function Printed(p: Piece): string {
    match p
    case Hole(n) => ":" + n
    case Ch(c) => if c == ':' then "::" else [c]
  }

  /** The named query: parameters as `:name`, text colons doubled. */
  function Named(t: Template): string {
    if t == [] then "" else Printed(t[0]) + Named(t[1..])
  }

  /** The text obtained by writing each parameter's value at the parameter itself. */
  function Direct(t: Template, env: string -> string): string {
    if t == [] then "" else
      (match t[0]
       case Hole(n) => env(n)
       case Ch(c) => [c]) + Direct(t[1..], env)
  }

  /** What a driver does with the two channels: the i-th argument replaces the i-th `?`. */
  function Fill(stmt: string, args: seq<string>): string {
    if stmt == "" then ""
    else if stmt[0] == '?' && args != [] then args[0] + Fill(stmt[1..], args[1..])
    else [stmt[0]] + Fill(stmt[1..], args)
  }

  /** The `?` bytes of the text itself, which are no parameters. */
  function Marks(t: Template): nat {
    if t == [] then 0 else (if t[0] == Ch('?') then 1 else 0) + Marks(t[1..])
  }

  predicate IsSeparator(p: Piece) {
    p == Ch(',') || p == Ch(')') || p == Ch(' ')
  }

  /** Every hole but one at the very end is followed by `,`, `)` or a space. */
  predicate Inner(t: Template) {
    t != [] ==> (t[0].Hole? && |t| > 1 ==> IsSeparator(t[1])) && Inner(t[1..])
  }

  predicate Open(t: Template) {
    t != [] && t[|t| - 1].Hole?
  }

  predicate Separated(t: Template) {
    Inner(t) && !Open(t)
  }

  lemma {:induction false} InnerConcat(a: Template, b: Template)
    requires Inner(a) && Inner(b)
    requires Open(a) && b != [] ==> IsSeparator(b[0])
    ensures Inner(a + b)
    ensures b != [] ==> Open(a + b) == Open(b)
    ensures b == [] ==> a + b == a
  {
    if a == [] {
      assert a + b == b;
    } else {
      assert (a + b)[1..] == a[1..] + b;
      InnerConcat(a[1..], b);
    }
  }

  lemma {:induction false} Cons(p: Piece, t: Template)
    ensures Stmt([p] + t) == [if p.Ch? then p.c else '?'] + Stmt(t)
    ensures Names([p] + t) == if p.Hole? then [p.name] + Names(t) else Names(t)
    ensures Marks([p] + t) == (if p == Ch('?') then 1 else 0) + Marks(t)
  {
    assert ([p] + t)[1..] == t;
  }

  lemma {:induction false} Concat(a: Template, b: Template)
    ensures Stmt(a + b) == Stmt(a) + Stmt(b)
    ensures Names(a + b) == Names(a) + Names(b)
    ensures Marks(a + b) == Marks(a) + Marks(b)
  {
    ConcatStmt(a, b);
    ConcatNames(a, b);
    ConcatMarks(a, b);
  }

  lemma {:induction false} ConcatStmt(a: Template, b: Template)
    ensures Stmt(a + b) == Stmt(a) + Stmt(b)
  {
    if a == [] {
      assert a + b == b;
    } else {
      ConcatStmt(a[1..], b);
      Split(a, b);
      Cons(a[0], a[1..] + b);
    }
  }

  lemma {:induction false} ConcatNames(a: Template, b: Template)
    ensures Names(a + b) == Names(a) + Names(b)
  {
    if a == [] {
      assert a + b == b;
    } else {
      ConcatNames(a[1..], b);
      Split(a, b);
      Cons(a[0], a[1..] + b);
    }
  }

  lemma {:induction false} ConcatMarks(a: Template, b: Template)
    ensures Marks(a + b) == Marks(a) + Marks(b)
  {
    if a == [] {
      assert a + b == b;
    } else {
      ConcatMarks(a[1..], b);
      Split(a, b);
      Cons(a[0], a[1..] + b);
    }
  }

  lemma {:induction false} Split(a: Template, b: Template)
    requires a != []
    ensures a + b == [a[0]] + (a[1..] + b) && a == [a[0]] + a[1..]
  {
  }

  lemma {:induction false} OfLit(s: string)
    ensures Stmt(Lit(s)) == s
    ensures Names(Lit(s)) == []
    ensures Separated(Lit(s))
    ensures Marks(Lit(s)) == Count(s, '?')
  {
    OfChars(s, |s|);
    assert s[..|s|] == s;
  }

  lemma {:induction false} OfChars(s: string, n: nat)
    requires n <= |s|
    ensures Stmt(Chars(s, n)) == s[..n]
    ensures Names(Chars(s, n)) == []
    ensures Separated(Chars(s, n))
    ensures Marks(Chars(s, n)) == Count(s[..n], '?')
  {
    if n > 0 {
      OfChars(s, n - 1);
      var c := s[n - 1];
      assert s[..n] == s[..n - 1] + [c];
      Concat(Chars(s, n - 1), [Ch(c)]);
      CountConcat(s[..n - 1], [c], '?');
      InnerConcat(Chars(s, n - 1), [Ch(c)]);
      assert Stmt([Ch(c)]) == [c];
    }
  }

  /** The number of `?` bytes is the number of names plus the `?` bytes of the text itself. */
  lemma {:induction false} HoleCount(t: Template)
    ensures Count(Stmt(t), '?') == |Names(t)| + Marks(t)
  {
    if t != [] {
      HoleCount(t[1..]);
      assert Stmt(t)[1..] == Stmt(t[1..]);
    }
  }

  function Arguments(names: seq<string>, env: string -> string): seq<string> {
    if names == [] then [] else [env(names[0])] + Arguments(names[1..], env)
  }

  /** Every `?` of the text itself comes after the last parameter. */
  predicate MarksLast(t: Template) {
    t != [] ==> (t[0] == Ch('?') ==> Names(t) == []) && MarksLast(t[1..])
  }

  lemma {:induction false} NoMarksLast(t: Template)
    requires Marks(t) == 0 || Names(t) == []
    ensures MarksLast(t)
  {
    if t != [] {
      NoMarksLast(t[1..]);
    }
  }

  /** Filling the two channels agrees with writing every value at its own parameter. */
  lemma {:induction false} FillIsDirect(t: Template, env: string -> string)
    requires MarksLast(t)
    ensures Fill(Stmt(t), Arguments(Names(t), env)) == Direct(t, env)
  {
    if t != [] {
      FillIsDirect(t[1..], env);
      assert Stmt(t)[1..] == Stmt(t[1..]);
      if t[0].Hole? {
        assert Names(t)[1..] == Names(t[1..]);
        assert Arguments(Names(t), env)[1..] == Arguments(Names(t[1..]), env);
      }
    }
  }

  /** A text that takes all of its arguments leaves what follows to the others. */
  lemma {:induction false} FillConcat(a: string, b: string, xs: seq<string>, ys: seq<string>)
    requires Count(a, '?') == |xs|
    ensures Fill(a + b, xs + ys) == Fill(a, xs) + Fill(b, ys)
  {
    if a == "" {
      assert a + b == b && xs + ys == ys;
    } else {
      assert (a + b)[1..] == a[1..] + b;
      if a[0] == '?' {
        assert (xs + ys)[1..] == xs[1..] + ys;
        FillConcat(a[1..], b, xs[1..], ys);
      } else {
        FillConcat(a[1..], b, xs, ys);
      }
    }
  }

  /** Without a `?` nothing is filled in. */
  lemma {:induction false} FillNothing(s: string)
    ensures Fill(s, []) == s
  {
    if s != "" {
      FillNothing(s[1..]);
    }
  }

  /** Otherwise the values shift: here with every value `x`. */
  lemma {:induction false} FillShifts(t: Template)
    requires !MarksLast(t)
    ensures Fill(Stmt(t), Arguments(Names(t), _ => "x")) != Direct(t, _ => "x")
  {
    var env := (_: string) => "x";
    var head := if t[0].Hole? then "x" else [t[0].c];
    assert Stmt(t)[1..] == Stmt(t[1..]);
    assert Direct(t, env)[|head|..] == Direct(t[1..], env);
    if t[0].Hole? {
      assert Names(t)[1..] == Names(t[1..]);
      assert Arguments(Names(t), env)[1..] == Arguments(Names(t[1..]), env);
      FillShifts(t[1..]);
      assert Fill(Stmt(t), Arguments(Names(t), env))[1..] == Fill(Stmt(t[1..]), Arguments(Names(t[1..]), env));
    } else if t[0] == Ch('?') && Names(t) != [] {
      assert Fill(Stmt(t), Arguments(Names(t), env))[0] == 'x';
      assert Direct(t, env)[0] == '?';
    } else {
      FillShifts(t[1..]);
      assert Fill(Stmt(t), Arguments(Names(t), env))[1..] == Fill(Stmt(t[1..]), Arguments(Names(t[1..]), env));
    }
  }

  lemma {:induction false} OfHole(name: string)
    ensures Stmt([Hole(name)]) == "?" && Names([Hole(name)]) == [name] && Inner([Hole(name)])
    ensures Marks([Hole(name)]) == 0
  {
    var t := [Hole(name)];
    assert t[1..] == [] && Names(t[1..]) == [] && Marks(t[1..]) == 0 && Stmt(t[1..]) == "";
  }

  lemma {:induction false} LitStarts(s: string)
    requires s != ""
    ensures Lit(s) != [] && Lit(s)[0] == Ch(s[0])
  {
    CharsAt(s, |s|, 0);
  }

  lemma {:induction false} CharsAt(s: string, n: nat, i: nat)
    requires i < n <= |s|
    ensures Chars(s, n)[i] == Ch(s[i])
    decreases n
  {
    if i < n - 1 {
      CharsAt(s, n - 1, i);
    }
  }
}
