/**
 A document is the log of what was written to a statement buffer: texts and parameters,
 in order. The Go code keeps only two readings of it, `Stmt` and `Names`.
 */
module Docs {
  import opened Text
  import opened Templates

  datatype Part = Txt(s: string) | Par(name: string)

  datatype Doc = Empty | Snoc(init: Doc, last: Part)
  {
    /** The statement text, every parameter written as `?`. */
    function Stmt(): string {
      match this
      case Empty => ""
      case Snoc(d, Txt(s)) => d.Stmt() + s
      case Snoc(d, Par(_)) => d.Stmt() + "?"
    }

    /** The parameter names in order. */
    function Names(): seq<string> {
      match this
      case Empty => []
      case Snoc(d, Txt(_)) => d.Names()
      case Snoc(d, Par(name)) => d.Names() + [name]
    }

    /** The same document byte by byte. */
    function Flat(): Template {
      match this
      case Empty => []
      case Snoc(d, Txt(s)) => d.Flat() + Lit(s)
      case Snoc(d, Par(name)) => d.Flat() + [Hole(name)]
    }

    /** No text holds a `?`. */
    predicate MarkFree() {
      match this
      case Empty => true
      case Snoc(d, Txt(s)) => d.MarkFree() && '?' !in s
      case Snoc(d, Par(_)) => d.MarkFree()
    }

    /**
     Reads the document from the left: `Open` right after a parameter, `Shut` otherwise,
     `Broken` once something other than `,`, `)` or a space has followed a parameter.
     */
    function Edge(): Edge {
      match this
      case Empty => Shut
      case Snoc(d, Txt(s)) =>
        if s == "" || d.Edge() == Broken then d.Edge()
        else if d.Edge() == Open && !IsSeparator(Ch(s[0])) then Broken
        else Shut
      case Snoc(d, Par(_)) => if d.Edge() == Shut then Open else Broken
    }
  }

  datatype Edge = Shut | Open | Broken

  function Put(d: Doc, s: string): Doc { Snoc(d, Txt(s)) }
  function PutIf(d: Doc, on: bool, s: string): Doc { if on then Put(d, s) else d }
  function PutPar(d: Doc, name: string): Doc { Snoc(d, Par(name)) }

  /** `e` written after `d`. */
  function Then(d: Doc, e: Doc): Doc {
    match e
    case Empty => d
    case Snoc(f, p) => Snoc(Then(d, f), p)
  }

  /** The parameters renamed as a batch renames those of an added statement. */
  function Rename(prefix: string, d: Doc): Doc {
    match d
    case Empty => Empty
    case Snoc(e, Txt(s)) => Snoc(Rename(prefix, e), Txt(s))
    case Snoc(e, Par(name)) => Snoc(Rename(prefix, e), Par(PrefixName(prefix, name)))
  }

  function PrefixName(prefix: string, name: string): string {
    if prefix == "" then name else prefix + "." + name
  }

  function Prefixed(prefix: string, names: seq<string>): seq<string> {
    if names == [] then [] else Prefixed(prefix, names[..|names| - 1]) + [PrefixName(prefix, names[|names| - 1])]
  }

  /** The names after renaming: the prefix and a dot before each of them, unless the prefix is empty. */
  lemma {:induction false} PrefixedNames(prefix: string, names: seq<string>)
    ensures |Prefixed(prefix, names)| == |names|
    ensures forall i :: 0 <= i < |names| ==>
      Prefixed(prefix, names)[i] == if prefix == "" then names[i] else prefix + "." + names[i]
  {
    if names != [] {
      PrefixedNames(prefix, names[..|names| - 1]);
    }
  }

  /** Both readings of a document are the readings of its bytes. */
  lemma {:induction false} FlatChannels(d: Doc)
    ensures Templates.Stmt(d.Flat()) == d.Stmt()
    ensures Templates.Names(d.Flat()) == d.Names()
    ensures Marks(d.Flat()) == 0 <==> d.MarkFree()
  {
    match d
    case Empty =>
    case Snoc(e, Txt(s)) =>
      FlatChannels(e);
      OfLit(s);
      CountZero(s, '?');
      Concat(e.Flat(), Lit(s));
    case Snoc(e, Par(name)) =>
      FlatChannels(e);
      OfHole(name);
      Concat(e.Flat(), [Hole(name)]);
  }

  /** A document whose edge is not broken has its parameters separated. */
  lemma {:induction false} FlatSeparated(d: Doc)
    requires d.Edge() != Broken
    ensures Inner(d.Flat()) && (d.Edge() == Open <==> Templates.Open(d.Flat()))
  {
    match d
    case Empty =>
    case Snoc(e, Txt(s)) =>
      FlatSeparated(e);
      OfLit(s);
      if s != "" {
        LitStarts(s);
      }
      InnerConcat(e.Flat(), Lit(s));
    case Snoc(e, Par(name)) =>
      FlatSeparated(e);
      OfHole(name);
      InnerConcat(e.Flat(), [Hole(name)]);
  }

  lemma {:induction false} ThenChannels(d: Doc, e: Doc)
    ensures Then(d, e).Stmt() == d.Stmt() + e.Stmt()
    ensures Then(d, e).Names() == d.Names() + e.Names()
    ensures Then(d, e).MarkFree() <==> d.MarkFree() && e.MarkFree()
  {
    match e
    case Empty =>
    case Snoc(f, _) => ThenChannels(d, f);
  }

  lemma {:induction false} ThenEdge(d: Doc, e: Doc)
    requires d.Edge() == Shut
    ensures Then(d, e).Edge() == e.Edge()
  {
    match e
    case Empty =>
    case Snoc(f, _) => ThenEdge(d, f);
  }

  /** Renaming touches the names only. */
  lemma {:induction false} RenameChannels(prefix: string, d: Doc)
    ensures Rename(prefix, d).Stmt() == d.Stmt()
    ensures Rename(prefix, d).Names() == Prefixed(prefix, d.Names())
    ensures Rename(prefix, d).MarkFree() <==> d.MarkFree()
    ensures Rename(prefix, d).Edge() == d.Edge()
  {
    match d
    case Empty =>
    case Snoc(e, _) => RenameChannels(prefix, e);
  }
}

/** The part of bytes.Buffer the writers use. The ghost log tells which bytes stand for parameters. */
module Buffers {
  import opened Docs

  class Buffer {
    var text: string
    ghost var doc: Doc

    ghost predicate Valid()
      reads this
    {
      text == doc.Stmt()
    }

    constructor ()
      ensures Valid() && doc == Empty
    {
      text, doc := "", Empty;
    }

    method WriteString(s: string)
      requires Valid()
      modifies this
      ensures Valid() && doc == Put(old(doc), s)
    {
      text, doc := text + s, Put(doc, s);
    }

    method WriteByte(c: char)
      requires Valid()
      modifies this
      ensures Valid() && doc == Put(old(doc), [c])
    {
      text, doc := text + [c], Put(doc, [c]);
    }

    /** The byte `?` written for the parameter `name`. */
    method WriteMark(ghost name: string)
      requires Valid()
      modifies this
      ensures Valid() && doc == PutPar(old(doc), name)
    {
      text, doc := text + "?", PutPar(doc, name);
    }
  }
}
