/** cmd/schemagen/camelize.go: Go names for schema names. */
module Camelizing {
  import opened Wrappers
  import opened Text

  predicate IsLower(c: char) { 'a' <= c <= 'z' }

  function Upper(c: char): char {
    if IsLower(c) then (c as int - 32) as char else c
  }

  predicate AllowedBindRune(c: char) {
    'a' <= c <= 'z' || 'A' <= c <= 'Z' || '0' <= c <= '9'
  }

  /** A name that `camelize` does not panic on. */
  predicate Nameable(s: string) {
    forall i :: 0 <= i < |s| ==> AllowedBindRune(s[i]) || s[i] == '_'
  }

  /** An underscore before position `i` with no lower-case letter between. */
  predicate AfterUnderscore(s: string, i: nat)
    requires i <= |s|
  {
    exists j :: 0 <= j < i && s[j] == '_' && NoLower(s, j + 1, i)
  }

  predicate NoLower(s: string, lo: nat, hi: nat)
    requires hi <= |s|
  {
    forall k :: lo <= k < hi ==> !IsLower(s[k])
  }

  /**
   The letters kept from the first `n`: all but the underscores. The first letter of the
   name is capitalised, and after an underscore the first lower-case one, even when digits
   or capitals come between.
   */
  function Kept(s: string, n: nat): string
    requires n <= |s|
  {
    if n == 0 then ""
    else if s[n - 1] == '_' then Kept(s, n - 1)
    else Kept(s, n - 1) + [if n == 1 || AfterUnderscore(s, n - 1) then Upper(s[n - 1]) else s[n - 1]]
  }

  /** The Go name, or none where the code panics. */
  function Camel(s: string): Option<string> {
    if Nameable(s) then Some(Kept(s, |s|)) else None
  }

  method Camelize(s: string) returns (r: Option<string>)
    ensures r == Camel(s)
  {
    var out := "";
    var underscoreSeen := false;
    for i := 0 to |s|
      invariant out == Kept(s, i)
      invariant underscoreSeen == AfterUnderscore(s, i)
      invariant forall j :: 0 <= j < i ==> AllowedBindRune(s[j]) || s[j] == '_'
    {
      if !AllowedBindRune(s[i]) && s[i] != '_' {
        return None;
      }
      SeenNext(s, i);
      var b := s[i];
      if b == '_' {
        underscoreSeen := true;
        continue;
      }
      if (i == 0 || underscoreSeen) && IsLower(b) {
        b := Upper(b);
        underscoreSeen := false;
      }
      out := out + [b];
    }
    return Some(out);
  }

  lemma {:induction false} SeenNext(s: string, i: nat)
    requires i < |s|
    ensures AfterUnderscore(s, i + 1) <==> s[i] == '_' || (AfterUnderscore(s, i) && !IsLower(s[i]))
  {
    if s[i] == '_' {
      assert NoLower(s, i + 1, i + 1);
    } else if AfterUnderscore(s, i) && !IsLower(s[i]) {
      var j :| 0 <= j < i && s[j] == '_' && NoLower(s, j + 1, i);
      assert NoLower(s, j + 1, i + 1);
    } else if AfterUnderscore(s, i + 1) {
      var j :| 0 <= j < i + 1 && s[j] == '_' && NoLower(s, j + 1, i + 1);
      assert NoLower(s, j + 1, i);
    }
  }

  /** A Go name holds letters and digits only and does not begin with a lower-case letter. */
  lemma {:induction false} CamelShape(s: string)
    requires Nameable(s)
    ensures var c := Camel(s).value;
      && (forall i :: 0 <= i < |c| ==> AllowedBindRune(c[i]))
      && (c != "" ==> !IsLower(c[0]))
  {
    KeptShape(s, |s|);
  }

  lemma {:induction false} KeptShape(s: string, n: nat)
    requires n <= |s| && Nameable(s)
    ensures forall i :: 0 <= i < |Kept(s, n)| ==> AllowedBindRune(Kept(s, n)[i])
    ensures Kept(s, n) == "" ==> forall i :: 0 <= i < n ==> s[i] == '_'
    ensures Kept(s, n) != "" ==> !IsLower(Kept(s, n)[0])
  {
    if n > 0 {
      KeptShape(s, n - 1);
      if Kept(s, n - 1) == "" && n > 1 {
        assert s[n - 2] == '_' && NoLower(s, n - 1, n - 1);
      }
    }
  }

  /**
   Letter by letter, without any of the predicates above: there is a Go name exactly for a name
   of letters, digits and underscores; every byte but the underscores stands in it at its place,
   and it is the capital of that byte if it is lower-case and comes first, or after an
   underscore with no lower-case letter between.
   */
  lemma {:induction false} CamelLetters(s: string, i: nat)
    requires i < |s|
    ensures Camel(s).Some? <==> forall c :: c in s ==>
      'a' <= c <= 'z' || 'A' <= c <= 'Z' || '0' <= c <= '9' || c == '_'
    ensures Camel(s).Some? ==> |Camel(s).value| == |s| - Count(s, '_')
    ensures Camel(s).Some? && s[i] != '_' ==>
      && Count(s[..i], '_') <= i
      && (var k := i - Count(s[..i], '_');
          && k < |Camel(s).value|
          && Camel(s).value[k] ==
             if 'a' <= s[i] <= 'z' &&
                (i == 0 || exists j :: 0 <= j < i && s[j] == '_' && forall m :: j < m < i ==> !('a' <= s[m] <= 'z'))
             then 'A' + (s[i] - 'a') else s[i])
  {
    assert s[..|s|] == s;
    KeptLength(s, |s|);
    assert Nameable(s) <==> forall c :: c in s ==> AllowedBindRune(c) || c == '_';
    if Camel(s).Some? && s[i] != '_' {
      KeptLength(s, i);
      KeptLetter(s, |s|, i);
      CapitalAt(s, i);
    }
  }

  lemma {:induction false} CapitalAt(s: string, i: nat)
    requires i < |s|
    ensures AfterUnderscore(s, i) <==>
      exists j :: 0 <= j < i && s[j] == '_' && forall m :: j < m < i ==> !('a' <= s[m] <= 'z')
    ensures Upper(s[i]) == if 'a' <= s[i] <= 'z' then 'A' + (s[i] - 'a') else s[i]
  {
    if AfterUnderscore(s, i) {
      var j :| 0 <= j < i && s[j] == '_' && NoLower(s, j + 1, i);
    }
    if j :| 0 <= j < i && s[j] == '_' && forall m :: j < m < i ==> !('a' <= s[m] <= 'z') {
      assert NoLower(s, j + 1, i);
    }
  }

  lemma {:induction false} KeptLength(s: string, n: nat)
    requires n <= |s|
    ensures |Kept(s, n)| == n - Count(s[..n], '_')
  {
    if n > 0 {
      KeptLength(s, n - 1);
      assert s[..n] == s[..n - 1] + [s[n - 1]];
      CountConcat(s[..n - 1], [s[n - 1]], '_');
    }
  }

  lemma {:induction false} KeptLetter(s: string, n: nat, i: nat)
    requires i < n <= |s| && s[i] != '_'
    ensures var k := |Kept(s, i)|;
      k < |Kept(s, n)| && Kept(s, n)[k] == if i == 0 || AfterUnderscore(s, i) then Upper(s[i]) else s[i]
  {
    if i < n - 1 {
      KeptLetter(s, n - 1, i);
    }
  }

  /** Camelizing a Go name changes nothing. */
  lemma {:induction false} CamelTwice(s: string)
    requires Nameable(s)
    ensures Camel(Camel(s).value) == Camel(s)
  {
    CamelShape(s);
    var c := Camel(s).value;
    KeptAll(c, |c|);
    assert c[..|c|] == c;
  }

  lemma {:induction false} KeptAll(s: string, n: nat)
    requires n <= |s| && (forall i :: 0 <= i < |s| ==> AllowedBindRune(s[i])) && (s != "" ==> !IsLower(s[0]))
    ensures Kept(s, n) == s[..n]
  {
    if n > 0 {
      KeptAll(s, n - 1);
      assert !AfterUnderscore(s, n - 1);
      assert s[..n] == s[..n - 1] + [s[n - 1]];
    }
  }
}
