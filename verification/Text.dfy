/**
 Texts are byte strings: one `char` stands for one byte of the Go string, and no
 operation here looks at anything but single bytes.
 */
module Text {

  function Count(s: string, c: char): nat {
    if s == "" then 0 else (if s[0] == c then 1 else 0) + Count(s[1..], c)
  }

  lemma {:induction false} CountConcat(a: string, b: string, c: char)
    ensures Count(a + b, c) == Count(a, c) + Count(b, c)
  {
    if a == "" {
      assert a + b == b;
    } else {
      assert (a + b)[1..] == a[1..] + b;
      CountConcat(a[1..], b, c);
    }
  }

  lemma {:induction false} CountZero(s: string, c: char)
    ensures Count(s, c) == 0 <==> c !in s
  {
    if s != "" {
      CountZero(s[1..], c);
    }
  }

  predicate IsDigit(c: char) {
    '0' <= c <= '9'
  }

  predicate AllDigits(s: string) {
    forall i :: 0 <= i < |s| ==> IsDigit(s[i])
  }

  /** The decimal numeral of a natural number, without leading zeros. */
  function Decimal(n: nat): (s: string)
    ensures |s| > 0 && AllDigits(s)
  {
    if n < 10 then [(n as char) + '0'] else Decimal(n / 10) + [((n % 10) as char) + '0']
  }

  /** What Go's `%d` and `strconv.Itoa` print. */
  function Itoa(n: int): string {
    if n < 0 then "-" + Decimal(-n) else Decimal(n)
  }

  /** The value of a numeral. */
  function ParseDecimal(s: string): int {
    if s == "" then 0 else 10 * ParseDecimal(s[..|s| - 1]) + (s[|s| - 1] as int - '0' as int)
  }

  /** Reads digits, with a minus sign or without; nothing else is a number. */
  function ReadInt(s: string): int
    requires IsNumber(s)
  {
    if s[0] == '-' then -ParseDecimal(s[1..]) else ParseDecimal(s)
  }

  predicate IsNumber(s: string) {
    s != "" && if s[0] == '-' then |s| > 1 && AllDigits(s[1..]) else AllDigits(s)
  }

  /** What is printed for a number reads back as that number. */
  lemma {:induction false} ReadItoa(n: int)
    ensures IsNumber(Itoa(n)) && ReadInt(Itoa(n)) == n
  {
    hide Decimal, ParseDecimal;
    if n < 0 {
      ParseDecimalOfDecimal(-n);
      assert Itoa(n)[1..] == Decimal(-n);
    } else {
      ParseDecimalOfDecimal(n);
      assert IsDigit(Itoa(n)[0]);
    }
  }

  lemma {:induction false} ParseDecimalOfDecimal(n: nat)
    ensures ParseDecimal(Decimal(n)) == n
  {
    if n >= 10 {
      ParseDecimalOfDecimal(n / 10);
      assert Decimal(n)[..|Decimal(n)| - 1] == Decimal(n / 10);
    } else {
      assert Decimal(n)[..0] == "";
    }
  }
}
