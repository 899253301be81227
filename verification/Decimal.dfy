/** Decimal printing of integers, as in the ids the runtime builds. */
module Decimal {
  const DIGITS := "0123456789"

  function Digits(n: nat): string {
    if n < 10 then [DIGITS[n]] else Digits(n / 10) + [DIGITS[n % 10]]
  }

  function Print(n: int): string {
    if n < 0 then "-" + Digits(-n) else Digits(n)
  }

  function DigitValue(c: char): nat {
    if '0' <= c <= '9' then (c - '0') as nat else 0
  }

  function Value(s: string): nat {
    if |s| == 0 then 0 else 10 * Value(s[..|s| - 1]) + DigitValue(s[|s| - 1])
  }

  /** Reading back what was printed. */
  lemma {:induction false} ValueOfDigits(n: nat)
    ensures Value(Digits(n)) == n
  {
    if n >= 10 {
      ValueOfDigits(n / 10);
      assert Digits(n)[..|Digits(n)| - 1] == Digits(n / 10);
    } else {
      assert Value([DIGITS[n]][..0]) == 0;
    }
  }

  lemma {:induction false} OnlyDigits(n: nat)
    ensures |Digits(n)| > 0 && forall i | 0 <= i < |Digits(n)| :: Digits(n)[i] in DIGITS
  {
    if n >= 10 {
      OnlyDigits(n / 10);
    }
  }

  /** Different integers print differently. */
  lemma PrintInjective(m: int, n: int)
    requires Print(m) == Print(n)
    ensures m == n
  {
    ValueOfDigits(if m < 0 then -m else m);
    ValueOfDigits(if n < 0 then -n else n);
    OnlyDigits(if m < 0 then -m else m);
    OnlyDigits(if n < 0 then -n else n);
    assert m < 0 ==> Print(m)[0] == '-' && Print(m)[1..] == Digits(-m);
    assert n < 0 ==> Print(n)[0] == '-' && Print(n)[1..] == Digits(-n);
    assert m >= 0 ==> Print(m)[0] in DIGITS;
    assert n >= 0 ==> Print(n)[0] in DIGITS;
  }

  lemma PrintHasNo(n: int, c: char)
    requires c != '-' && c !in DIGITS
    ensures c !in Print(n)
  {
    OnlyDigits(if n < 0 then -n else n);
  }

  /** The digits a text starts with. */
  function Leading(s: string): string {
    if |s| == 0 || s[0] !in DIGITS then "" else [s[0]] + Leading(s[1..])
  }

  lemma {:induction false} LeadingOf(digits: string, rest: string)
    requires (forall i | 0 <= i < |digits| :: digits[i] in DIGITS) && (rest == "" || rest[0] !in DIGITS)
    ensures Leading(digits + rest) == digits
  {
    if |digits| > 0 {
      LeadingOf(digits[1..], rest);
      assert (digits + rest)[1..] == digits[1..] + rest;
    } else {
      assert digits + rest == rest;
    }
  }

  /** A number printed in front of something that is no digit can be read back. */
  lemma ReadsBack(n: nat, rest: string)
    requires rest == "" || rest[0] !in DIGITS
    ensures Leading(Print(n) + rest) == Print(n) != "" && Value(Print(n)) == n
  {
    OnlyDigits(n);
    LeadingOf(Print(n), rest);
    ValueOfDigits(n);
  }

  /** The text before the first `c`. */
  function Before(s: string, c: char): string {
    if |s| == 0 || s[0] == c then "" else [s[0]] + Before(s[1..], c)
  }

  lemma {:induction false} BeforeSeparator(x: string, a: string, c: char)
    requires c !in x
    ensures Before(x + [c] + a, c) == x
  {
    if |x| > 0 {
      BeforeSeparator(x[1..], a, c);
      assert (x + [c] + a)[1..] == x[1..] + [c] + a;
    }
  }

  /** Two fields around a fixed middle can be read back when the first has no character like the middle's first. */
  lemma Separated(prefix: string, middle: string, x: string, a: string, y: string, b: string)
    requires |middle| > 0 && middle[0] !in x && middle[0] !in y
    requires prefix + x + middle + a == prefix + y + middle + b
    ensures x == y && a == b
  {
    SuffixOf(prefix, x, middle, a);
    SuffixOf(prefix, y, middle, b);
    BeforeSeparator(x, middle[1..] + a, middle[0]);
    BeforeSeparator(y, middle[1..] + b, middle[0]);
    assert (prefix + x + middle + a)[|prefix + x + middle|..] == a;
    assert (prefix + y + middle + b)[|prefix + y + middle|..] == b;
  }

  lemma SuffixOf(prefix: string, x: string, middle: string, a: string)
    requires |middle| > 0
    ensures (prefix + x + middle + a)[|prefix|..] == x + [middle[0]] + (middle[1..] + a)
  {
  }
}
