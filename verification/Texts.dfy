/** Counts in the texts of errors. */
module Texts {
  import opened Basics

  const DIGITS: string := "0123456789"

  /** %d of a count. */
  function Decimal(n: nat): (s: string)
    ensures s != [] && forall i :: 0 <= i < |s| ==> s[i] in DIGITS
  {
    if n < 10 then [DIGITS[n]] else Decimal(n / 10) + [DIGITS[n % 10]]
  }

  /** The count a text of digits stands for. */
  function Value(s: string): nat {
    if s == [] then 0 else 10 * Value(Front(s)) + DigitValue(Last(s))
  }

  function DigitValue(c: char): nat {
    if '0' <= c <= '9' then c as int - '0' as int else 0
  }

  lemma DigitsCount(d: nat)
    requires d < 10
    ensures DigitValue(DIGITS[d]) == d
  {
  }

  /** The count can be read back. */
  lemma {:induction false} DecimalTells(n: nat)
    ensures Value(Decimal(n)) == n
  {
    DigitsCount(n % 10);
    if n >= 10 {
      DecimalTells(n / 10);
      assert Front(Decimal(n)) == Decimal(n / 10);
    } else {
      assert Front(Decimal(n)) == [];
    }
  }

  /** Where the digits end. */
  lemma DigitsEnd(a: string, b: string, x: string, y: string)
    requires (forall i :: 0 <= i < |a| ==> a[i] in DIGITS) && (forall i :: 0 <= i < |b| ==> b[i] in DIGITS)
    requires x != [] && y != [] && x[0] !in DIGITS && y[0] !in DIGITS
    requires a + x == b + y
    ensures a == b && x == y
  {
    NotLonger(a, b, x, y);
    NotLonger(b, a, y, x);
    assert a == (a + x)[..|a|] && b == (b + y)[..|a|];
    assert x == (a + x)[|a|..] && y == (b + y)[|a|..];
  }

  lemma NotLonger(a: string, b: string, x: string, y: string)
    requires (forall i :: 0 <= i < |b| ==> b[i] in DIGITS) && x != [] && x[0] !in DIGITS
    requires a + x == b + y
    ensures |b| <= |a|
  {
    assert (a + x)[|a|] == x[0];
  }

  /** Two counts in a sentence. */
  function Counts(head: string, a: nat, middle: string, b: nat, tail: string): string {
    head + (Decimal(a) + (middle + (Decimal(b) + tail)))
  }

  lemma InOneGo(a: string, b: string, c: string, d: string, e: string)
    ensures a + (b + (c + (d + e))) == a + b + c + d + e
  {
  }

  lemma CountsTell(head: string, a: nat, middle: string, b: nat, tail: string, a': nat, b': nat)
    requires middle != [] && middle[0] !in DIGITS && tail != [] && tail[0] !in DIGITS
    requires Counts(head, a, middle, b, tail) == Counts(head, a', middle, b', tail)
    ensures a == a' && b == b'
  {
    var x, y := middle + (Decimal(b) + tail), middle + (Decimal(b') + tail);
    assert Decimal(a) + x == Counts(head, a, middle, b, tail)[|head|..];
    assert Decimal(a') + y == Counts(head, a', middle, b', tail)[|head|..];
    DigitsEnd(Decimal(a), Decimal(a'), x, y);
    assert Decimal(b) + tail == x[|middle|..] && Decimal(b') + tail == y[|middle|..];
    DigitsEnd(Decimal(b), Decimal(b'), tail, tail);
    DecimalTells(a);
    DecimalTells(a');
    DecimalTells(b);
    DecimalTells(b');
  }
}
