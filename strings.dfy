/**
 * The string operations the application relies on: the decimal rendering of
 * `Date.now()` inside generated ids, and `String.prototype.split` on a single
 * separator character.
 */
module Strings {

  function DigitChar(d: nat): (c: char)
    requires d < 10
    ensures '0' <= c <= '9'
  {
    ('0' as int + d) as char
  }

  function DigitValue(c: char): nat
  {
    if '0' <= c <= '9' then c as int - '0' as int else 0
  }

  /** The decimal digits of n, most significant first, as a template literal prints it. */
  function Digits(n: nat): (s: string)
    ensures |s| >= 1
    ensures forall i :: 0 <= i < |s| ==> '0' <= s[i] <= '9'
  {
    if n < 10 then [DigitChar(n)] else Digits(n / 10) + [DigitChar(n % 10)]
  }

  /** The number a string of decimal digits denotes. */
  function DigitsValue(s: string): nat
  {
    if s == [] then 0 else DigitsValue(s[..|s| - 1]) * 10 + DigitValue(s[|s| - 1])
  }

  /** Reading back the digits gives the number: Digits is one-to-one. */
  lemma {:induction false} DigitsRoundTrip(n: nat)
    ensures DigitsValue(Digits(n)) == n
  {
    if n >= 10 {
      var s := Digits(n);
      assert s[..|s| - 1] == Digits(n / 10);
      DigitsRoundTrip(n / 10);
    } else {
      assert Digits(n)[..0] == [];
    }
  }

  /** Two different clock readings give two different ids under the same prefix. */
  lemma StampedIdsDiffer(prefix: string, t1: nat, t2: nat)
    requires t1 != t2
    ensures prefix + Digits(t1) != prefix + Digits(t2)
  {
    if prefix + Digits(t1) == prefix + Digits(t2) {
      assert Digits(t1) == (prefix + Digits(t1))[|prefix|..];
      assert Digits(t2) == (prefix + Digits(t2))[|prefix|..];
      DigitsRoundTrip(t1);
      DigitsRoundTrip(t2);
    }
  }

  /**
   * `s.split(sep)`: the maximal runs between separators. The first part is the
   * prefix of s before the first separator, or the whole of s if it has none.
   */
  function Split(s: string, sep: char): (r: seq<string>)
    ensures |r| >= 1
    ensures r[0] <= s && sep !in r[0]
    ensures |r[0]| < |s| ==> s[|r[0]|] == sep
    ensures sep !in s ==> r[0] == s
  {
    if s == [] then [""]
    else
      var rest := Split(s[1..], sep);
      if s[0] == sep then [""] + rest else [[s[0]] + rest[0]] + rest[1..]
  }

  /** A string without the separator is one part. */
  lemma {:induction false} SplitNone(s: string, sep: char)
    requires sep !in s
    ensures Split(s, sep) == [s]
  {
    if s != [] {
      assert sep !in s[1..];
      SplitNone(s[1..], sep);
    }
  }

  /** A separator-free prefix followed by the separator is split off as the first part. */
  lemma {:induction false} SplitAt(a: string, sep: char, b: string)
    requires sep !in a
    ensures Split(a + [sep] + b, sep) == [a] + Split(b, sep)
  {
    if a == [] {
      assert a + [sep] + b == [sep] + b;
      assert ([sep] + b)[1..] == b;
    } else {
      assert (a + [sep] + b)[1..] == a[1..] + [sep] + b;
      assert sep !in a[1..];
      SplitAt(a[1..], sep, b);
      assert [a[0]] + a[1..] == a;
    }
  }

  /** `email.split('@')[0]`: the local part of an address. */
  function EmailLocalPart(email: string): (name: string)
    ensures name <= email && '@' !in name
    ensures name == email || email[|name|] == '@'
  {
    Split(email, '@')[0]
  }
}
