/** Zero-padded decimal strings: their length, their value and their order. */
module Digits {
  predicate IsDigit(c: char) { '0' <= c <= '9' }

  predicate AllDigits(s: string) { forall i :: 0 <= i < |s| ==> IsDigit(s[i]) }

  function Digit(d: nat): (c: char)
    requires d < 10
    ensures IsDigit(c) && DigitValue(c) == d
  {
    ('0' as int + d) as char
  }

  function DigitValue(c: char): (d: nat)
    requires IsDigit(c)
    ensures d < 10
  {
    c as int - '0' as int
  }

  /** The number a string of digits denotes, as `int` reads it. */
  function Value(s: string): nat
    requires AllDigits(s)
  {
    if |s| == 0 then 0 else 10 * Value(s[..|s| - 1]) + DigitValue(s[|s| - 1])
  }

  /** `n` in decimal, padded with zeros to at least `width` characters (`f"{n:0{width}d}"`). */
  function Padded(n: nat, width: nat): (s: string)
    ensures AllDigits(s) && Value(s) == n
    ensures |s| >= width
    decreases n + width
  {
    if n == 0 && width == 0 then "" else
    Padded(n / 10, if width > 0 then width - 1 else 0) + [Digit(n % 10)]
  }

  function Pow10(k: nat): nat { if k == 0 then 1 else 10 * Pow10(k - 1) }

  /** Padding is exact while the number fits. */
  lemma {:induction false} PaddedLength(n: nat, width: nat)
    requires n < Pow10(width)
    ensures |Padded(n, width)| == width
  {
    if width > 0 {
      PaddedLength(n / 10, width - 1);
    }
  }

  /** A number that has the digits anyway is not changed by asking for more width. */
  lemma {:induction false} PaddedWider(n: nat, v: nat, width: nat)
    requires v <= width && (width > 0 ==> n >= Pow10(width - 1))
    ensures Padded(n, v) == Padded(n, width)
  {
    if width > 1 {
      assert Pow10(width - 1) == 10 * Pow10(width - 2);
      PaddedWider(n / 10, if v > 0 then v - 1 else 0, width - 1);
    }
  }

  lemma {:induction false} PaddedZero(width: nat)
    ensures Padded(0, width) == seq(width, i requires 0 <= i < width => '0')
  {
    if width > 0 {
      PaddedZero(width - 1);
    }
  }

  /** A number is the only one with its padded form. */
  lemma {:induction false} PaddedValue(s: string)
    requires AllDigits(s)
    ensures Value(s) < Pow10(|s|)
    ensures Padded(Value(s), |s|) == s
  {
    if |s| > 0 {
      PaddedValue(s[..|s| - 1]);
      assert Value(s) / 10 == Value(s[..|s| - 1]) && Value(s) % 10 == DigitValue(s[|s| - 1]);
      assert s == s[..|s| - 1] + [s[|s| - 1]];
    }
  }

  lemma {:induction false} LeadingDigit(s: string)
    requires AllDigits(s) && |s| > 0
    ensures Value(s) == DigitValue(s[0]) * Pow10(|s| - 1) + Value(s[1..])
  {
    if |s| > 1 {
      var front := s[..|s| - 1];
      LeadingDigit(front);
      assert front[1..] == s[1..][..|s| - 2];
      assert 10 * (DigitValue(s[0]) * Pow10(|s| - 2)) == DigitValue(s[0]) * Pow10(|s| - 1);
    }
  }

  /** Strict lexicographic order, as the database orders booking numbers. */
  predicate Before(a: string, b: string) {
    |b| > 0 && (|a| == 0 || a[0] < b[0] || (a[0] == b[0] && Before(a[1..], b[1..])))
  }

  lemma {:induction false} BeforeIsTotal(a: string, b: string)
    ensures !(Before(a, b) && Before(b, a))
    ensures Before(a, b) || Before(b, a) || a == b
  {
    if |a| > 0 && |b| > 0 {
      BeforeIsTotal(a[1..], b[1..]);
      if a[0] == b[0] && a[1..] == b[1..] {
        assert a == [a[0]] + a[1..] && b == [b[0]] + b[1..];
      }
    }
  }

  lemma {:induction false} BeforeIsTransitive(a: string, b: string, c: string)
    requires Before(a, b) && Before(b, c)
    ensures Before(a, c)
  {
    if |a| > 0 && a[0] == b[0] == c[0] {
      BeforeIsTransitive(a[1..], b[1..], c[1..]);
    }
  }

  lemma {:induction false} BeforeAfterPrefix(prefix: string, a: string, b: string)
    ensures Before(prefix + a, prefix + b) <==> Before(a, b)
  {
    if |prefix| == 0 {
      assert prefix + a == a && prefix + b == b;
    } else {
      BeforeAfterPrefix(prefix[1..], a, b);
      assert (prefix + a)[1..] == prefix[1..] + a && (prefix + b)[1..] == prefix[1..] + b;
    }
  }

  /** Zero padding makes the text order the numeric order. */
  lemma {:induction false} TextOrderIsNumericOrder(a: string, b: string)
    requires AllDigits(a) && AllDigits(b) && |a| == |b|
    ensures Before(a, b) <==> Value(a) < Value(b)
  {
    if |a| > 0 {
      TextOrderIsNumericOrder(a[1..], b[1..]);
      LeadingDigit(a);
      LeadingDigit(b);
      PaddedValue(a[1..]);
      PaddedValue(b[1..]);
      HigherDigitDecides(DigitValue(a[0]), Value(a[1..]), DigitValue(b[0]), Value(b[1..]), Pow10(|a| - 1));
    }
  }

  lemma HigherDigitDecides(c: nat, x: nat, d: nat, y: nat, p: nat)
    requires x < p && y < p
    ensures c * p + x < d * p + y <==> c < d || (c == d && x < y)
  {
    if c < d {
      assert d * p >= (c + 1) * p == c * p + p;
    } else if c > d {
      assert c * p >= (d + 1) * p == d * p + p;
    }
  }

  /** Text before a separator that it does not contain can be told from the text after it. */
  lemma SplitAt(a: string, x: string, b: string, y: string, separator: char)
    requires separator !in a && separator !in b
    requires a + [separator] + x == b + [separator] + y
    ensures a == b && x == y
  {
    var left, right := a + [separator] + x, b + [separator] + y;
    NotShorter(a, x, b, y, separator);
    NotShorter(b, y, a, x, separator);
    assert left[..|a|] == a && right[..|b|] == b;
    assert left[|a| + 1..] == x && right[|b| + 1..] == y;
  }

  lemma NotShorter(a: string, x: string, b: string, y: string, separator: char)
    requires separator !in b
    requires a + [separator] + x == b + [separator] + y
    ensures |a| >= |b|
  {
    assert (a + [separator] + x)[|a|] == separator;
    assert forall k :: 0 <= k < |b| ==> (b + [separator] + y)[k] == b[k];
  }
}
