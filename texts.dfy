/** Decimal renderings and Python's string order, as the report pivot relies on them. */
module Texts {
  import opened Wrappers

  predicate IsDigit(c: char) { '0' <= c <= '9' }

  function DigitChar(d: nat): (c: char)
    requires d < 10
    ensures IsDigit(c) && (c as int) - ('0' as int) == d
  {
    (('0' as int) + d) as char
  }

  /** `str(n)` for a natural number. */
  function NatText(n: nat): (s: string)
    ensures |s| > 0 && forall k :: 0 <= k < |s| ==> IsDigit(s[k])
  {
    if n < 10 then [DigitChar(n)] else NatText(n / 10) + [DigitChar(n % 10)]
  }

  /** `int(s)` for a string of decimal digits; anything else raises (`None`). */
  function ParseDigits(s: string): Option<nat>
  {
    if s == [] || !IsDigit(s[|s| - 1]) then None
    else
      var d := (s[|s| - 1] as int) - ('0' as int);
      if |s| == 1 then Some(d)
      else match ParseDigits(s[..|s| - 1])
        case None => None
        case Some(v) => Some(v * 10 + d)
  }

  /** Reading back a rendered number gives the number. */
  lemma {:induction false} ParseNatText(n: nat)
    ensures ParseDigits(NatText(n)) == Some(n)
  {
    if n >= 10 {
      ParseNatText(n / 10);
      var s := NatText(n);
      assert s[..|s| - 1] == NatText(n / 10);
    }
  }

  /** `s.split(sep)[0]`: the text before the first separator, or all of it. */
  function Head(s: string, sep: char): (h: string)
    ensures |h| <= |s| && h == s[..|h|]
    ensures sep !in h && (|h| == |s| || s[|h|] == sep)
  {
    if s == [] || s[0] == sep then [] else [s[0]] + Head(s[1..], sep)
  }

  lemma {:induction false} HeadOfDigits(digits: string, rest: string)
    requires forall k :: 0 <= k < |digits| ==> IsDigit(digits[k])
    ensures Head(digits + "/" + rest, '/') == digits
  {
    if digits != [] {
      HeadOfDigits(digits[1..], rest);
      assert (digits + "/" + rest)[1..] == digits[1..] + "/" + rest;
    }
  }

  /** The "Signals Score" text: `f"{met}/{total}"`. */
  function ScoreText(met: nat, total: nat): string
  {
    NatText(met) + "/" + NatText(total)
  }

  /** The sort key of a score: `int(score.split('/')[0])`, `None` where that raises. */
  function ScoreKey(score: string): Option<nat>
  {
    ParseDigits(Head(score, '/'))
  }

  /** A score the pivot writes always yields its met count as sort key, so the
      fallback sort of the report is never taken. */
  lemma ScoreKeyRoundTrip(met: nat, total: nat)
    ensures ScoreKey(ScoreText(met, total)) == Some(met)
  {
    HeadOfDigits(NatText(met), NatText(total));
    ParseNatText(met);
  }

  /** Python's `<` on strings: lexicographic by code point, a proper prefix first. */
  predicate StringLess(a: string, b: string)
  {
    |b| > 0 && (|a| == 0 || a[0] < b[0] || (a[0] == b[0] && StringLess(a[1..], b[1..])))
  }

  lemma {:induction false} StringLessIrreflexive(a: string)
    ensures !StringLess(a, a)
  {
    if |a| > 0 { StringLessIrreflexive(a[1..]); }
  }

  lemma {:induction false} StringLessAsymmetric(a: string, b: string)
    ensures StringLess(a, b) ==> !StringLess(b, a)
  {
    if |a| > 0 && |b| > 0 && a[0] == b[0] { StringLessAsymmetric(a[1..], b[1..]); }
  }

  lemma {:induction false} StringLessTransitive(a: string, b: string, c: string)
    ensures StringLess(a, b) && StringLess(b, c) ==> StringLess(a, c)
  {
    if |a| > 0 && |b| > 0 && |c| > 0 && a[0] == b[0] == c[0] {
      StringLessTransitive(a[1..], b[1..], c[1..]);
    }
  }

  lemma {:induction false} StringLessTotal(a: string, b: string)
    ensures a == b || StringLess(a, b) || StringLess(b, a)
  {
    if |a| > 0 && |b| > 0 && a[0] == b[0] {
      StringLessTotal(a[1..], b[1..]);
      if a[1..] == b[1..] {
        assert a == [a[0]] + a[1..] && b == [b[0]] + b[1..];
      }
    }
  }
}
