/** Text formatting used by the keys the application builds with template
    literals: decimal rendering of numbers (`String(n)`, `${n}`),
    `String.prototype.padStart`, and the code-point order in which the
    date keys are sorted. */
module Format {

  /** The character of a decimal digit. */
  function Digit(d: int): (c: char)
    requires 0 <= d < 10
    ensures IsDigit(c) && DigitValue(c) == d
  {
    (48 + d) as char
  }

  predicate IsDigit(c: char) {
    '0' <= c <= '9'
  }

  /** Value of a digit character; any other character reads as 0. */
  function DigitValue(c: char): int {
    if IsDigit(c) then c as int - 48 else 0
  }

  predicate AllDigits(s: string) {
    forall i :: 0 <= i < |s| ==> IsDigit(s[i])
  }

  /** `String(n)` for a non-negative integer: the shortest decimal rendering. */
  function NatToString(n: nat): (s: string)
    ensures |s| > 0 && AllDigits(s)
  {
    if n < 10 then [Digit(n)] else NatToString(n / 10) + [Digit(n % 10)]
  }

  /** `${n}` for an integer: a minus sign before the magnitude when negative. */
  function IntToString(n: int): (s: string)
    ensures |s| > 0
    ensures AllDigits(s[1..])
    ensures s[0] == '-' <==> n < 0
  {
    if n < 0 then "-" + NatToString(-n) else NatToString(n)
  }

  /** The number a string of decimal digits denotes. */
  function DigitsValue(s: string): nat {
    if s == [] then 0 else DigitsValue(s[..|s| - 1]) * 10 + DigitValue(s[|s| - 1])
  }

  /** Reads back an optionally signed decimal string. */
  function IntValue(s: string): int {
    if s != [] && s[0] == '-' then -(DigitsValue(s[1..]) as int) else DigitsValue(s)
  }

  lemma {:induction false} DigitsValueOfNatToString(n: nat)
    ensures DigitsValue(NatToString(n)) == n
  {
    if n >= 10 {
      var s := NatToString(n);
      assert s[..|s| - 1] == NatToString(n / 10);
      DigitsValueOfNatToString(n / 10);
    }
  }

  /** Reading back a rendered integer gives the integer. */
  lemma IntToStringRoundTrip(n: int)
    ensures IntValue(IntToString(n)) == n
  {
    if n < 0 {
      assert IntToString(n)[1..] == NatToString(-n);
      DigitsValueOfNatToString(-n);
    } else {
      DigitsValueOfNatToString(n);
    }
  }

  /** Distinct integers render differently. */
  lemma IntToStringInjective(a: int, b: int)
    requires IntToString(a) == IntToString(b)
    ensures a == b
  {
    IntToStringRoundTrip(a);
    IntToStringRoundTrip(b);
  }

  function Repeat(c: char, n: nat): (s: string)
    ensures |s| == n && forall i :: 0 <= i < n ==> s[i] == c
  {
    if n == 0 then [] else Repeat(c, n - 1) + [c]
  }

  /** `s.padStart(width, fill)` for a one-character fill string. */
  function PadStart(s: string, width: nat, fill: char): (r: string)
    ensures |r| == if |s| < width then width else |s|
  {
    if |s| < width then Repeat(fill, width - |s|) + s else s
  }

  /** Exactly `width` decimal digits of `n`, most significant first. */
  function FixedDigits(n: nat, width: nat): (s: string)
    ensures |s| == width && AllDigits(s)
  {
    if width == 0 then [] else FixedDigits(n / 10, width - 1) + [Digit(n % 10)]
  }

  function Pow10(k: nat): (p: nat)
    ensures p >= 1
  {
    if k == 0 then 1 else 10 * Pow10(k - 1)
  }

  lemma PadStartSnoc(s: string, c: char, width: nat, fill: char)
    requires width >= 1
    ensures PadStart(s + [c], width, fill) == PadStart(s, width - 1, fill) + [c]
  {
  }

  lemma {:induction false} FixedDigitsOfZero(width: nat)
    ensures FixedDigits(0, width) == Repeat('0', width)
  {
    if width > 0 {
      FixedDigitsOfZero(width - 1);
    }
  }

  /** Zero-padding the shortest rendering of a number that fits in `width`
      digits gives its fixed-width rendering. */
  lemma {:induction false} PaddedIsFixed(n: nat, width: nat)
    requires width >= 1 && n < Pow10(width)
    ensures PadStart(NatToString(n), width, '0') == FixedDigits(n, width)
  {
    if n < 10 {
      PadStartSnoc([], Digit(n), width, '0');
      assert [] + [Digit(n)] == [Digit(n)];
      FixedDigitsOfZero(width - 1);
    } else {
      PadStartSnoc(NatToString(n / 10), Digit(n % 10), width, '0');
      PaddedIsFixed(n / 10, width - 1);
    }
  }

  /** Strict code-point lexicographic order on strings (a proper prefix comes first). */
  predicate LexLess(a: string, b: string) {
    if a == [] then b != []
    else if b == [] then false
    else if a[0] != b[0] then a[0] < b[0]
    else LexLess(a[1..], b[1..])
  }

  lemma {:induction false} LexIrreflexive(a: string)
    ensures !LexLess(a, a)
  {
    if a != [] {
      LexIrreflexive(a[1..]);
    }
  }

  lemma {:induction false} LexTransitive(a: string, b: string, c: string)
    requires LexLess(a, b) && LexLess(b, c)
    ensures LexLess(a, c)
  {
    if a != [] && a[0] == b[0] && b[0] == c[0] {
      LexTransitive(a[1..], b[1..], c[1..]);
    }
  }

  lemma {:induction false} LexTotal(a: string, b: string)
    requires a != b
    ensures LexLess(a, b) || LexLess(b, a)
  {
    if a != [] && b != [] && a[0] == b[0] {
      assert a == [a[0]] + a[1..] && b == [b[0]] + b[1..];
      LexTotal(a[1..], b[1..]);
    }
  }

  lemma {:induction false} LexAsymmetric(a: string, b: string)
    requires LexLess(a, b)
    ensures !LexLess(b, a)
  {
    if a != [] && b != [] && a[0] == b[0] {
      LexAsymmetric(a[1..], b[1..]);
    }
  }

  /** Comparing two strings that start with prefixes of equal length: the
      prefixes decide unless they are equal. */
  lemma {:induction false} LexConcat(p1: string, s1: string, p2: string, s2: string)
    requires |p1| == |p2|
    ensures LexLess(p1 + s1, p2 + s2) <==> LexLess(p1, p2) || (p1 == p2 && LexLess(s1, s2))
  {
    if p1 == [] {
      assert p1 + s1 == s1 && p2 + s2 == s2;
      LexIrreflexive(p1);
    } else {
      assert (p1 + s1)[1..] == p1[1..] + s1;
      assert (p2 + s2)[1..] == p2[1..] + s2;
      LexConcat(p1[1..], s1, p2[1..], s2);
      if p1[0] == p2[0] && p1[1..] == p2[1..] {
        assert p1 == p2;
      }
    }
  }

  /** Fixed-width renderings compare like the numbers they render. */
  lemma {:induction false} LexFixedDigits(a: nat, b: nat, width: nat)
    requires a < Pow10(width) && b < Pow10(width)
    ensures LexLess(FixedDigits(a, width), FixedDigits(b, width)) <==> a < b
    ensures FixedDigits(a, width) == FixedDigits(b, width) <==> a == b
  {
    if width == 0 {
      LexIrreflexive([]);
    } else {
      var pa, pb := FixedDigits(a / 10, width - 1), FixedDigits(b / 10, width - 1);
      LexFixedDigits(a / 10, b / 10, width - 1);
      LexConcat(pa, [Digit(a % 10)], pb, [Digit(b % 10)]);
      assert a == 10 * (a / 10) + a % 10;
      assert b == 10 * (b / 10) + b % 10;
      if FixedDigits(a, width) == FixedDigits(b, width) {
        assert pa == FixedDigits(a, width)[..width - 1];
        assert pb == FixedDigits(b, width)[..width - 1];
        assert Digit(a % 10) == FixedDigits(a, width)[width - 1];
        assert Digit(b % 10) == FixedDigits(b, width)[width - 1];
      }
    }
  }

  /** `s.indexOf(c, from)`, reading "not found" as `|s|`. */
  function IndexOfFrom(s: string, c: char, from: nat): (i: nat)
    requires from <= |s|
    ensures from <= i <= |s|
    ensures i < |s| ==> s[i] == c
    ensures forall j :: from <= j < i ==> s[j] != c
    decreases |s| - from
  {
    if from == |s| || s[from] == c then from else IndexOfFrom(s, c, from + 1)
  }

  /** In a rendered integer followed by a dash, the first dash after the
      sign position is the one that ends the integer. */
  lemma DashAfterInt(n: int, rest: string)
    ensures IndexOfFrom(IntToString(n) + "-" + rest, '-', 1) == |IntToString(n)|
  {
    var s, k := IntToString(n) + "-" + rest, |IntToString(n)|;
    assert s[k] == '-';
    assert forall j :: 1 <= j < k ==> s[j] == IntToString(n)[1..][j - 1];
  }
}
