/** Decimal text: the plain printer, the minimal printer `canonical_decimal`, and a reader. */
module Decimals {
  import opened Common

  /** The non-negative decimal `coefficient * 10^exponent`. */
  datatype Dec = Dec(coefficient: nat, exponent: int)

  function Pow10(k: nat): (p: nat)
    ensures p > 0
  {
    if k == 0 then 1 else 10 * Pow10(k - 1)
  }

  function Value(d: Dec): real {
    if d.exponent >= 0 then (d.coefficient * Pow10(d.exponent)) as real
    else d.coefficient as real / Pow10(-d.exponent) as real
  }

  // ----- printing -----

  function DigitChar(n: nat): char
    requires n < 10
  {
    '0' + n as char
  }

  function Digits(n: nat): string {
    if n < 10 then [DigitChar(n)] else Digits(n / 10) + [DigitChar(n % 10)]
  }

  /** What remains of `c` left of a point placed `k` digits from the right. */
  function IntegerPart(c: nat, k: nat): nat {
    if k == 0 then c else IntegerPart(c / 10, k - 1)
  }

  /** The last `k` digits of `c`, padded with zeros on the left. */
  function FractionDigits(c: nat, k: nat): string {
    if k == 0 then "" else FractionDigits(c / 10, k - 1) + [DigitChar(c % 10)]
  }

  /** Fixed-point text without an exponent. */
  function Format(d: Dec): string {
    if d.exponent >= 0 then Digits(d.coefficient * Pow10(d.exponent))
    else Digits(IntegerPart(d.coefficient, -d.exponent)) + "." + FractionDigits(d.coefficient, -d.exponent)
  }

  function StripZeros(text: string): string {
    if text != "" && text[|text| - 1] == '0' then StripZeros(text[..|text| - 1]) else text
  }

  function StripDot(text: string): string {
    if text != "" && text[|text| - 1] == '.' then StripDot(text[..|text| - 1]) else text
  }

  /** One minimal representation: trailing fractional zeros and a bare point go. */
  function Canonical(d: Dec): string {
    var text := Format(d);
    var stripped := if '.' in text then StripDot(StripZeros(text)) else text;
    if stripped == "" then "0" else stripped
  }

  // ----- reading -----

  predicate IsDigit(c: char) { '0' <= c <= '9' }

  predicate AllDigits(text: string) { forall i :: 0 <= i < |text| ==> IsDigit(text[i]) }

  function NatOf(text: string): nat
    requires AllDigits(text)
  {
    if text == "" then 0
    else NatOf(text[..|text| - 1]) * 10 + (text[|text| - 1] - '0') as nat
  }

  function PointAt(text: string): (p: nat)
    ensures p <= |text|
    ensures p < |text| ==> text[p] == '.'
    ensures '.' !in text[..p]
  {
    if text == "" || text[0] == '.' then 0
    else
      var p := PointAt(text[1..]);
      assert text[..p + 1] == [text[0]] + text[1..][..p];
      p + 1
  }

  /** Reads a plain numeral: digits with at most one point among them. */
  function Parse(text: string): Option<Dec> {
    var p := PointAt(text);
    var fraction := if p < |text| then text[p + 1..] else "";
    if AllDigits(text[..p]) && AllDigits(fraction) && |text[..p] + fraction| > 0
    then Some(Dec(NatOf(text[..p] + fraction), -|fraction|))
    else None
  }

  function ParseNat(text: string): Option<nat> {
    if text != "" && AllDigits(text) then Some(NatOf(text)) else None
  }

  /** Accepts a positive number written exactly as the minimal printer writes it. */
  function ParseCanonical(text: string): Option<Dec> {
    match Parse(text)
    case Some(d) => if d.coefficient > 0 && Canonical(d) == text then Some(d) else None
    case None => None
  }

  // ----- normal form: no positive exponent, no removable trailing zero -----

  predicate IsNormal(d: Dec) {
    d.exponent <= 0 && (d.exponent < 0 ==> d.coefficient % 10 != 0)
  }

  function Normalize(d: Dec): (n: Dec)
    ensures IsNormal(n)
    decreases if d.exponent < 0 then -d.exponent else 0
  {
    if d.exponent >= 0 then Dec(d.coefficient * Pow10(d.exponent), 0)
    else if d.coefficient % 10 == 0 then Normalize(Dec(d.coefficient / 10, d.exponent + 1))
    else d
  }

  lemma {:induction false} NormalizeKeepsValue(d: Dec)
    ensures Value(Normalize(d)) == Value(d)
    decreases if d.exponent < 0 then -d.exponent else 0
  {
    if d.exponent < 0 && d.coefficient % 10 == 0 {
      var k := -d.exponent;
      NormalizeKeepsValue(Dec(d.coefficient / 10, d.exponent + 1));
      assert d.coefficient == 10 * (d.coefficient / 10);
      CancelTen(d.coefficient / 10, Pow10(k - 1));
    }
  }

  lemma CancelTen(c: nat, p: nat)
    requires p > 0
    ensures c as real / p as real == (10 * c) as real / (10 * p) as real
  {
    var q := c as real / p as real;
    assert q * p as real == c as real;
    assert q * (10 * p) as real == (10 * c) as real;
  }

  /** Normal forms of one value coincide. */
  lemma NormalUnique(a: Dec, b: Dec)
    requires IsNormal(a) && IsNormal(b) && Value(a) == Value(b)
    ensures a == b
  {
    if -a.exponent < -b.exponent {
      LongerNormalDiffers(a, b);
    } else if -b.exponent < -a.exponent {
      LongerNormalDiffers(b, a);
    } else if a.exponent < 0 {
      SameDenominator(a.coefficient, b.coefficient, Pow10(-a.exponent));
    }
  }

  lemma SameDenominator(c: nat, d: nat, p: nat)
    requires p > 0 && c as real / p as real == d as real / p as real
    ensures c == d
  {
    var q := c as real / p as real;
    assert q * p as real == c as real;
    assert q * p as real == d as real;
  }

  lemma LongerNormalDiffers(a: Dec, b: Dec)
    requires IsNormal(a) && IsNormal(b) && -a.exponent < -b.exponent
    ensures Value(a) != Value(b)
  {
    var j, k := -a.exponent, -b.exponent;
    if Value(a) == Value(b) {
      PowSplit(j, k - j);
      if j == 0 { assert Value(a) == a.coefficient as real / Pow10(j) as real; }
      MultipleOfTen(a.coefficient, k - j);
      Rescale(a.coefficient, Pow10(j), Pow10(k - j), b.coefficient);
    }
  }

  lemma MultipleOfTen(c: nat, m: nat)
    requires m > 0
    ensures (c * Pow10(m)) % 10 == 0
  {
    assert c * Pow10(m) == 10 * (c * Pow10(m - 1));
  }

  lemma Rescale(c: nat, p: nat, q: nat, d: nat)
    requires p > 0 && q > 0 && c as real / p as real == d as real / (p * q) as real
    ensures d == c * q
  {
    var x := c as real / p as real;
    assert x * p as real == c as real;
    assert x * (p * q) as real == d as real;
    assert (p * q) as real == p as real * q as real;
    assert d as real == c as real * q as real;
  }

  lemma {:induction false} PowSplit(j: nat, m: nat)
    ensures Pow10(j + m) == Pow10(j) * Pow10(m)
  {
    if j > 0 { PowSplit(j - 1, m); }
  }

  // ----- what the printers write -----

  lemma {:induction false} DigitsAreDigits(n: nat)
    ensures AllDigits(Digits(n)) && |Digits(n)| > 0 && NatOf(Digits(n)) == n
  {
    if n >= 10 {
      DigitsAreDigits(n / 10);
      assert Digits(n)[..|Digits(n)| - 1] == Digits(n / 10);
    } else {
      assert Digits(n)[..0] == "";
    }
  }

  lemma {:induction false} FractionAreDigits(c: nat, k: nat)
    ensures AllDigits(FractionDigits(c, k)) && |FractionDigits(c, k)| == k
  {
    if k > 0 { FractionAreDigits(c / 10, k - 1); }
  }

  /** The digits around the point spell the coefficient. */
  lemma {:induction false} SplitDigits(c: nat, k: nat)
    ensures var text := Digits(IntegerPart(c, k)) + FractionDigits(c, k);
            AllDigits(text) && NatOf(text) == c
  {
    DigitsAreDigits(IntegerPart(c, k));
    FractionAreDigits(c, k);
    if k > 0 {
      SplitDigits(c / 10, k - 1);
      var front := Digits(IntegerPart(c / 10, k - 1)) + FractionDigits(c / 10, k - 1);
      var text := Digits(IntegerPart(c, k)) + FractionDigits(c, k);
      assert text == front + [DigitChar(c % 10)];
      assert text[..|text| - 1] == front;
    } else {
      assert Digits(c) + "" == Digits(c);
    }
  }

  lemma {:induction false} PointFound(left: string, right: string)
    requires AllDigits(left)
    ensures PointAt(left + "." + right) == |left|
  {
    var text := left + "." + right;
    if left != "" {
      PointFound(left[1..], right);
      assert text[1..] == left[1..] + "." + right;
    }
  }

  lemma {:induction false} NoPoint(text: string)
    requires AllDigits(text)
    ensures PointAt(text) == |text|
  {
    if text != "" { NoPoint(text[1..]); }
  }

  /** Reading a printed normal form gives it back. */
  lemma ParseFormat(d: Dec)
    requires d.exponent <= 0
    ensures Parse(Format(d)) == Some(d)
  {
    var k := -d.exponent;
    if k == 0 {
      DigitsAreDigits(d.coefficient);
      NoPoint(Digits(d.coefficient));
      var text := Format(d);
      assert text[..|text|] + "" == text;
    } else {
      var left, right := Digits(IntegerPart(d.coefficient, k)), FractionDigits(d.coefficient, k);
      DigitsAreDigits(IntegerPart(d.coefficient, k));
      FractionAreDigits(d.coefficient, k);
      PointFound(left, right);
      SplitDigits(d.coefficient, k);
      var text := left + "." + right;
      assert text[..|left|] == left && text[|left| + 1..] == right;
    }
  }

  // ----- stripping text is normalising the number -----

  /** One removable zero more or less does not change the stripped text. */
  lemma StripStep(c: nat, k: int)
    requires k > 1 && c % 10 == 0
    ensures StripZeros(Format(Dec(c, -k))) == StripZeros(Format(Dec(c / 10, -(k - 1))))
  {
    var longer, shorter := Format(Dec(c, -k)), Format(Dec(c / 10, -(k - 1)));
    assert longer == shorter + "0";
    assert longer[..|longer| - 1] == shorter;
  }

  lemma StripLast(c: nat)
    requires c % 10 == 0
    ensures StripDot(StripZeros(Format(Dec(c, -1)))) == Digits(c / 10)
  {
    var text := Format(Dec(c, -1));
    var whole := Digits(c / 10);
    assert FractionDigits(c, 1) == "" + "0";
    assert IntegerPart(c, 1) == c / 10;
    assert text == whole + "." + "0";
    assert text[..|text| - 1] == whole + ".";
    var pointed := whole + ".";
    assert StripZeros(text) == pointed;
    assert pointed[..|pointed| - 1] == whole;
    DigitsAreDigits(c / 10);
    assert IsDigit(whole[|whole| - 1]);
  }

  lemma StripNothing(c: nat, k: int)
    requires k > 0 && c % 10 != 0
    ensures StripDot(StripZeros(Format(Dec(c, -k)))) == Format(Dec(c, -k))
  {
    var text := Format(Dec(c, -k));
    assert text[|text| - 1] == DigitChar(c % 10);
  }

  lemma WholeCanonical(d: Dec)
    requires d.exponent >= 0
    ensures Canonical(d) == Format(Normalize(d))
  {
    DigitsAreDigits(d.coefficient * Pow10(d.exponent));
    assert Pow10(0) == 1;
    hide Digits;
  }

  lemma LastFractionCanonical(d: Dec)
    requires d.exponent == -1 && d.coefficient % 10 == 0
    ensures Canonical(d) == Format(Normalize(d))
  {
    DigitsAreDigits(IntegerPart(d.coefficient, 1));
    StripLast(d.coefficient);
    WholeCanonical(Dec(d.coefficient / 10, 0));
    assert Pow10(0) == 1;
  }

  lemma {:induction false} CanonicalIsFormatOfNormal(d: Dec)
    ensures Canonical(d) == Format(Normalize(d))
    decreases if d.exponent < 0 then -d.exponent else 0
  {
    var k := -d.exponent;
    if k <= 0 {
      WholeCanonical(d);
    } else if d.coefficient % 10 == 0 && k == 1 {
      LastFractionCanonical(d);
    } else {
      DigitsAreDigits(IntegerPart(d.coefficient, k));
      var shorter := Dec(d.coefficient / 10, d.exponent + 1);
      if d.coefficient % 10 != 0 {
        StripNothing(d.coefficient, k);
      } else {
        StripStep(d.coefficient, k);
        CanonicalIsFormatOfNormal(shorter);
        assert '.' in Format(d) && '.' in Format(shorter);
      }
    }
  }

  // ----- main results -----

  /** The minimal printer is a complete invariant of the number, and reading undoes it. */
  lemma CanonicalRoundTrip(d: Dec)
    ensures Parse(Canonical(d)) == Some(Normalize(d)) && Value(Normalize(d)) == Value(d)
    ensures Canonical(Normalize(d)) == Canonical(d)
  {
    var n := Normalize(d);
    CanonicalIsFormatOfNormal(d);
    ParseFormat(n);
    NormalizeKeepsValue(d);
    NormalIsFixed(n);
    CanonicalIsFormatOfNormal(n);
  }

  lemma StrictRoundTrip(d: Dec)
    requires d.coefficient > 0
    ensures ParseCanonical(Canonical(d)) == Some(Normalize(d))
  {
    CanonicalRoundTrip(d);
    PositiveStays(d);
  }

  lemma NormalIsFixed(d: Dec)
    requires IsNormal(d)
    ensures Normalize(d) == d
  {
    assert Pow10(0) == 1;
  }

  lemma {:induction false} PositiveStays(d: Dec)
    requires d.coefficient > 0
    ensures Normalize(d).coefficient > 0
    decreases if d.exponent < 0 then -d.exponent else 0
  {
    if d.exponent < 0 && d.coefficient % 10 == 0 {
      PositiveStays(Dec(d.coefficient / 10, d.exponent + 1));
    } else if d.exponent >= 0 {
      assert d.coefficient * Pow10(d.exponent) > 0;
    }
  }

  lemma CanonicalDecidesEquality(a: Dec, b: Dec)
    ensures Canonical(a) == Canonical(b) <==> Value(a) == Value(b)
  {
    CanonicalRoundTrip(a);
    CanonicalRoundTrip(b);
    if Value(a) == Value(b) {
      NormalUnique(Normalize(a), Normalize(b));
      CanonicalIsFormatOfNormal(a);
      CanonicalIsFormatOfNormal(b);
    }
  }

  /** What the strict reader accepts is exactly what the printer writes for a positive number. */
  lemma ParseCanonicalSound(text: string)
    requires ParseCanonical(text).Some?
    ensures var d := ParseCanonical(text).value;
            d.coefficient > 0 && Canonical(d) == text && Normalize(d) == d && Value(d) > 0.0
  {
    var d := ParseCanonical(text).value;
    CanonicalRoundTrip(d);
    if d.exponent < 0 {
      assert Pow10(-d.exponent) as real > 0.0;
    }
    PositiveValue(d);
  }

  lemma PositiveValue(d: Dec)
    ensures d.coefficient > 0 <==> Value(d) > 0.0
  {
    if d.exponent >= 0 {
      assert d.coefficient > 0 ==> d.coefficient * Pow10(d.exponent) > 0;
    } else {
      var p := Pow10(-d.exponent) as real;
      assert Value(d) * p == d.coefficient as real;
    }
  }

  lemma NatRoundTrip(n: nat)
    ensures ParseNat(Digits(n)) == Some(n)
  {
    DigitsAreDigits(n);
  }
}
