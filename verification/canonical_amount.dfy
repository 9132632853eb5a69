// The canonical decimal form of an amount
// (tenir_governance/experimental/ep02_commit_authorization.py, canonical_amount).
module CanonicalAmount {
  import opened Wrappers

  // A finite non-negative decimal: coef * 10^exp.
  datatype Decimal = Decimal(coef: nat, exp: int)

  // What `Decimal(str(value))` yields; `Unusable` covers NaN, infinities and unreadable text.
  datatype Input = Unusable | Number(negative: bool, magnitude: Decimal)

  const PRECISION: nat := 28
  const MAX_LENGTH: nat := 128

  function Pow10(k: nat): (p: nat)
    ensures p >= 1
  {
    if k == 0 then 1 else 10 * Pow10(k - 1)
  }

  function Length(n: nat): nat { if n < 10 then 1 else 1 + Length(n / 10) }

  // ---------------------------------------------------------------- text

  function DigitChar(d: nat): char
    requires d < 10
  {
    '0' + d as char
  }

  predicate IsDigit(c: char) { '0' <= c <= '9' }

  function Digits(n: nat): (s: string)
    ensures |s| == Length(n) && AllDigits(s)
  {
    if n < 10 then [DigitChar(n)] else Digits(n / 10) + [DigitChar(n % 10)]
  }

  function Zeros(k: nat): string { seq(k, _ => '0') }

  predicate AllDigits(s: string) { forall i :: 0 <= i < |s| ==> IsDigit(s[i]) }

  function DigitValue(c: char): nat { if IsDigit(c) then (c - '0') as nat else 0 }

  function Value(s: string): nat {
    if s == "" then 0 else 10 * Value(s[..|s| - 1]) + DigitValue(s[|s| - 1])
  }

  function Joined(whole: string, fraction: string): string { whole + "." + fraction }

  // The digits before and after a point placed `k` digits from the right.
  function Whole(ds: string, k: nat): string { if |ds| > k then ds[..|ds| - k] else "0" }

  function Fraction(ds: string, k: nat): string { if |ds| > k then ds[|ds| - k..] else Zeros(k - |ds|) + ds }

  // format(d, "f")
  function Plain(d: Decimal): string {
    if d.exp >= 0 then Digits(d.coef) + Zeros(d.exp)
    else Joined(Whole(Digits(d.coef), -d.exp), Fraction(Digits(d.coef), -d.exp))
  }

  function RStrip(s: string, c: char): string {
    if s != "" && s[|s| - 1] == c then RStrip(s[..|s| - 1], c) else s
  }

  function Point(s: string): (i: nat)
    ensures i <= |s|
  {
    if s == "" || s[0] == '.' then 0 else 1 + Point(s[1..])
  }

  function Split(s: string): (string, string) {
    (s[..Point(s)], if Point(s) < |s| then s[Point(s) + 1..] else "")
  }

  // Reading a plain form; None for any other text.
  function Read(s: string): Option<Decimal> {
    var (whole, fraction) := Split(s);
    if whole + fraction != "" && AllDigits(whole + fraction)
    then Some(Decimal(Value(whole + fraction), -|fraction|)) else None
  }

  // ---------------------------------------------------------------- normalization

  // Round half to even, to PRECISION significant digits.
  function Round(d: Decimal): Decimal {
    var n := Length(d.coef);
    if n <= PRECISION then d
    else
      var unit := Pow10(n - PRECISION);
      var (q, r) := (d.coef / unit, d.coef % unit);
      var up := 2 * r > unit || (2 * r == unit && q % 2 == 1);
      Decimal(if up then q + 1 else q, d.exp + (n - PRECISION))
  }

  function Strip(d: Decimal): (s: Decimal)
    ensures s.coef % 10 != 0 || s == Decimal(0, 0)
    decreases d.coef
  {
    if d.coef == 0 then Decimal(0, 0)
    else if d.coef % 10 == 0 then Strip(Decimal(d.coef / 10, d.exp + 1))
    else d
  }

  function Normalize(d: Decimal): Decimal { Strip(Round(d)) }

  function Canonical(v: Input): Option<string> {
    if v.Unusable? || (v.negative && v.magnitude.coef > 0) then None
    else if v.magnitude.coef == 0 then Some("0")
    else
      var text := Plain(Normalize(v.magnitude));
      var short := if '.' in text then RStrip(RStrip(text, '0'), '.') else text;
      if |short| > MAX_LENGTH then None else Some(short)
  }

  function Amount(d: Decimal): Option<string> { Canonical(Number(false, d)) }

  predicate IsCanonical(s: string) {
    Read(s).Some? && Amount(Read(s).value) == Some(s)
  }

  // ---------------------------------------------------------------- equal numbers

  function Min(a: int, b: int): int { if a < b then a else b }

  predicate Same(a: Decimal, b: Decimal) {
    a.coef * Pow10(a.exp - Min(a.exp, b.exp)) == b.coef * Pow10(b.exp - Min(a.exp, b.exp))
  }

  lemma ShiftKeepsNumber(c: nat, e: int, b: Decimal)
    ensures Same(Decimal(10 * c, e), b) <==> Same(Decimal(c, e + 1), b)
  {
    if b.exp <= e {
      assert Pow10(e + 1 - b.exp) == 10 * Pow10(e - b.exp);
    } else {
      assert Pow10(b.exp - e) == 10 * Pow10(b.exp - e - 1);
      assert b.coef * Pow10(b.exp - e) == 10 * (b.coef * Pow10(b.exp - e - 1));
    }
  }

  lemma {:induction false} StripKeepsNumber(a: Decimal, b: Decimal)
    ensures Same(a, b) <==> Same(Strip(a), b)
    decreases a.coef
  {
    if a.coef != 0 && a.coef % 10 == 0 {
      ShiftKeepsNumber(a.coef / 10, a.exp, b);
      StripKeepsNumber(Decimal(a.coef / 10, a.exp + 1), b);
    }
  }

  lemma MultipleOfTen(c: nat, k: nat)
    requires k > 0
    ensures (c * Pow10(k)) % 10 == 0
  {
    assert c * Pow10(k) == 10 * (c * Pow10(k - 1));
  }

  predicate Stripped(d: Decimal) { d.coef % 10 != 0 || d == Decimal(0, 0) }

  lemma ZeroFactor(x: nat, y: nat)
    requires y >= 1 && x * y == 0
    ensures x == 0
  {}

  lemma StrippedFormIsUnique(a: Decimal, b: Decimal)
    requires Stripped(a) && Stripped(b)
    ensures Same(a, b) <==> a == b
  {
    if Same(a, b) {
      if a.coef == 0 { ZeroFactor(b.coef, Pow10(b.exp - Min(a.exp, b.exp))); }
      else if b.coef == 0 { ZeroFactor(a.coef, Pow10(a.exp - Min(a.exp, b.exp))); }
      else if a.exp < b.exp { MultipleOfTen(b.coef, b.exp - a.exp); }
      else if b.exp < a.exp { MultipleOfTen(a.coef, a.exp - b.exp); }
    }
  }

  lemma SameIsSymmetric(a: Decimal, b: Decimal)
    ensures Same(a, b) <==> Same(b, a)
  {}

  // Two decimals are the same number exactly when they strip to the same form.
  lemma SameIffStripEqual(a: Decimal, b: Decimal)
    ensures Same(a, b) <==> Strip(a) == Strip(b)
  {
    var (x, y) := (Strip(a), Strip(b));
    StripKeepsNumber(a, b);
    SameIsSymmetric(x, b);
    StripKeepsNumber(b, x);
    StrippedFormIsUnique(y, x);
  }

  // ---------------------------------------------------------------- reading back

  lemma {:induction false} ValueOfDigits(n: nat)
    ensures Value(Digits(n)) == n
  {
    if n >= 10 {
      ValueOfDigits(n / 10);
      assert Digits(n)[..|Digits(n)| - 1] == Digits(n / 10);
    }
  }

  lemma TimesTen(x: nat, y: nat)
    ensures x * (10 * y) == 10 * (x * y)
  {}

  lemma ValueOfOneMore(s: string)
    ensures Value(s + "0") == 10 * Value(s)
  {
    assert (s + "0")[..|s|] == s;
  }

  lemma {:induction false} ValueOfTrailingZeros(s: string, k: nat)
    ensures Value(s + Zeros(k)) == Value(s) * Pow10(k)
  {
    if k == 0 {
      assert s + Zeros(k) == s;
    } else {
      ValueOfTrailingZeros(s, k - 1);
      assert s + Zeros(k) == (s + Zeros(k - 1)) + "0";
      ValueOfOneMore(s + Zeros(k - 1));
      TimesTen(Value(s), Pow10(k - 1));
    }
  }

  lemma {:induction false} ValueOfLeadingZeros(s: string, k: nat)
    ensures Value(Zeros(k) + s) == Value(s)
    decreases |s|
  {
    if s == "" {
      ValueOfTrailingZeros("", k);
      assert Zeros(k) + s == "" + Zeros(k);
    } else {
      ValueOfLeadingZeros(s[..|s| - 1], k);
      assert (Zeros(k) + s)[..k + |s| - 1] == Zeros(k) + s[..|s| - 1];
    }
  }

  lemma {:induction false} PointAfterDigits(s: string, rest: string)
    requires AllDigits(s) && (rest == "" || rest[0] == '.')
    ensures Point(s + rest) == |s|
  {
    if s == "" {
      assert s + rest == rest;
    } else {
      assert (s + rest)[1..] == s[1..] + rest;
      PointAfterDigits(s[1..], rest);
    }
  }

  lemma ReadDigits(s: string)
    requires s != "" && AllDigits(s)
    ensures Read(s) == Some(Decimal(Value(s), 0))
  {
    PointAfterDigits(s, "");
    assert s + "" == s && s[..|s|] + "" == s;
  }

  lemma SplitJoined(whole: string, fraction: string)
    requires AllDigits(whole)
    ensures Split(Joined(whole, fraction)) == (whole, fraction)
  {
    var s := whole + ("." + fraction);
    assert Joined(whole, fraction) == s;
    PointAfterDigits(whole, "." + fraction);
    assert s[..|whole|] == whole && s[|whole| + 1..] == fraction;
  }

  lemma ReadFraction(whole: string, fraction: string)
    requires whole != "" && AllDigits(whole) && AllDigits(fraction)
    ensures Read(Joined(whole, fraction)) == Some(Decimal(Value(whole + fraction), -|fraction|))
  {
    SplitJoined(whole, fraction);
  }

  // A plain form reads back as the number it was printed from.
  lemma PlainReadsBack(d: Decimal)
    ensures Read(Plain(d)) == Some(if d.exp >= 0 then Decimal(d.coef * Pow10(d.exp), 0) else d)
  {
    ValueOfDigits(d.coef);
    if d.exp >= 0 {
      ValueOfTrailingZeros(Digits(d.coef), d.exp);
      ReadDigits(Plain(d));
    } else {
      PartsOfDigits(Digits(d.coef), -d.exp);
      ReadFraction(Whole(Digits(d.coef), -d.exp), Fraction(Digits(d.coef), -d.exp));
    }
  }

  lemma ValueOfPadded(ds: string, z: nat)
    ensures Value("0" + (Zeros(z) + ds)) == Value(ds)
  {
    assert "0" + (Zeros(z) + ds) == Zeros(z + 1) + ds;
    ValueOfLeadingZeros(ds, z + 1);
  }

  lemma PartsOfDigits(ds: string, k: nat)
    requires ds != "" && AllDigits(ds)
    ensures Whole(ds, k) != "" && AllDigits(Whole(ds, k)) && AllDigits(Fraction(ds, k)) && |Fraction(ds, k)| == k
    ensures Value(Whole(ds, k) + Fraction(ds, k)) == Value(ds)
  {
    if |ds| > k {
      assert Whole(ds, k) + Fraction(ds, k) == ds;
    } else {
      ValueOfPadded(ds, k - |ds|);
    }
  }

  lemma ScaledIsSame(d: Decimal)
    requires d.exp >= 0
    ensures Same(Decimal(d.coef * Pow10(d.exp), 0), d)
  {}

  // The two rstrip calls never remove anything: a normalized fraction has no trailing zero.
  lemma NothingToStrip(d: Decimal)
    requires d.coef % 10 != 0
    ensures '.' in Plain(d) ==> RStrip(RStrip(Plain(d), '0'), '.') == Plain(d)
  {
    var ds := Digits(d.coef);
    assert ds[|ds| - 1] == DigitChar(d.coef % 10);
    if d.exp < 0 { assert Plain(d)[|Plain(d)| - 1] == ds[|ds| - 1]; }
    else { assert forall i :: 0 <= i < |Plain(d)| ==> IsDigit(Plain(d)[i]); }
  }

  // ---------------------------------------------------------------- rounding

  lemma {:induction false} LengthBounds(n: nat, k: nat)
    ensures k > 0 ==> (Length(n) <= k <==> n < Pow10(k))
    decreases k
  {
    if k > 1 {
      assert Pow10(k) == 10 * Pow10(k - 1);
      if n >= 10 { LengthBounds(n / 10, k - 1); }
    }
  }

  // The significant digits of a number, whatever its spelling.
  function Significant(d: Decimal): nat { Length(Strip(d).coef) }

  lemma {:induction false} StripShortens(d: Decimal)
    requires d.coef > 0
    ensures Strip(d).coef > 0 && Strip(d).exp >= d.exp
    ensures d.coef == Strip(d).coef * Pow10(Strip(d).exp - d.exp)
    ensures Length(d.coef) == Significant(d) + (Strip(d).exp - d.exp)
    decreases d.coef
  {
    if d.coef % 10 == 0 {
      var e := Decimal(d.coef / 10, d.exp + 1);
      StripShortens(e);
      TimesTen(Strip(d).coef, Pow10(Strip(d).exp - e.exp));
    }
  }

  lemma {:induction false} PowSplits(a: nat, b: nat)
    ensures Pow10(a + b) == Pow10(a) * Pow10(b)
  {
    if a > 0 { PowSplits(a - 1, b); }
  }

  lemma DivideOut(c: nat, m: nat, j: nat, k: nat)
    requires k <= j && c == m * Pow10(j)
    ensures c % Pow10(k) == 0 && c / Pow10(k) == m * Pow10(j - k)
  {
    PowSplits(j - k, k);
    var (x, y) := (m * Pow10(j - k), Pow10(k));
    assert c == x * y;
    Quotient(x, y);
  }

  lemma Quotient(x: nat, y: nat)
    requires y > 0
    ensures (x * y) / y == x && (x * y) % y == 0
  {
    var (q, r) := ((x * y) / y, (x * y) % y);
    assert (x - q) * y == r;
    AtLeastOnce(x - q, y);
  }

  lemma AtLeastOnce(d: int, y: int)
    requires y >= 0
    ensures d >= 1 ==> d * y >= y
    ensures d <= -1 ==> d * y <= -y
  {}

  lemma {:induction false} StripScaled(m: nat, e: int, k: nat)
    requires m > 0
    ensures Strip(Decimal(m * Pow10(k), e)) == Strip(Decimal(m, e + k))
    decreases k
  {
    if k > 0 {
      assert m * Pow10(k) == 10 * (m * Pow10(k - 1));
      StripScaled(m, e + 1, k - 1);
    }
  }

  // Up to PRECISION significant digits, rounding changes nothing but the spelling.
  lemma ShortNumbersAreExact(d: Decimal)
    requires Significant(d) <= PRECISION
    ensures Normalize(d) == Strip(d)
  {
    var n := Length(d.coef);
    if n > PRECISION {
      var (s, k) := (Strip(d), n - PRECISION);
      StripShortens(d);
      var j := s.exp - d.exp;
      DivideOut(d.coef, s.coef, j, k);
      assert Round(d) == Decimal(s.coef * Pow10(j - k), d.exp + k);
      StripScaled(s.coef, d.exp + k, j - k);
    }
  }

  // And the result never has more.
  lemma RoundedIsShort(d: Decimal)
    ensures Significant(Round(d)) <= PRECISION
  {
    var n := Length(d.coef);
    if d.coef == 0 {
    } else if n <= PRECISION {
      StripShortens(d);
    } else {
      var k := n - PRECISION;
      LengthBounds(d.coef, n);
      PowSplits(PRECISION, k);
      QuotientBound(d.coef, Pow10(PRECISION), Pow10(k));
      ShortCoefficient(Round(d));
    }
  }

  lemma ShortCoefficient(d: Decimal)
    requires d.coef <= Pow10(PRECISION)
    ensures Significant(d) <= PRECISION
  {
    if d.coef == 0 {
    } else if d.coef < Pow10(PRECISION) {
      LengthBounds(d.coef, PRECISION);
      StripShortens(d);
    } else {
      StripScaled(1, d.exp, PRECISION);
      assert d == Decimal(1 * Pow10(PRECISION), d.exp);
    }
  }

  lemma QuotientBound(c: nat, x: nat, y: nat)
    requires y > 0 && c < x * y
    ensures c / y < x
  {
  }

  // ---------------------------------------------------------------- the normal form

  predicate Fits(d: Decimal) { Amount(d).Some? }

  lemma RoundStaysPositive(d: Decimal)
    requires d.coef > 0
    ensures Round(d).coef > 0
  {
    var n := Length(d.coef);
    if n > PRECISION {
      LengthBounds(d.coef, n - PRECISION);
      if d.coef / Pow10(n - PRECISION) == 0 { SmallQuotient(d.coef, Pow10(n - PRECISION)); }
    }
  }

  lemma SmallQuotient(c: nat, y: nat)
    requires y > 0 && c / y == 0
    ensures c < y
  {}

  lemma AmountIsPlain(d: Decimal)
    requires d.coef > 0
    ensures Normalize(d).coef % 10 != 0
    ensures Amount(d) == if |Plain(Normalize(d))| > MAX_LENGTH then None else Some(Plain(Normalize(d)))
  {
    RoundStaysPositive(d);
    StripShortens(Round(d));
    NothingToStrip(Normalize(d));
  }

  // How long the plain form of a stripped positive number is.
  function PlainLength(d: Decimal): nat {
    if d.exp >= 0 then Length(d.coef) + d.exp
    else if Length(d.coef) > -d.exp then Length(d.coef) + 1
    else 2 - d.exp
  }

  // An amount is refused exactly when it is no number, negative, or too long in plain form.
  lemma RefusedExactly(v: Input)
    ensures Canonical(v).None?
      <==> || v.Unusable?
           || (v.negative && v.magnitude.coef > 0)
           || (v.magnitude.coef > 0 && PlainLength(Normalize(v.magnitude)) > MAX_LENGTH)
  {
    if v.Number? && v.magnitude.coef > 0 && !v.negative { AmountIsPlain(v.magnitude); }
  }

  // Reading the canonical text gives the normalized number.
  lemma AmountReadsBack(d: Decimal)
    requires Fits(d)
    ensures Read(Amount(d).value).Some?
    ensures Strip(Read(Amount(d).value).value) == Normalize(d)
  {
    if d.coef == 0 {
      ReadDigits("0");
    } else {
      AmountIsPlain(d);
      var z := Normalize(d);
      PlainReadsBack(z);
      if z.exp >= 0 {
        ScaledIsSame(z);
        SameIffStripEqual(Decimal(z.coef * Pow10(z.exp), 0), z);
      }
    }
  }

  // The number survives the round trip exactly when it has at most PRECISION significant
  // digits.
  lemma ReadBackIsExact(d: Decimal)
    requires Fits(d)
    ensures var p := Read(Amount(d).value);
      p.Some? && (Same(p.value, d) <==> Significant(d) <= PRECISION)
  {
    AmountReadsBack(d);
    SameIffStripEqual(Read(Amount(d).value).value, d);
    RoundedIsShort(d);
    if Significant(d) <= PRECISION { ShortNumbersAreExact(d); }
  }

  // Canonicalizing a canonical text changes nothing, whatever was rounded to reach it.
  lemma Idempotent(d: Decimal)
    requires Fits(d)
    ensures IsCanonical(Amount(d).value)
  {
    AmountReadsBack(d);
    RoundedIsShort(d);
    var p := Read(Amount(d).value).value;
    ShortNumbersAreExact(p);
    if d.coef > 0 {
      RoundStaysPositive(d);
      StripShortens(Round(d));
      AmountIsPlain(d);
      AmountIsPlain(p);
    } else if p.coef > 0 {
      StripShortens(p);
    }
  }

  // Equal texts exactly for equal numbers.
  lemma EqualTextsIffEqualNumbers(a: Decimal, b: Decimal)
    requires Fits(a) && Fits(b) && Significant(a) <= PRECISION && Significant(b) <= PRECISION
    ensures Amount(a) == Amount(b) <==> Same(a, b)
  {
    ShortNumbersAreExact(a);
    ShortNumbersAreExact(b);
    SameIffStripEqual(a, b);
    AmountReadsBack(a);
    AmountReadsBack(b);
    if a.coef > 0 { AmountIsPlain(a); StripShortens(a); }
    if b.coef > 0 { AmountIsPlain(b); StripShortens(b); }
  }

  // Beyond that two different numbers can share one text.
  lemma LongAmountsCollide()
    ensures var (a, b) := (Decimal(10000000000000000000000000001, 0), Decimal(10000000000000000000000000000, 0));
      !Same(a, b) && Amount(a) == Amount(b) && Fits(a)
  {
    var (a, b) := (Decimal(10000000000000000000000000001, 0), Decimal(10000000000000000000000000000, 0));
    assert Pow10(1) == 10 * Pow10(0);
    LengthOf29(a.coef);
    LengthOf29(b.coef);
    assert Round(a) == Decimal(1000000000000000000000000000, 1) == Round(b);
    AmountIsPlain(a);
    AmountIsPlain(b);
    var z := Normalize(a);
    Pow27();
    StripScaled(1, 1, 27);
    assert z == Decimal(1, 28);
    assert |Plain(z)| == 29;
  }

  lemma LengthOf29(n: nat)
    requires 10000000000000000000000000000 <= n < 100000000000000000000000000000
    ensures Length(n) == 29
  {
    Pow27();
    assert Pow10(28) == 10 * Pow10(27) && Pow10(29) == 10 * Pow10(28);
    LengthBounds(n, 29);
    LengthBounds(n, 28);
  }

  lemma Pow27()
    ensures Pow10(27) == 1000000000000000000000000000
  {
    assert Pow10(3) == 1000;
    PowSplits(3, 3); PowSplits(3, 6); PowSplits(9, 9); PowSplits(9, 18);
  }
}
