/** Fixed-point decimals in the manner of java.math.BigDecimal restricted to
    non-negative scales: a value is an unscaled integer together with a scale,
    and stands for unscaled / 10^scale. Addition and multiplication are exact,
    Round2 is setScale(2, RoundingMode.HALF_UP), Format is toPlainString and
    Parse is the BigDecimal(String) constructor on plain decimal strings. */
module Decimal {

  datatype Option<T> = None | Some(value: T)

  datatype Dec = Dec(unscaled: int, scale: nat)

  /** BigDecimal.ZERO */
  const Zero: Dec := Dec(0, 0)

  function Pow10(n: nat): (p: nat)
    ensures p >= 1
  {
    if n == 0 then 1 else 10 * Pow10(n - 1)
  }

  lemma {:induction false} Pow10Add(a: nat, b: nat)
    ensures Pow10(a + b) == Pow10(a) * Pow10(b)
  {
    if a > 0 {
      Pow10Add(a - 1, b);
      assert Pow10(a + b) == 10 * Pow10(a - 1 + b);
    }
  }

  /** The rational number a decimal stands for. */
  ghost function Value(d: Dec): real
  {
    d.unscaled as real / Pow10(d.scale) as real
  }

  function Max(a: nat, b: nat): nat { if a < b then b else a }

  function Abs(x: int): nat { if x < 0 then -x else x }

  /** The unscaled value of d written at the larger scale s. */
  function Align(d: Dec, s: nat): int
    requires d.scale <= s
  {
    d.unscaled * Pow10(s - d.scale)
  }

  lemma AlignValue(d: Dec, s: nat)
    requires d.scale <= s
    ensures Value(Dec(Align(d, s), s)) == Value(d)
  {
    Pow10Add(s - d.scale, d.scale);
    ScaleCancel(d.unscaled, Pow10(s - d.scale), Pow10(d.scale));
  }

  lemma ScaleCancel(u: int, k: int, q: int)
    requires k >= 1 && q >= 1
    ensures (u * k) as real / (k * q) as real == u as real / q as real
  {
    IntProductAsReal(u, k);
    IntProductAsReal(k, q);
    RealCancel(u as real, k as real, q as real);
  }

  lemma RealCancel(x: real, k: real, q: real)
    requires k > 0.0 && q > 0.0
    ensures (x * k) / (k * q) == x / q
  {
  }

  lemma MulAssociates(x: int, y: int, z: int)
    ensures (x * y) * z == x * (y * z)
  {
  }

  lemma MulDistributes(x: int, y: int, k: int)
    ensures (x + y) * k == x * k + y * k
  {
  }

  lemma {:induction false} AlignTwice(d: Dec, s1: nat, s2: nat)
    requires d.scale <= s1 <= s2
    ensures Align(Dec(Align(d, s1), s1), s2) == Align(d, s2)
  {
    Pow10Add(s1 - d.scale, s2 - s1);
    MulAssociates(d.unscaled, Pow10(s1 - d.scale), Pow10(s2 - s1));
  }

  /** A sum written at scale s1 and then at s2 is the sum of the two terms
      written at s2. */
  lemma AlignSum(a: Dec, b: Dec, s1: nat, s2: nat)
    requires a.scale <= s1 && b.scale <= s1 && s1 <= s2
    ensures Align(Dec(Align(a, s1) + Align(b, s1), s1), s2) == Align(a, s2) + Align(b, s2)
  {
    AlignTwice(a, s1, s2);
    AlignTwice(b, s1, s2);
    MulDistributes(Align(a, s1), Align(b, s1), Pow10(s2 - s1));
  }

  /** BigDecimal.add: exact, at the larger of the two scales. */
  function Add(a: Dec, b: Dec): (r: Dec)
    ensures r.scale == Max(a.scale, b.scale)
  {
    var m := Max(a.scale, b.scale);
    Dec(Align(a, m) + Align(b, m), m)
  }

  /** Addition is exact. */
  lemma AddValue(a: Dec, b: Dec)
    ensures Value(Add(a, b)) == Value(a) + Value(b)
  {
    var m := Max(a.scale, b.scale);
    AlignValue(a, m);
    AlignValue(b, m);
    var x := Align(a, m) as real;
    var y := Align(b, m) as real;
    var q := Pow10(m) as real;
    assert Value(Add(a, b)) == (x + y) / q;
    assert (x + y) / q == x / q + y / q;
  }

  /** BigDecimal.multiply: exact, at the sum of the two scales. */
  function Mul(a: Dec, b: Dec): (r: Dec)
    ensures r.scale == a.scale + b.scale
  {
    Dec(a.unscaled * b.unscaled, a.scale + b.scale)
  }

  /** Multiplication is exact. */
  lemma MulValue(a: Dec, b: Dec)
    ensures Value(Mul(a, b)) == Value(a) * Value(b)
  {
    Pow10Add(a.scale, b.scale);
    FractionProduct(a.unscaled, b.unscaled, Pow10(a.scale), Pow10(b.scale));
  }

  lemma FractionProduct(x: int, y: int, p: int, q: int)
    requires p >= 1 && q >= 1
    ensures (x * y) as real / (p * q) as real == (x as real / p as real) * (y as real / q as real)
  {
    IntProductAsReal(x, y);
    IntProductAsReal(p, q);
    RealSplit(x as real, y as real, p as real, q as real);
  }

  lemma IntProductAsReal(m: int, n: int)
    ensures (m * n) as real == (m as real) * (n as real)
  {
  }

  lemma RealSplit(x: real, y: real, p: real, q: real)
    requires p > 0.0 && q > 0.0
    ensures (x * y) / (p * q) == (x / p) * (y / q)
  {
  }

  /** An int converted exactly, as new BigDecimal(int) does. */
  function OfInt(n: int): (r: Dec)
    ensures r.scale == 0
  {
    Dec(n, 0)
  }

  lemma OfIntValue(n: int)
    ensures Value(OfInt(n)) == n as real
  {
  }

  /** setScale(2, RoundingMode.HALF_UP); Round2Spec says what it computes. */
  function Round2(d: Dec): (r: Dec)
    ensures r.scale == 2
  {
    if d.scale <= 2 then
      Dec(Align(d, 2), 2)
    else
      var p: int := Pow10(d.scale - 2);
      var mag := Abs(d.unscaled);
      var rounded := if 2 * (mag % p) >= p then mag / p + 1 else mag / p;
      Dec(if d.unscaled < 0 then -rounded else rounded, 2)
  }

  /** Exact when the scale is at most 2; otherwise the nearest value of
      scale 2, a tie going away from zero. */
  lemma Round2Spec(d: Dec)
    ensures d.scale <= 2 ==> Value(Round2(d)) == Value(d)
    ensures d.scale > 2 ==>
      var p: int := Pow10(d.scale - 2);
      var err := Round2(d).unscaled * p - d.unscaled;
      && -p <= 2 * err <= p
      && (2 * err == p ==> d.unscaled > 0)
      && (2 * err == -p ==> d.unscaled < 0)
  {
    if d.scale <= 2 {
      AlignValue(d, 2);
    } else {
      Round2Error(d);
    }
  }

  lemma Round2Error(d: Dec)
    requires d.scale > 2
    ensures var p: int := Pow10(d.scale - 2);
      var err := Round2(d).unscaled * p - d.unscaled;
      && -p <= 2 * err <= p
      && (2 * err == p ==> d.unscaled > 0)
      && (2 * err == -p ==> d.unscaled < 0)
  {
    var p: int := Pow10(d.scale - 2);
    var mag := Abs(d.unscaled);
    var q := mag / p;
    var rem := mag % p;
    var rounded := if 2 * rem >= p then q + 1 else q;
    RoundMagnitude(mag, p, q, rem, rounded);
    assert Round2(d).unscaled == if d.unscaled < 0 then -rounded else rounded;
    SignedError(d.unscaled, rounded, p);
  }

  lemma SignedError(u: int, rounded: int, p: int)
    ensures (if u < 0 then -rounded else rounded) * p - u
      == if u < 0 then -(rounded * p - Abs(u)) else rounded * p - Abs(u)
  {
  }

  /** Rounding to two places moves the value by at most half a cent. */
  lemma Round2Value(d: Dec)
    ensures -0.005 <= Value(Round2(d)) - Value(d) <= 0.005
  {
    Round2Spec(d);
    if d.scale > 2 {
      var p: int := Pow10(d.scale - 2);
      var r := Round2(d);
      Pow10Add(d.scale - 2, 2);
      assert Pow10(d.scale) == p * 100;
      IntProductAsReal(p, 100);
      assert Value(r) == r.unscaled as real / 100.0;
      assert Value(d) == d.unscaled as real / (p as real * 100.0);
      DiffAsFraction(r.unscaled, d.unscaled, p);
      ErrorBound((r.unscaled * p - d.unscaled) as real, p as real);
    }
  }

  lemma DiffAsFraction(ru: int, du: int, p: int)
    requires p >= 1
    ensures ru as real / 100.0 - du as real / (p as real * 100.0) == (ru * p - du) as real / (p as real * 100.0)
  {
    IntProductAsReal(ru, p);
    var q := p as real * 100.0;
    assert ru as real / 100.0 == (ru as real * p as real) / q;
  }

  lemma ErrorBound(e: real, p: real)
    requires p >= 1.0 && -p <= 2.0 * e <= p
    ensures -0.005 <= e / (p * 100.0) <= 0.005
  {
    var q := p * 100.0;
    assert e / q * q == e;
  }

  lemma RoundMagnitude(mag: nat, p: int, q: int, rem: int, rounded: int)
    requires p >= 1 && q == mag / p && rem == mag % p
    requires rounded == if 2 * rem >= p then q + 1 else q
    ensures -p <= 2 * (rounded * p - mag) <= p
    ensures 2 * (rounded * p - mag) == p ==> mag > 0
    ensures 2 * (rounded * p - mag) != -p
  {
    assert mag == q * p + rem;
    if 2 * rem >= p {
      assert rounded * p == q * p + p;
    }
  }

  /** Java's Stream.reduce(BigDecimal.ZERO, BigDecimal::add): a left fold. */
  function Sum(xs: seq<Dec>): Dec
  {
    if |xs| == 0 then Zero else Add(Sum(xs[..|xs| - 1]), xs[|xs| - 1])
  }

  lemma AddCommutes(a: Dec, b: Dec)
    ensures Add(a, b) == Add(b, a)
  {
  }

  lemma AddAssociates(a: Dec, b: Dec, c: Dec)
    ensures Add(Add(a, b), c) == Add(a, Add(b, c))
  {
    var m1 := Max(a.scale, b.scale);
    var m2 := Max(b.scale, c.scale);
    var m := Max(m1, c.scale);
    AlignSum(a, b, m1, m);
    AlignSum(b, c, m2, m);
  }

  lemma AddSwapRight(a: Dec, b: Dec, c: Dec)
    ensures Add(Add(a, b), c) == Add(Add(a, c), b)
  {
    AddAssociates(a, b, c);
    AddCommutes(b, c);
    AddAssociates(a, c, b);
  }

  /** Removing the element at j and adding it at the end gives the same sum. */
  lemma {:induction false} SumRemove(xs: seq<Dec>, j: nat)
    requires j < |xs|
    ensures Sum(xs) == Add(Sum(xs[..j] + xs[j + 1..]), xs[j])
  {
    var n := |xs|;
    if j == n - 1 {
      assert xs[..j] + xs[j + 1..] == xs[..n - 1];
    } else {
      var init := xs[..n - 1];
      var rest := init[..j] + init[j + 1..];
      SumRemove(init, j);
      AddSwapRight(Sum(rest), xs[j], xs[n - 1]);
      assert rest + [xs[n - 1]] == xs[..j] + xs[j + 1..];
      assert (rest + [xs[n - 1]])[..|rest|] == rest;
    }
  }

  /** The sum does not depend on the order of the summands: BigDecimal
      addition is exact, so even the scale of the result is the same. */
  lemma {:induction false} SumPermutation(xs: seq<Dec>, ys: seq<Dec>)
    requires multiset(xs) == multiset(ys)
    ensures Sum(xs) == Sum(ys)
  {
    if |xs| == 0 {
      assert |ys| == |multiset(ys)| == 0;
    } else {
      var n := |xs|;
      var x := xs[n - 1];
      assert x in multiset(xs);
      assert x in ys;
      var j :| 0 <= j < |ys| && ys[j] == x;
      var ys' := ys[..j] + ys[j + 1..];
      assert ys == ys[..j] + [x] + ys[j + 1..];
      assert multiset(ys) == multiset(ys[..j]) + multiset{x} + multiset(ys[j + 1..]);
      assert xs == xs[..n - 1] + [x];
      assert multiset(xs) == multiset(xs[..n - 1]) + multiset{x};
      assert multiset(ys') == multiset(ys[..j]) + multiset(ys[j + 1..]);
      assert multiset(xs[..n - 1]) == multiset(xs) - multiset{x};
      assert multiset(ys') == multiset(ys) - multiset{x};
      SumPermutation(xs[..n - 1], ys');
      SumRemove(ys, j);
    }
  }

  // ---------------------------------------------------------------- text

  predicate IsDigit(c: char) { '0' <= c <= '9' }

  predicate AllDigits(s: string) { forall i :: 0 <= i < |s| ==> IsDigit(s[i]) }

  function Digit(n: nat): (c: char)
    requires n < 10
    ensures IsDigit(c)
  {
    (n + '0' as int) as char
  }

  function DigitValue(c: char): nat
    requires IsDigit(c)
  {
    c as int - '0' as int
  }

  /** The decimal digits of n, without leading zeros ("0" for zero). */
  function DigitsOf(n: nat): (s: string)
    ensures |s| > 0 && AllDigits(s)
  {
    if n < 10 then [Digit(n)] else DigitsOf(n / 10) + [Digit(n % 10)]
  }

  /** Exactly w decimal digits of n, with leading zeros. */
  function PaddedDigits(n: nat, w: nat): (s: string)
    requires n < Pow10(w)
    ensures |s| == w && AllDigits(s)
  {
    if w == 0 then "" else PaddedDigits(n / 10, w - 1) + [Digit(n % 10)]
  }

  /** The number a string of digits denotes. */
  function DigitsValue(s: string): nat
    requires AllDigits(s)
  {
    if |s| == 0 then 0 else 10 * DigitsValue(s[..|s| - 1]) + DigitValue(s[|s| - 1])
  }

  /** BigDecimal.toPlainString for a non-negative scale. */
  function Format(d: Dec): string
  {
    (if d.unscaled < 0 then "-" else "") + UnsignedText(Abs(d.unscaled), d.scale)
  }

  /** The digits of mag / 10^scale, with exactly scale digits after the point. */
  function UnsignedText(mag: nat, scale: nat): (s: string)
    ensures |s| > 0 && IsDigit(s[0])
  {
    var p := Pow10(scale);
    DivMod(mag, p);
    DigitsOf(mag / p) + (if scale == 0 then "" else "." + PaddedDigits(mag % p, scale))
  }

  lemma DivMod(m: nat, p: int)
    requires p >= 1
    ensures 0 <= m / p && 0 <= m % p < p && m == (m / p) * p + m % p
  {
  }

  /** Index of the first '.', or |s| when there is none. */
  function PointIndex(s: string): (i: nat)
    ensures i <= |s|
    ensures i < |s| ==> s[i] == '.'
    ensures forall j :: 0 <= j < i ==> s[j] != '.'
  {
    if |s| == 0 then 0
    else if s[0] == '.' then 0
    else 1 + PointIndex(s[1..])
  }

  /** The unsigned part of a plain decimal: digits, optionally a point and
      more digits, with at least one digit in all. */
  function ParseUnsigned(s: string): Option<Dec>
  {
    var i := PointIndex(s);
    var whole := s[..i];
    var frac := if i < |s| then s[i + 1..] else "";
    if AllDigits(whole) && AllDigits(frac) && |whole| + |frac| > 0 then
      Some(Dec(DigitsValue(whole + frac), |frac|))
    else
      None
  }

  /** new BigDecimal(s) for a plain decimal string (an optional sign, then
      the unsigned part); None where Java throws NumberFormatException. */
  function Parse(s: string): Option<Dec>
  {
    if |s| > 0 && (s[0] == '-' || s[0] == '+') then
      match ParseUnsigned(s[1..])
      case None => None
      case Some(d) => Some(if s[0] == '-' then Dec(-d.unscaled, d.scale) else d)
    else
      ParseUnsigned(s)
  }

  lemma {:induction false} DigitsValueAppend(a: string, b: string)
    requires AllDigits(a) && AllDigits(b)
    ensures AllDigits(a + b)
    ensures DigitsValue(a + b) == DigitsValue(a) * Pow10(|b|) + DigitsValue(b)
  {
    assert AllDigits(a + b) by {
      forall i | 0 <= i < |a + b| ensures IsDigit((a + b)[i]) {
        if i >= |a| { assert (a + b)[i] == b[i - |a|]; }
      }
    }
    if |b| > 0 {
      var b' := b[..|b| - 1];
      assert (a + b)[..|a + b| - 1] == a + b';
      assert (a + b)[|a + b| - 1] == b[|b| - 1];
      DigitsValueAppend(a, b');
      var d := DigitValue(b[|b| - 1]);
      assert DigitsValue(a + b) == 10 * DigitsValue(a + b') + d;
      assert DigitsValue(b) == 10 * DigitsValue(b') + d;
      ShiftDigit(DigitsValue(a), DigitsValue(b'), d, Pow10(|b'|));
    } else {
      assert a + b == a;
    }
  }

  lemma ShiftDigit(x: int, y: int, d: int, p: int)
    ensures 10 * (x * p + y) + d == x * (10 * p) + (10 * y + d)
  {
  }

  lemma {:induction false} DigitsOfValue(n: nat)
    ensures DigitsValue(DigitsOf(n)) == n
  {
    if n >= 10 {
      DigitsOfValue(n / 10);
      var s := DigitsOf(n);
      assert s[..|s| - 1] == DigitsOf(n / 10);
    }
  }

  lemma {:induction false} PaddedDigitsValue(n: nat, w: nat)
    requires n < Pow10(w)
    ensures DigitsValue(PaddedDigits(n, w)) == n
  {
    if w > 0 {
      PaddedDigitsValue(n / 10, w - 1);
      var s := PaddedDigits(n, w);
      assert s[..|s| - 1] == PaddedDigits(n / 10, w - 1);
    }
  }

  lemma NoPoint(s: string)
    requires AllDigits(s)
    ensures PointIndex(s) == |s|
  {
    if PointIndex(s) < |s| {
      assert false;
    }
  }

  lemma {:induction false} PointIndexAfterDigits(a: string, rest: string)
    requires AllDigits(a) && |rest| > 0 && rest[0] == '.'
    ensures PointIndex(a + rest) == |a|
  {
    if |a| > 0 {
      assert IsDigit(a[0]);
      assert (a + rest)[1..] == a[1..] + rest;
      PointIndexAfterDigits(a[1..], rest);
    } else {
      assert a + rest == rest;
    }
  }

  lemma ParseUnsignedText(mag: nat, scale: nat)
    ensures ParseUnsigned(UnsignedText(mag, scale)) == Some(Dec(mag, scale))
  {
    if scale == 0 {
      ParseWhole(mag);
    } else {
      ParseFraction(mag, scale);
    }
  }

  lemma ParseWhole(mag: nat)
    ensures ParseUnsigned(UnsignedText(mag, 0)) == Some(Dec(mag, 0))
  {
    var whole := DigitsOf(mag);
    assert UnsignedText(mag, 0) == whole;
    DigitsOfValue(mag);
    NoPoint(whole);
    assert whole + "" == whole;
  }

  lemma ParseFraction(mag: nat, scale: nat)
    requires scale > 0
    ensures ParseUnsigned(UnsignedText(mag, scale)) == Some(Dec(mag, scale))
  {
    var p := Pow10(scale);
    DivMod(mag, p);
    var whole := DigitsOf(mag / p);
    var frac := PaddedDigits(mag % p, scale);
    var u := UnsignedText(mag, scale);
    assert u == whole + ("." + frac);
    PointIndexAfterDigits(whole, "." + frac);
    assert u[..|whole|] == whole;
    assert u[|whole| + 1..] == frac;
    DigitsOfValue(mag / p);
    PaddedDigitsValue(mag % p, scale);
    DigitsValueAppend(whole, frac);
    assert DigitsValue(whole + frac) == mag;
  }

  /** A non-negative amount at scale 1 prints as its whole part, a point
      and one digit. */
  lemma FormatTenths(n: nat, whole: nat, frac: nat)
    requires frac < 10 && n == 10 * whole + frac
    ensures Format(Dec(n, 1)) == DigitsOf(whole) + "." + PaddedDigits(frac, 1)
  {
    assert n / 10 == whole && n % 10 == frac;
  }

  /** A non-negative amount at scale 2 prints as its whole part, a point
      and two digits. */
  lemma FormatCents(n: nat, whole: nat, cents: nat)
    requires cents < 100 && n == 100 * whole + cents
    ensures Format(Dec(n, 2)) == DigitsOf(whole) + "." + PaddedDigits(cents, 2)
  {
    assert n / 100 == whole && n % 100 == cents;
  }

  /** Parsing what Format writes gives back the same decimal, scale included:
      the round trip that the suspend/restore snapshot relies on. */
  lemma ParseFormat(d: Dec)
    ensures Parse(Format(d)) == Some(d)
  {
    var u := UnsignedText(Abs(d.unscaled), d.scale);
    ParseUnsignedText(Abs(d.unscaled), d.scale);
    if d.unscaled < 0 {
      assert Format(d)[1..] == u;
    } else {
      assert Format(d) == u;
    }
  }
}
