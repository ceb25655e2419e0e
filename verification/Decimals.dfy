/**
 Fixed-point rendering of numbers (`_canonical_number` in backend/apps/ledger/canonical.py).

 A number reaches the renderer as a `decimal.Decimal`: a sign, a coefficient and an exponent
 of ten. It is quantised to hundredths, halves going to the even neighbour, under the default
 context of 28 digits, and printed with exactly two digits after the point.
 */
module Decimals {
  import opened Basics
  import opened Text

  datatype Decimal =
    | Finite(negative: bool, coefficient: nat, exponent: int)
    | NonFinite

  datatype NumberError = NotFinite | TooManyDigits

  /** The first number of hundredths that needs more than the context's 28 digits. */
  const CENTS_LIMIT: nat := 10_000_000_000_000_000_000_000_000_000

  function Pow10(n: nat): (p: nat)
    ensures p >= 1
  {
    if n == 0 then 1 else 10 * Pow10(n - 1)
  }

  /** `n / m` to the nearest integer, halves to the even one. */
  function RoundHalfEven(n: nat, m: nat): nat
    requires m > 0
  {
    var q, r := n / m, n % m;
    if 2 * r > m || (2 * r == m && q % 2 == 1) then q + 1 else q
  }

  /** `coefficient` times ten to `exponent`, in hundredths. */
  function Hundredths(coefficient: nat, exponent: int): nat {
    if exponent >= -2 then coefficient * Pow10(exponent + 2)
    else RoundHalfEven(coefficient, Pow10(-2 - exponent))
  }

  function Cents(d: Decimal): nat
    requires d.Finite?
  {
    Hundredths(d.coefficient, d.exponent)
  }

  function Digit(n: nat): (c: char)
    requires n < 10
    ensures '0' <= c <= '9'
  {
    '0' + n as char
  }

  function Digits(n: nat): string {
    if n < 10 then [Digit(n)] else Digits(n / 10) + [Digit(n % 10)]
  }

  /** The printed form of `cents` hundredths. */
  function Render(negative: bool, cents: nat): string {
    (if negative then "-" else "")
    + (Digits(cents / 100) + (['.'] + [Digit(cents % 100 / 10), Digit(cents % 10)]))
  }

  function CanonicalNumber(d: Decimal): Result<string, NumberError> {
    if d.NonFinite? then Err(NotFinite)
    else if Cents(d) >= CENTS_LIMIT then Err(TooManyDigits)
    else Ok(Render(d.negative, Cents(d)))
  }

  // ------------------------------------------------------------ reading back

  function DigitValue(c: char): nat
    requires '0' <= c <= '9'
  {
    c as int - '0' as int
  }

  predicate AllDigits(s: string) {
    forall i | 0 <= i < |s| :: '0' <= s[i] <= '9'
  }

  function NumberOf(s: string): nat
    requires AllDigits(s)
  {
    if s == "" then 0
    else 10 * NumberOf(s[..|s| - 1]) + DigitValue(s[|s| - 1])
  }

  /** Digits, a point and two more digits, read as a decimal. */
  function ReadUnsigned(t: string, negative: bool): Option<Decimal> {
    if |t| < 4 then None
    else ReadParts(t[..|t| - 3], t[|t| - 3..], negative)
  }

  function ReadParts(whole: string, point: string, negative: bool): Option<Decimal>
    requires |point| == 3
  {
    if point[0] != '.' || !AllDigits(whole) || !AllDigits(point[1..]) then None
    else Some(Finite(negative, NumberOf(whole) * 100 + NumberOf(point[1..]), -2))
  }

  function ReadFixed(s: string): Option<Decimal> {
    if s != "" && s[0] == '-' then ReadUnsigned(s[1..], true) else ReadUnsigned(s, false)
  }

  lemma {:induction false} DigitsReadBack(n: nat)
    ensures Digits(n) != "" && AllDigits(Digits(n)) && NumberOf(Digits(n)) == n
  {
    if n >= 10 {
      DigitsReadBack(n / 10);
      var s := Digits(n / 10);
      assert Digits(n)[..|Digits(n)| - 1] == s;
    } else {
      assert Digits(n)[..0] == "";
    }
  }

  lemma TwoDigitsReadBack(n: nat)
    requires n < 100
    ensures AllDigits([Digit(n / 10), Digit(n % 10)])
    ensures NumberOf([Digit(n / 10), Digit(n % 10)]) == n
  {
    var t := [Digit(n / 10), Digit(n % 10)];
    assert t[..1] == [Digit(n / 10)] && t[..1][..0] == "";
    assert NumberOf(t[..1]) == n / 10;
  }

  lemma UnsignedReadsBack(whole: string, fraction: string, negative: bool)
    requires whole != "" && |fraction| == 2 && AllDigits(whole) && AllDigits(fraction)
    ensures ReadUnsigned(whole + (['.'] + fraction), negative)
              == Some(Finite(negative, NumberOf(whole) * 100 + NumberOf(fraction), -2))
  {
    var point := ['.'] + fraction;
    assert point[1..] == fraction;
    Slices(whole, point);
  }

  lemma SignedReadsBack(t: string, negative: bool)
    requires t != "" && t[0] != '-'
    ensures ReadFixed((if negative then "-" else "") + t) == ReadUnsigned(t, negative)
  {
    Slices("-", t);
    assert "" + t == t;
  }

  /** The printed form gives back the sign and the hundredths. */
  lemma RenderReadsBack(negative: bool, cents: nat)
    ensures ReadFixed(Render(negative, cents)) == Some(Finite(negative, cents, -2))
  {
    hide ReadUnsigned, ReadFixed;
    var whole, fraction := Digits(cents / 100), [Digit(cents % 100 / 10), Digit(cents % 10)];
    DigitsReadBack(cents / 100);
    TwoDigitsReadBack(cents % 100);
    UnsignedReadsBack(whole, fraction, negative);
    assert (whole + (['.'] + fraction))[0] == whole[0] != '-';
    SignedReadsBack(whole + (['.'] + fraction), negative);
  }

  /** Exactly two digits follow the point. */
  lemma RenderHasTwoFractionDigits(negative: bool, cents: nat)
    ensures var s := Render(negative, cents);
            |s| >= 4 && s[|s| - 3] == '.' && AllDigits(s[|s| - 2..])
  {
    DigitsReadBack(cents / 100);
    var s := Render(negative, cents);
    assert s[|s| - 2..] == [Digit(cents % 100 / 10), Digit(cents % 10)];
  }

  /** A rendered number, read again as a decimal and rendered again, is unchanged. */
  lemma CanonicalNumberFixedPoint(d: Decimal)
    requires CanonicalNumber(d).Ok?
    ensures var s := CanonicalNumber(d).value;
            ReadFixed(s).Some? && CanonicalNumber(ReadFixed(s).value) == Ok(s)
  {
    hide Render, ReadFixed, Hundredths;
    RenderReadsBack(d.negative, Cents(d));
    HundredthsOfHundredths(Cents(d));
  }

  lemma HundredthsOfHundredths(cents: nat)
    ensures Hundredths(cents, -2) == cents
  {
    assert Pow10(0) == 1;
  }

  /** Numbers with different rounded values or signs are printed differently. */
  lemma RenderInjective(n1: bool, c1: nat, n2: bool, c2: nat)
    requires Render(n1, c1) == Render(n2, c2)
    ensures n1 == n2 && c1 == c2
  {
    RenderReadsBack(n1, c1);
    RenderReadsBack(n2, c2);
  }

  // ------------------------------------------------------- rounding is faithful

  /** `q` is within half a unit of `n / m`, and even when `n / m` lies half-way. */
  predicate NearestEven(n: int, m: int, q: int) {
    var e := 2 * (q * m - n);
    -m <= e <= m && (e == m || e == -m ==> q % 2 == 0)
  }

  lemma RoundedIsNearestEven(n: nat, m: nat)
    requires m > 0
    ensures NearestEven(n, m, RoundHalfEven(n, m))
  {
    var q, r := n / m, n % m;
    assert n == q * m + r;
    assert (q + 1) * m == q * m + m;
  }

  lemma Larger(a: int, b: int, m: int)
    requires m > 0 && a < b
    ensures a * m < b * m
  {
    assert (b - a) * m > 0;
    assert b * m - a * m == (b - a) * m;
  }

  lemma LargeMultiple(k: int, m: int)
    requires m > 0
    ensures k > 1 ==> k * m > m
    ensures k < -1 ==> k * m < -m
  {
    if k > 1 {
      Larger(1, k, m);
    } else if k < -1 {
      Larger(k, -1, m);
    }
  }

  /** Exactly one integer is the nearest, ties to even. */
  lemma NearestEvenUnique(n: int, m: int, p: int, q: int)
    requires m > 0 && NearestEven(n, m, p) && NearestEven(n, m, q)
    ensures p == q
  {
    assert (p - q) * m == p * m - q * m;
    assert (q + 1) * m == q * m + m && (q - 1) * m == q * m - m;
    LargeMultiple(p - q, m);
  }

  /** Scaling numerator and denominator alike does not change the rounded quotient. */
  lemma RoundHalfEvenScales(n: nat, m: nat, k: nat)
    requires m > 0 && k > 0
    ensures m * k > 0 && RoundHalfEven(n * k, m * k) == RoundHalfEven(n, m)
  {
    var q := RoundHalfEven(n, m);
    assert m * k > 0;
    RoundedIsNearestEven(n, m);
    RoundedIsNearestEven(n * k, m * k);
    NearestEvenScales(n, m, q, k);
    NearestEvenUnique(n * k, m * k, q, RoundHalfEven(n * k, m * k));
  }

  lemma NearestEvenScales(n: int, m: int, q: int, k: int)
    requires k > 0 && NearestEven(n, m, q)
    ensures NearestEven(n * k, m * k, q)
  {
    var e := 2 * (q * m - n);
    assert q * (m * k) - n * k == (q * m - n) * k;
    assert 2 * (q * (m * k) - n * k) == e * k;
    assert (m - e) * k == m * k - e * k && (m + e) * k == m * k + e * k;
    if m > e {
      assert (m - e) * k > 0;
    }
    if m > -e {
      assert (m + e) * k > 0;
    }
  }

  lemma {:induction false} Pow10Add(a: nat, b: nat)
    ensures Pow10(a + b) == Pow10(a) * Pow10(b)
  {
    if a > 0 {
      Pow10Add(a - 1, b);
      assert Pow10(a) * Pow10(b) == 10 * (Pow10(a - 1) * Pow10(b));
    }
  }

  /** The two magnitudes are the same real number. */
  predicate SameMagnitude(a: Decimal, b: Decimal)
    requires a.Finite? && b.Finite?
  {
    if a.exponent >= b.exponent
    then a.coefficient * Pow10(a.exponent - b.exponent) == b.coefficient
    else a.coefficient == b.coefficient * Pow10(b.exponent - a.exponent)
  }

  lemma CentsOfWhole(c: nat, e: nat, k: nat)
    ensures c * Pow10(k) * Pow10(e) == c * Pow10(e + k)
  {
    Pow10Add(e, k);
    assert c * Pow10(k) * Pow10(e) == c * (Pow10(e) * Pow10(k));
  }

  lemma ExactlyRounded(q: nat, m: nat)
    requires m > 0
    ensures RoundHalfEven(q * m, m) == q
  {
    RoundedIsNearestEven(q * m, m);
    NearestEvenUnique(q * m, m, q, RoundHalfEven(q * m, m));
  }

  lemma ScaledExactly(c: nat, d: nat, k: nat)
    ensures Hundredths(c * Pow10(k), d - 2) == Hundredths(c, d + k - 2)
  {
    CentsOfWhole(c, d, k);
  }

  lemma ScaledToFraction(c: nat, d: nat, e: nat)
    requires d > 0
    ensures Hundredths(c * Pow10(e + d), -2 - d) == Hundredths(c, e - 2)
  {
    CentsOfWhole(c, d, e);
    assert d + e == e + d;
    ExactlyRounded(c * Pow10(e), Pow10(d));
  }

  lemma ScaledFraction(c: nat, d: nat, k: nat)
    requires d > 0
    ensures Hundredths(c * Pow10(k), -2 - d - k) == Hundredths(c, -2 - d)
  {
    Pow10Add(d, k);
    RoundHalfEvenScales(c, Pow10(d), Pow10(k));
  }

  /** Writing a number with `k` more trailing zeros does not change its hundredths. */
  lemma HundredthsOfScaled(c: nat, e: int, k: nat)
    ensures Hundredths(c * Pow10(k), e - k) == Hundredths(c, e)
  {
    hide *;
    if e - k >= -2 {
      ScaledExactly(c, e - k + 2, k);
      assert e - k + 2 - 2 == e - k && e - k + 2 + k - 2 == e;
    } else if e >= -2 {
      ScaledToFraction(c, k - e - 2, e + 2);
      assert e + 2 + (k - e - 2) == k && -2 - (k - e - 2) == e - k && e + 2 - 2 == e;
    } else {
      ScaledFraction(c, -2 - e, k);
      assert -2 - (-2 - e) - k == e - k && -2 - (-2 - e) == e;
    }
  }

  /** The text depends on the sign and the numeric value only, not on how it was written. */
  lemma CanonicalNumberByValue(a: Decimal, b: Decimal)
    requires a.Finite? && b.Finite? && a.negative == b.negative && SameMagnitude(a, b)
    ensures CanonicalNumber(a) == CanonicalNumber(b)
  {
    if a.exponent >= b.exponent {
      HundredthsOfScaled(a.coefficient, a.exponent, a.exponent - b.exponent);
    } else {
      HundredthsOfScaled(b.coefficient, b.exponent, b.exponent - a.exponent);
    }
  }

  /**
   The value printed is within half a hundredth of the number, ties going to an even last
   digit; both sides are scaled by ten to the number of dropped digits.
   */
  lemma CanonicalNumberAccurate(d: Decimal)
    requires CanonicalNumber(d).Ok?
    ensures var s := CanonicalNumber(d).value;
            ReadFixed(s).Some? && ReadFixed(s).value == Finite(d.negative, Cents(d), -2)
    ensures d.exponent >= -2 ==> SameMagnitude(d, Finite(d.negative, Cents(d), -2))
    ensures d.exponent < -2 ==>
              NearestEven(d.coefficient, Pow10(-2 - d.exponent), Cents(d))
  {
    RenderReadsBack(d.negative, Cents(d));
    if d.exponent < -2 {
      RoundedIsNearestEven(d.coefficient, Pow10(-2 - d.exponent));
    }
  }

  /** A number is rendered exactly when it is finite and has at most 28 digits once it is rounded. */
  lemma CanonicalNumberAccepts(d: Decimal)
    ensures CanonicalNumber(d).Ok? <==> d.Finite? && |Digits(Cents(d))| <= 28
    ensures CanonicalNumber(d) == Err(NotFinite) <==> d.NonFinite?
  {
    if d.Finite? {
      DigitsWithin(Cents(d), 28);
      assert Pow10(28) == CENTS_LIMIT by {
        assert Pow10(7) == 10_000_000;
        Pow10Add(7, 7);
        Pow10Add(14, 14);
      }
    }
  }

  lemma {:induction false} DigitsWithin(n: nat, k: nat)
    requires k > 0
    ensures |Digits(n)| <= k <==> n < Pow10(k)
    decreases k
  {
    if n < 10 {
      assert Pow10(k) == 10 * Pow10(k - 1);
    } else if k > 1 {
      DigitsWithin(n / 10, k - 1);
      assert Pow10(k) == 10 * Pow10(k - 1);
    } else {
      assert Pow10(1) == 10;
      DigitsNotEmpty(n / 10);
    }
  }

  lemma DigitsNotEmpty(n: nat)
    ensures |Digits(n)| >= 1
  {
  }

  /** Zero with a sign is the one exception: equal values, different texts. */
  lemma NegativeZeroDiffers()
    ensures CanonicalNumber(Finite(true, 0, 0)) == Ok("-0.00")
    ensures CanonicalNumber(Finite(false, 0, 0)) == Ok("0.00")
  {
    assert Cents(Finite(true, 0, 0)) == 0 && Cents(Finite(false, 0, 0)) == 0;
    assert Render(false, 0) == "0.00" && Render(true, 0) == "-0.00";
  }

  lemma RenderIsPlain(negative: bool, cents: nat)
    ensures Plain(Render(negative, cents)) && Render(negative, cents) != ""
  {
    DigitsReadBack(cents / 100);
    var s := Render(negative, cents);
    forall i | 0 <= i < |s| ensures s[i] == '-' || s[i] == '.' || '0' <= s[i] <= '9' {
    }
  }

  lemma CanonicalNumberIsPlain(d: Decimal)
    requires CanonicalNumber(d).Ok?
    ensures Plain(CanonicalNumber(d).value) && CanonicalNumber(d).value != ""
  {
    hide Render, Hundredths;
    RenderIsPlain(d.negative, Cents(d));
  }
}
