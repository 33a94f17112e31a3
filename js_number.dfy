/**
 * JavaScript numbers as the bridge uses them: the result of `parseFloat`
 * (a finite value, NaN or an infinity), JavaScript's comparison, `||` and
 * multiplication on them, and the text `${x}` gives for a finite value.
 * Finite values are exact decimals; binary floating-point rounding is not
 * modelled.
 */
module JsNumber {
  import opened Wrappers
  import opened JsText

  /** The exact decimal `units / 10^scale`. */
  datatype Decimal = Decimal(units: int, scale: nat)

  function Pow10(n: nat): (p: nat)
    ensures p >= 1
  {
    if n == 0 then 1 else 10 * Pow10(n - 1)
  }

  /** The real number a decimal stands for. */
  function Value(d: Decimal): real {
    d.units as real / Pow10(d.scale) as real
  }

  /** A whole number as a decimal. */
  function Whole(n: int): (d: Decimal)
    ensures Value(d) == n as real
  {
    Decimal(n, 0)
  }

  /** A JavaScript number value. */
  datatype Number = NaN | Infinity | NegInfinity | Finite(d: Decimal)

  /** `x < c` for a finite constant `c`: false whenever `x` is NaN. */
  predicate LessThan(x: Number, c: real)
    ensures x == NaN ==> !LessThan(x, c)
    ensures LessThan(x, c) ==> !GreaterThan(x, c)
  {
    match x
    case NaN => false
    case Infinity => false
    case NegInfinity => true
    case Finite(d) => Value(d) < c
  }

  /** `x > c` for a finite constant `c`: false whenever `x` is NaN. */
  predicate GreaterThan(x: Number, c: real)
    ensures x == NaN ==> !GreaterThan(x, c)
    ensures x.Finite? && Value(x.d) == c ==> !GreaterThan(x, c)
  {
    match x
    case NaN => false
    case Infinity => true
    case NegInfinity => false
    case Finite(d) => Value(d) > c
  }

  /** JavaScript truthiness: NaN and zero are falsy (what `x || 1` tests). */
  predicate Truthy(x: Number)
    ensures !Truthy(x) <==> x == NaN || (x.Finite? && x.d.units == 0)
  {
    match x
    case NaN => false
    case Finite(d) => SignOfValue(d); Value(d) != 0.0
    case _ => true
  }

  /** A decimal has the sign of its units. */
  lemma SignOfValue(d: Decimal)
    ensures Value(d) < 0.0 <==> d.units < 0
    ensures Value(d) == 0.0 <==> d.units == 0
  {
    var p := Pow10(d.scale) as real;
    assert p > 0.0;
    assert Value(d) * p == d.units as real;
  }

  /** A decimal multiplied by 1000. */
  function Thousandfold(d: Decimal): (r: Decimal)
    ensures Value(r) == 1000.0 * Value(d)
  {
    Decimal(1000 * d.units, d.scale)
  }

  /** `1000 * x`: NaN and the infinities absorb the factor. */
  function Times1000(x: Number): (r: Number)
    ensures x.Finite? <==> r.Finite?
    ensures x.Finite? ==> Value(r.d) == 1000.0 * Value(x.d)
    ensures x == NaN <==> r == NaN
  {
    match x
    case Finite(d) => Finite(Thousandfold(d))
    case _ => x
  }

  /**
   * The same value with trailing zero digits of the fraction dropped, which
   * is the form JavaScript prints (`1500`, not `1500.0`).
   */
  function Normalize(d: Decimal): (n: Decimal)
    ensures Value(n) == Value(d)
    ensures n.scale <= d.scale
    ensures n.scale == 0 || n.units % 10 != 0
    decreases d.scale
  {
    if d.scale > 0 && d.units % 10 == 0 then
      var smaller := Decimal(d.units / 10, d.scale - 1);
      ScaleDown(d.units, d.scale);
      Normalize(smaller)
    else
      d
  }

  /** Dividing both numerator and denominator by ten keeps the value. */
  lemma ScaleDown(units: int, scale: nat)
    requires scale > 0 && units % 10 == 0
    ensures Value(Decimal(units / 10, scale - 1)) == Value(Decimal(units, scale))
  {
    var k := units / 10;
    var p := Pow10(scale - 1) as real;
    assert units as real == 10.0 * k as real;
    assert Pow10(scale) as real == 10.0 * p;
    calc {
      Value(Decimal(units, scale));
      (10.0 * k as real) / (10.0 * p);
      k as real / p;
    }
  }

  // ---------------------------------------------------------------------
  // Decimal numerals

  const Zero: CodeUnit := 0x30
  const Dot: CodeUnit := 0x2E
  const Minus: CodeUnit := 0x2D

  predicate IsDigit(c: CodeUnit) {
    Zero <= c <= Zero + 9
  }

  predicate AllDigits(s: JsString) {
    forall i :: 0 <= i < |s| ==> IsDigit(s[i])
  }

  function DigitUnit(n: nat): (c: CodeUnit)
    requires n < 10
    ensures IsDigit(c)
  {
    Zero + n as CodeUnit
  }

  /** The value of a string of decimal digits, most significant first. */
  function NumeralValue(s: JsString): nat
    requires AllDigits(s)
  {
    if s == [] then 0
    else 10 * NumeralValue(s[..|s| - 1]) + (s[|s| - 1] - Zero) as nat
  }

  /** The shortest numeral for `n` ("0" for zero). */
  function Digits(n: nat): (s: JsString)
    ensures |s| >= 1
    ensures AllDigits(s)
  {
    if n < 10 then [DigitUnit(n)] else Digits(n / 10) + [DigitUnit(n % 10)]
  }

  /** The numeral for `n` padded with leading zeros to exactly `width` digits. */
  function PaddedDigits(n: nat, width: nat): (s: JsString)
    requires n < Pow10(width)
    ensures |s| == width
    ensures AllDigits(s)
  {
    if width == 0 then [] else PaddedDigits(n / 10, width - 1) + [DigitUnit(n % 10)]
  }

  lemma {:induction false} DigitsValue(n: nat)
    ensures NumeralValue(Digits(n)) == n
  {
    if n >= 10 {
      DigitsValue(n / 10);
      var s := Digits(n);
      assert s[..|s| - 1] == Digits(n / 10);
    }
  }

  lemma {:induction false} PaddedDigitsValue(n: nat, width: nat)
    requires n < Pow10(width)
    ensures NumeralValue(PaddedDigits(n, width)) == n
  {
    if width > 0 {
      PaddedDigitsValue(n / 10, width - 1);
      var s := PaddedDigits(n, width);
      assert s[..|s| - 1] == PaddedDigits(n / 10, width - 1);
    }
  }

  /** A numeral below `10^k` has at most `k` digits. */
  lemma {:induction false} DigitsLength(n: nat, k: nat)
    requires 1 <= k && n < Pow10(k)
    ensures |Digits(n)| <= k
  {
    if n >= 10 {
      DigitsLength(n / 10, k - 1);
    }
  }

  // ---------------------------------------------------------------------
  // Number to text and back

  /**
   * The numeral of `a / 10^scale` for a non-negative `a`: the whole part,
   * then, when the scale is positive, a '.' and exactly `scale` fraction
   * digits.
   */
  function UnsignedText(a: nat, scale: nat): (s: JsString)
    ensures |s| >= 1 && IsDigit(s[0])
  {
    var p := Pow10(scale);
    DivMod(a, p);
    var q, r := a / p, a % p;
    Digits(q) + if scale == 0 then [] else [Dot] + PaddedDigits(r, scale)
  }

  /**
   * The text of a finite value in JavaScript's plain notation: an optional
   * minus sign, the whole part, and the fraction without trailing zeros.
   */
  function DecimalText(d: Decimal): (s: JsString)
    ensures |s| >= 1
    ensures s[0] == Minus <==> Value(d) < 0.0
    ensures s[0] != Minus ==> IsDigit(s[0])
  {
    var n := Normalize(d);
    SignOfValue(n);
    if n.units < 0 then [Minus] + UnsignedText(-n.units, n.scale)
    else UnsignedText(n.units, n.scale)
  }

  /** Where the first '.' of `s` is, or `|s|` when there is none. */
  function DotIndex(s: JsString): (i: nat)
    ensures i <= |s|
  {
    if s == [] || s[0] == Dot then 0 else 1 + DotIndex(s[1..])
  }

  lemma {:induction false} DotIndexAfterDigits(t: JsString, rest: JsString)
    requires AllDigits(t)
    requires rest == [] || rest[0] == Dot
    ensures DotIndex(t + rest) == |t|
  {
    if t != [] {
      assert (t + rest)[1..] == t[1..] + rest;
      DotIndexAfterDigits(t[1..], rest);
    }
  }

  /** Reads an unsigned numeral with an optional fraction ("1500", "1000.5"). */
  function ParseUnsigned(s: JsString): Option<Decimal> {
    var i := DotIndex(s);
    var whole := s[..i];
    if whole == [] || !AllDigits(whole) then None
    else if i == |s| then Some(Decimal(NumeralValue(whole), 0))
    else
      var fraction := s[i + 1..];
      if fraction == [] || !AllDigits(fraction) then None
      else Some(Decimal(NumeralValue(whole) * Pow10(|fraction|) + NumeralValue(fraction), |fraction|))
  }

  /** Reads the text a finite value prints as, sign included. */
  function ParseDecimal(s: JsString): Option<Decimal> {
    if |s| > 0 && s[0] == Minus then
      match ParseUnsigned(s[1..])
      case None => None
      case Some(d) => Some(Decimal(-d.units, d.scale))
    else
      ParseUnsigned(s)
  }

  /** A numeral without a fraction reads back as its value. */
  lemma {:induction false} ParseWhole(whole: JsString)
    requires whole != [] && AllDigits(whole)
    ensures ParseUnsigned(whole) == Some(Decimal(NumeralValue(whole), 0))
  {
    DotIndexAfterDigits(whole, []);
    assert whole + [] == whole;
  }

  /** A numeral with a fraction reads back as whole * 10^k + fraction at scale k. */
  lemma {:induction false} ParseWithFraction(whole: JsString, digits: JsString)
    requires whole != [] && AllDigits(whole) && digits != [] && AllDigits(digits)
    ensures ParseUnsigned(whole + ([Dot] + digits)) ==
      Some(Decimal(NumeralValue(whole) * Pow10(|digits|) + NumeralValue(digits), |digits|))
  {
    SplitAtDot(whole, digits);
  }

  /** The first '.' of `whole + "." + digits` separates exactly those two parts. */
  lemma {:induction false} SplitAtDot(whole: JsString, digits: JsString)
    requires AllDigits(whole)
    ensures var body := whole + ([Dot] + digits);
      && DotIndex(body) == |whole| < |body|
      && body[..|whole|] == whole
      && body[|whole| + 1..] == digits
  {
    DotIndexAfterDigits(whole, [Dot] + digits);
    var body := whole + ([Dot] + digits);
    assert body[..|whole|] == whole;
    assert body[|whole| + 1..] == digits;
  }

  /** An unsigned numeral reads back as the decimal it was printed from. */
  lemma UnsignedTextRoundTrip(a: nat, scale: nat)
    ensures ParseUnsigned(UnsignedText(a, scale)) == Some(Decimal(a, scale))
  {
    var p := Pow10(scale);
    DivMod(a, p);
    var q, r := a / p, a % p;
    DigitsValue(q);
    if scale == 0 {
      assert q == a && UnsignedText(a, scale) == Digits(q);
      ParseWhole(Digits(q));
    } else {
      PaddedDigitsValue(r, scale);
      assert UnsignedText(a, scale) == Digits(q) + ([Dot] + PaddedDigits(r, scale));
      ParseWithFraction(Digits(q), PaddedDigits(r, scale));
    }
  }

  lemma DivMod(a: nat, p: nat)
    requires p > 0
    ensures 0 <= a / p && 0 <= a % p < p
    ensures a == (a / p) * p + a % p
  {
  }

  /**
   * The text of a decimal reads back as the same value, in the normalized
   * form.
   */
  lemma DecimalTextRoundTrip(d: Decimal)
    ensures ParseDecimal(DecimalText(d)) == Some(Normalize(d))
    ensures Value(Normalize(d)) == Value(d)
  {
    var n := Normalize(d);
    if n.units < 0 {
      var body := UnsignedText(-n.units, n.scale);
      UnsignedTextRoundTrip(-n.units, n.scale);
      assert DecimalText(d)[1..] == body;
      assert DecimalText(d)[0] == Minus;
    } else {
      UnsignedTextRoundTrip(n.units, n.scale);
      var body := UnsignedText(n.units, n.scale);
      assert body[0] != Minus;
    }
  }
}
