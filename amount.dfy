/**
 * The fixed-point money value of the ledger (package `amount`).
 *
 * Java keeps an `Amount` as a `BigDecimal` whose scale is always 2, so an
 * Amount is modelled as a natural number of cents: the type itself carries the
 * no-negative-money invariant. Inputs are BigDecimal-like pairs
 * (unscaled, scale), denoting unscaled * 10^-scale, and are brought to two
 * fractional digits by an explicit round-half-to-even.
 */
module Amounts {
  import opened Wrappers
  import opened Exceptions

  /** A BigDecimal: the number unscaled * 10^(-scale). The scale may be negative. */
  datatype Decimal = Decimal(unscaled: int, scale: int)

  /** The money value: a non-negative number of hundredths. */
  datatype Amount = Amount(cents: nat)

  function Pow10(n: nat): (r: nat)
    ensures r >= 1
  {
    if n == 0 then 1 else 10 * Pow10(n - 1)
  }

  function Abs(x: int): nat
  {
    if x < 0 then -x else x
  }

  function MaxScale(x: Decimal, y: Decimal): int
  {
    if x.scale >= y.scale then x.scale else y.scale
  }

  /** BigDecimal.add: both operands are aligned on the larger scale. */
  function Add(x: Decimal, y: Decimal): (r: Decimal)
    ensures x.scale == y.scale ==> r == Decimal(x.unscaled + y.unscaled, x.scale)
  {
    var s := MaxScale(x, y);
    Decimal(x.unscaled * Pow10(s - x.scale) + y.unscaled * Pow10(s - y.scale), s)
  }

  /** BigDecimal.subtract: both operands are aligned on the larger scale. */
  function Subtract(x: Decimal, y: Decimal): (r: Decimal)
    ensures x.scale == y.scale ==> r == Decimal(x.unscaled - y.unscaled, x.scale)
  {
    var s := MaxScale(x, y);
    Decimal(x.unscaled * Pow10(s - x.scale) - y.unscaled * Pow10(s - y.scale), s)
  }

  /** `d.compareTo(BigDecimal.ZERO) < 0`: the sign of a decimal is the sign of its unscaled value. */
  predicate IsNegative(d: Decimal)
  {
    d.unscaled < 0
  }

  /**
   * The reference meaning of rounding a non-negative decimal to two fractional
   * digits, half to even: with at most two fractional digits the value is kept
   * exactly; otherwise `cents` is a whole number of hundredths at distance at
   * most half a hundredth from the value, and the even one when the value lies
   * exactly half-way. Distances are measured in units of 10^(-scale).
   */
  ghost predicate IsHalfEvenRounding(d: Decimal, cents: int)
  {
    if d.scale <= 2 then cents == d.unscaled * Pow10(2 - d.scale)
    else
      var unit := Pow10(d.scale - 2);
      var dist := Abs(d.unscaled - cents * unit);
      2 * dist <= unit && (2 * dist == unit ==> cents % 2 == 0)
  }

  /** u / unit rounded to a whole number, half to even. */
  function RoundHalfEven(u: nat, unit: nat): nat
    requires unit >= 1
  {
    var q, r := u / unit, u % unit;
    if 2 * r < unit then q
    else if 2 * r > unit then q + 1
    else if q % 2 == 0 then q
    else q + 1
  }

  /** `setScale(2, RoundingMode.HALF_EVEN)` of a non-negative decimal, as a count of cents. */
  function SetScaleHalfEven(d: Decimal): (cents: nat)
    requires d.unscaled >= 0
    ensures IsHalfEvenRounding(d, cents)
  {
    if d.scale <= 2 then d.unscaled * Pow10(2 - d.scale)
    else
      RoundHalfEvenIsNearest(d.unscaled, Pow10(d.scale - 2));
      RoundHalfEven(d.unscaled, Pow10(d.scale - 2))
  }

  /** The private constructor: the value is brought to scale 2 once, on construction. */
  function FromDecimal(d: Decimal): (a: Amount)
    requires d.unscaled >= 0
    ensures IsHalfEvenRounding(d, a.cents)
  {
    Amount(SetScaleHalfEven(d))
  }

  /** The validating factory: negative inputs are refused before any rounding. */
  function AmountOf(d: Decimal): (r: Result<Amount, LedgerError>)
    ensures r.Err? <==> d.unscaled < 0
    ensures r.Err? ==> r.error == NegativeAmount
    ensures r.Ok? ==> IsHalfEvenRounding(d, r.value.cents)
  {
    if IsNegative(d) then Err(NegativeAmount) else Ok(FromDecimal(d))
  }

  /** The BigDecimal held by an Amount: always at scale 2. */
  function AsDecimal(a: Amount): Decimal
  {
    Decimal(a.cents, 2)
  }

  /** `plus`: the sum re-rounded, which is exact because both operands are at scale 2. */
  function Plus(a: Amount, b: Amount): (r: Amount)
    ensures r.cents == a.cents + b.cents
    ensures r.cents >= a.cents && r.cents >= b.cents
  {
    var sum := Add(AsDecimal(a), AsDecimal(b));
    ExactAtScaleTwo(sum);
    FromDecimal(sum)
  }

  /** `minus`: refuses a negative difference, otherwise the exact difference. */
  function Minus(a: Amount, b: Amount): (r: Result<Amount, LedgerError>)
    ensures r.Ok? <==> b.cents <= a.cents
    ensures r.Err? ==> r.error == NegativeAmount
    ensures r.Ok? ==> r.value.cents + b.cents == a.cents
  {
    var diff := Subtract(AsDecimal(a), AsDecimal(b));
    if IsNegative(diff) then Err(NegativeAmount)
    else
      ExactAtScaleTwo(diff);
      Ok(FromDecimal(diff))
  }

  /** BigDecimal.compareTo: -1, 0 or 1 by the sign of the aligned difference. */
  function DecimalCompare(x: Decimal, y: Decimal): int
  {
    var diff := Subtract(x, y);
    if diff.unscaled < 0 then -1 else if diff.unscaled > 0 then 1 else 0
  }

  /** `compareTo`: the numeric order of the two values. */
  function CompareTo(a: Amount, b: Amount): (r: int)
    ensures r == -1 || r == 0 || r == 1
    ensures r < 0 <==> a.cents < b.cents
    ensures r == 0 <==> a.cents == b.cents
    ensures r > 0 <==> a.cents > b.cents
  {
    DecimalCompare(AsDecimal(a), AsDecimal(b))
  }

  /** `equals`: BigDecimal.equals, which compares unscaled value and scale. */
  function Equals(a: Amount, b: Amount): (r: bool)
    ensures r <==> a == b
    ensures r <==> CompareTo(a, b) == 0
  {
    AsDecimal(a) == AsDecimal(b)
  }

  // ---------------------------------------------------------------- text

  predicate IsDigit(c: char)
  {
    '0' <= c <= '9'
  }

  predicate AllDigits(s: string)
  {
    forall i :: 0 <= i < |s| ==> IsDigit(s[i])
  }

  function DigitChar(n: nat): (c: char)
    requires n < 10
    ensures IsDigit(c)
  {
    (48 + n) as char
  }

  function DigitValue(c: char): nat
    requires IsDigit(c)
  {
    c as int - 48
  }

  /** The decimal digits of n, most significant first, without leading zeros. */
  function NatToString(n: nat): (s: string)
    ensures |s| >= 1 && AllDigits(s)
  {
    if n < 10 then [DigitChar(n)] else NatToString(n / 10) + [DigitChar(n % 10)]
  }

  /** The number a string of decimal digits denotes. */
  function DigitsValue(s: string): nat
    requires AllDigits(s)
  {
    if s == [] then 0 else 10 * DigitsValue(s[..|s| - 1]) + DigitValue(s[|s| - 1])
  }

  /** `amountValueToString`: BigDecimal.toString at scale 2, "<integer digits>.<two digits>". */
  function AmountValueToString(a: Amount): (s: string)
    ensures |s| >= 4 && s[|s| - 3] == '.'
    ensures AllDigits(s[..|s| - 3]) && IsDigit(s[|s| - 2]) && IsDigit(s[|s| - 1])
  {
    NatToString(a.cents / 100) + "." + [DigitChar(a.cents / 10 % 10), DigitChar(a.cents % 10)]
  }

  // ---------------------------------------------------------------- lemmas

  /** Rounding to scale 2 keeps a value that already has scale 2. */
  lemma ExactAtScaleTwo(d: Decimal)
    requires d.scale == 2 && d.unscaled >= 0
    ensures SetScaleHalfEven(d) == d.unscaled
  {
  }

  /** RoundHalfEven is within half a unit of u, and even on a tie. */
  lemma RoundHalfEvenIsNearest(u: nat, unit: nat)
    requires unit >= 1
    ensures var c := RoundHalfEven(u, unit);
      2 * Abs(u - c * unit) <= unit && (2 * Abs(u - c * unit) == unit ==> c % 2 == 0)
  {
  }

  /** The half-even rounding is the only whole number of cents the reference meaning admits. */
  lemma HalfEvenRoundingIsUnique(d: Decimal, cents: int)
    requires d.unscaled >= 0
    ensures IsHalfEvenRounding(d, cents) <==> cents == SetScaleHalfEven(d)
  {
    if d.scale > 2 {
      var unit := Pow10(d.scale - 2);
      var u, c := d.unscaled, SetScaleHalfEven(d);
      var k := c - cents;
      MulSub(c, cents, unit);
      AbsMul(k, unit);
      MulLe(2, Abs(k), unit);
      assert k == 1 ==> k * unit == unit;
      assert k == -1 ==> k * unit + unit == 0;
    }
  }

  lemma MulSub(a: int, b: int, unit: int)
    ensures a * unit - b * unit == (a - b) * unit
  {
  }

  lemma AbsMul(k: int, unit: nat)
    ensures Abs(k * unit) == Abs(k) * unit
  {
    if k < 0 {
      assert k * unit == -((-k) * unit);
    }
  }

  lemma MulLe(a: int, b: int, unit: nat)
    ensures a <= b ==> a * unit <= b * unit
  {
    assert b * unit - a * unit == (b - a) * unit;
  }

  /** An input with at most two fractional digits is kept exactly. */
  lemma AmountOfKeepsTwoDecimals(d: Decimal)
    requires d.unscaled >= 0 && d.scale <= 2
    ensures AmountOf(d) == Ok(Amount(d.unscaled * Pow10(2 - d.scale)))
  {
  }

  /** Re-reading an Amount's own value through the factory gives the same Amount. */
  lemma AmountOfIsIdempotent(a: Amount)
    ensures AmountOf(AsDecimal(a)) == Ok(a)
  {
  }

  /** The factory is refused for every negative input, even one that half-even rounding would take to zero. */
  lemma AmountOfChecksSignBeforeRounding()
    ensures AmountOf(Decimal(-1, 3)).Err?
    ensures AmountOf(Decimal(-1000, 2)) == Err(NegativeAmount)
    ensures AmountOf(Decimal(1, 3)) == Ok(Amount(0))
  {
  }

  /** Ties go to the even neighbour: 0.005 gives 0.00, 0.015 and 0.025 give 0.02. */
  lemma HalfEvenExamples()
    ensures AmountOf(Decimal(5, 3)) == Ok(Amount(0))
    ensures AmountOf(Decimal(15, 3)) == Ok(Amount(2))
    ensures AmountOf(Decimal(25, 3)) == Ok(Amount(2))
    ensures AmountOf(Decimal(26, 3)) == Ok(Amount(3))
  {
  }

  /** `minus` undoes `plus`. */
  lemma MinusUndoesPlus(a: Amount, b: Amount)
    ensures Minus(Plus(a, b), b) == Ok(a)
  {
  }

  /** `plus` undoes a successful `minus`. */
  lemma PlusUndoesMinus(a: Amount, b: Amount)
    requires Minus(a, b).Ok?
    ensures Plus(Minus(a, b).value, b) == a
  {
  }

  /** 20.00 + 45.00 is 65.00; 100.00 - 45.00 is 55.00; 30.00 - 45.00 is refused; "50" is read as 50.00. */
  lemma ArithmeticExamples()
    ensures Plus(Amount(2000), Amount(4500)) == Amount(6500)
    ensures Minus(Amount(10000), Amount(4500)) == Ok(Amount(5500))
    ensures Minus(Amount(3000), Amount(4500)) == Err(NegativeAmount)
    ensures AmountOf(Decimal(50, 0)) == Ok(Amount(5000))
  {
  }

  /** `compareTo` is a total order, consistent with `equals`. */
  lemma CompareToIsTotalOrder(a: Amount, b: Amount, c: Amount)
    ensures CompareTo(a, b) == -CompareTo(b, a)
    ensures CompareTo(a, b) <= 0 && CompareTo(b, c) <= 0 ==> CompareTo(a, c) <= 0
    ensures CompareTo(a, b) == 0 <==> Equals(a, b)
  {
  }

  /** The digits NatToString produces read back as n, with no leading zero. */
  lemma {:induction false} NatToStringDenotes(n: nat)
    ensures DigitsValue(NatToString(n)) == n
    ensures NatToString(n)[0] == '0' ==> n == 0
  {
    if n >= 10 {
      NatToStringDenotes(n / 10);
      var s := NatToString(n);
      assert s[..|s| - 1] == NatToString(n / 10);
    }
  }

  /** The text of an Amount reads back as its value: integer digits without a leading zero, a point, two digits. */
  lemma AmountValueToStringDenotes(a: Amount)
    ensures var s := AmountValueToString(a);
      && DigitsValue(s[..|s| - 3]) * 100 + DigitValue(s[|s| - 2]) * 10 + DigitValue(s[|s| - 1]) == a.cents
      && (s[0] == '0' ==> |s| == 4)
  {
    var whole := NatToString(a.cents / 100);
    var tail := "." + [DigitChar(a.cents / 10 % 10), DigitChar(a.cents % 10)];
    var s := whole + tail;
    assert s == AmountValueToString(a);
    assert |tail| == 3;
    assert s[..|s| - 3] == whole;
    assert s[|s| - 2] == DigitChar(a.cents / 10 % 10) && s[|s| - 1] == DigitChar(a.cents % 10);
    NatToStringDenotes(a.cents / 100);
    assert s[0] == whole[0];
    if a.cents / 100 == 0 {
      assert whole == "0";
    }
  }

  /** Two Amounts with the same text are the same Amount. */
  lemma AmountValueToStringIsInjective(a: Amount, b: Amount)
    ensures AmountValueToString(a) == AmountValueToString(b) ==> a == b
  {
    AmountValueToStringDenotes(a);
    AmountValueToStringDenotes(b);
  }

  /** Examples: "10.00", "0.05", "465.00". */
  lemma AmountValueToStringExamples()
    ensures AmountValueToString(Amount(1000)) == "10.00"
    ensures AmountValueToString(Amount(5)) == "0.05"
    ensures AmountValueToString(Amount(46500)) == "465.00"
  {
  }

  lemma AmountValueToStringMoreExamples()
    ensures AmountValueToString(Amount(0)) == "0.00"
    ensures AmountValueToString(Amount(3000)) == "30.00"
    ensures AmountValueToString(Amount(45500)) == "455.00"
  {
  }
}
