/** Money.java: a non-negative amount held at scale 2, rounded HALF_UP, as a whole number of cents. */
module MoneyValue {
  import opened Outcomes

  /** Money.SCALE is 2, so every amount is a whole number of cents; `nat` keeps it non-negative. */
  datatype Money = Money(cents: nat)

  datatype MoneyError =
    | NegativeAmount   // "Amount cannot be negative"
    | NegativeResult   // "Result cannot be negative"

  function Pow10(n: nat): (r: nat)
    ensures r >= 1
  {
    if n == 0 then 1 else 10 * Pow10(n - 1)
  }

  /** `cents` is the value unscaled * 10^-scale rounded to two decimals with RoundingMode.HALF_UP:
      exact when no digit is dropped, otherwise the nearest number of cents with halves rounded up. */
  ghost predicate RoundsHalfUpTo(unscaled: nat, scale: int, cents: nat) {
    if scale <= 2 then cents == unscaled * Pow10(2 - scale)
    else
      var d := Pow10(scale - 2);
      (2 * cents - 1) * d <= 2 * unscaled < (2 * cents + 1) * d
  }

  lemma MulLessCancel(a: int, b: int, d: int)
    requires d > 0 && a * d < b * d
    ensures a < b
  {
  }

  /** The HALF_UP characterisation admits a single number of cents. */
  lemma {:induction false} RoundsHalfUpToUnique(unscaled: nat, scale: int, c1: nat, c2: nat)
    requires RoundsHalfUpTo(unscaled, scale, c1) && RoundsHalfUpTo(unscaled, scale, c2)
    ensures c1 == c2
  {
    if scale > 2 {
      var d := Pow10(scale - 2);
      MulLessCancel(2 * c1 - 1, 2 * c2 + 1, d);
      MulLessCancel(2 * c2 - 1, 2 * c1 + 1, d);
    }
  }

  /** The quotient of `unscaled` by `d`, plus one when the remainder is at least half of `d`. */
  function HalfUpQuotient(unscaled: nat, d: nat): nat
    requires d >= 1
  {
    if 2 * (unscaled % d) >= d then unscaled / d + 1 else unscaled / d
  }

  /** Rounding the quotient up when the remainder is at least half of `d`, and down otherwise, lands
      within half a step of the exact value. */
  lemma HalfUpBounds(unscaled: nat, d: nat)
    requires d >= 1
    ensures (2 * HalfUpQuotient(unscaled, d) - 1) * d <= 2 * unscaled < (2 * HalfUpQuotient(unscaled, d) + 1) * d
  {
    var q, rem := unscaled / d, unscaled % d;
    assert unscaled == q * d + rem;
    if 2 * rem >= d {
      assert (2 * (q + 1) - 1) * d == 2 * (q * d) + d;
      assert (2 * (q + 1) + 1) * d == 2 * (q * d) + 3 * d;
    } else {
      assert (2 * q - 1) * d == 2 * (q * d) - d;
      assert (2 * q + 1) * d == 2 * (q * d) + d;
    }
  }

  /** BigDecimal.setScale(2, HALF_UP) on a non-negative value. */
  function RoundHalfUp(unscaled: nat, scale: int): (cents: nat)
    ensures RoundsHalfUpTo(unscaled, scale, cents)
  {
    if scale <= 2 then unscaled * Pow10(2 - scale)
    else
      HalfUpBounds(unscaled, Pow10(scale - 2));
      HalfUpQuotient(unscaled, Pow10(scale - 2))
  }

  /** `Money.of(BigDecimal)` through the private constructor, for the BigDecimal unscaled * 10^-scale:
      a negative amount is rejected, anything else is stored rounded HALF_UP to two decimals. */
  function Of(unscaled: int, scale: int): (r: Result<Money, MoneyError>)
    ensures r.Err? <==> unscaled < 0
    ensures r.Err? ==> r.error == NegativeAmount
    ensures r.Ok? ==> RoundsHalfUpTo(unscaled, scale, r.value.cents)
  {
    if unscaled < 0 then Err(NegativeAmount) else Ok(Money(RoundHalfUp(unscaled, scale)))
  }

  /** `Money.zero()`: BigDecimal.ZERO through the constructor. */
  function Zero(): (r: Money)
    ensures r.cents == 0
  {
    Of(0, 0).value
  }

  /** `add`: the exact sum, re-validated by the constructor, which never rejects it. */
  function Add(a: Money, b: Money): (r: Money)
    ensures r.cents == a.cents + b.cents
  {
    Of(a.cents + b.cents, 2).value
  }

  /** `subtract`: rejected exactly when `other` exceeds `this`, otherwise the exact difference. */
  function Subtract(a: Money, b: Money): (r: Result<Money, MoneyError>)
    ensures r.Err? <==> b.cents > a.cents
    ensures r.Err? ==> r.error == NegativeResult
    ensures r.Ok? ==> r.value.cents + b.cents == a.cents
  {
    var diff := a.cents - b.cents;
    if diff < 0 then Err(NegativeResult) else Of(diff, 2)
  }

  /** `multiply` by an integral factor (the only use in the core is by an item quantity): the product
      goes through the constructor, which rejects it exactly when it is negative. */
  function Multiply(m: Money, n: int): (r: Result<Money, MoneyError>)
    ensures r.Err? <==> m.cents * n < 0
    ensures r.Ok? ==> r.value.cents == m.cents * n
  {
    Of(m.cents * n, 2)
  }

  /** `equals`: compares the stored BigDecimals, which all carry scale 2, so it is equality of amounts
      and coincides with equality of the model's values. */
  predicate Equals(a: Money, b: Money)
    ensures Equals(a, b) <==> a == b
  {
    a.cents == b.cents
  }

  lemma ZeroIsAddIdentity(m: Money)
    ensures Add(Zero(), m) == m && Add(m, Zero()) == m
  {
  }

  lemma AddCommutativeAssociative(a: Money, b: Money, c: Money)
    ensures Add(a, b) == Add(b, a)
    ensures Add(Add(a, b), c) == Add(a, Add(b, c))
  {
  }

  /** Subtracting what was added gives the original back. */
  lemma SubtractUndoesAdd(a: Money, b: Money)
    ensures Subtract(Add(a, b), b) == Ok(a)
  {
  }

  /** Multiplying by a positive quantity never fails and scales the amount. */
  lemma MultiplyByPositive(m: Money, n: int)
    requires n > 0
    ensures Multiply(m, n).Ok? && Multiply(m, n).value.cents == m.cents * n
  {
  }

  /** 2.005 rounds HALF_UP to 2.01; 2.0 (as `Money.of(2.0)` builds it) is 200 cents. */
  lemma RoundingExamples()
    ensures Of(2005, 3) == Ok(Money(201))
    ensures Of(2004, 3) == Ok(Money(200))
    ensures Of(20, 1) == Ok(Money(200))
    ensures Of(-1, 3) == Err(NegativeAmount)
  {
    RoundsHalfUpToUnique(2005, 3, Of(2005, 3).value.cents, 201);
    RoundsHalfUpToUnique(2004, 3, Of(2004, 3).value.cents, 200);
  }
}
