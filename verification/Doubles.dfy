/** Finite IEEE 754 binary64 values, as Python's `float` holds them. */
module Doubles {
  import opened Reals

  const FRACTION_LIMIT: nat := 0x10_0000_0000_0000 // 2^52

  /** Sign, biased exponent and 52 stored fraction bits. */
  datatype RawDouble = RawDouble(negative: bool, exponent: nat, fraction: nat) {

    predicate IsFinite() {
      exponent <= 2046 && fraction < FRACTION_LIMIT
    }

    function Stored(): real {
      fraction as real / FRACTION_LIMIT as real
    }

    /** The leading bit is implied unless the exponent field is zero. */
    function Significand(): real {
      if exponent == 0 then Stored() else 1.0 + Stored()
    }

    function Magnitude(): real {
      Times(Significand(), Pow2(if exponent == 0 then exponent - 1022 else exponent - 1023))
    }

    function Value(): real {
      if negative then -Magnitude() else Magnitude()
    }
  }

  type Double = d: RawDouble | d.IsFinite() witness RawDouble(false, 0, 0)

  /** The test `0 < float(price) <= 1`, read off the stored bits. */
  predicate IsUnitPrice(price: Double) {
    && !price.negative
    && (price.exponent > 0 || price.fraction > 0)
    && (price.exponent < 1023 || (price.exponent == 1023 && price.fraction == 0))
  }

  lemma {:induction false} Pow2Monotone(i: int, j: int)
    requires i <= j
    ensures Pow2(i) <= Pow2(j)
    decreases j - i
  {
    if i < j {
      Pow2Monotone(i + 1, j);
    }
  }

  lemma BelowOne(x: real, scale: real)
    requires 0.0 <= x < 1.0 && scale > 0.0
    ensures 0.0 <= Times(x, scale) < scale
    ensures x == 0.0 <==> Times(x, scale) == 0.0
  {
    TimesSmall(scale);
    TimesLt(x, 1.0, scale);
    if x > 0.0 { TimesLt(0.0, x, scale); }
  }

  lemma AboveOne(x: real, scale: real)
    requires 1.0 <= x < 2.0 && scale > 0.0
    ensures scale <= Times(x, scale) < 2.0 * scale
    ensures x == 1.0 <==> Times(x, scale) == scale
  {
    TimesSmall(scale);
    TimesLt(x, 2.0, scale);
    if x > 1.0 { TimesLt(1.0, x, scale); }
  }

  lemma SignificandBounds(price: Double)
    ensures price.exponent == 0 ==> 0.0 <= price.Significand() < 1.0
    ensures price.exponent > 0 ==> 1.0 <= price.Significand() < 2.0
    ensures price.exponent == 0 ==> (price.Significand() == 0.0 <==> price.fraction == 0)
    ensures price.exponent > 0 ==> (price.Significand() == 1.0 <==> price.fraction == 0)
  {
  }

  lemma Pow2AroundOne(i: int)
    ensures i < 0 ==> 2.0 * Pow2(i) <= 1.0
    ensures i == 0 ==> Pow2(i) == 1.0
    ensures i > 0 ==> Pow2(i) > 1.0
  {
    if i < 0 {
      Pow2Monotone(i, -1);
    } else if i > 0 {
      Pow2Monotone(1, i);
    }
  }

  lemma UnitPriceIsUnit(price: Double)
    ensures IsUnitPrice(price) <==> 0.0 < price.Value() <= 1.0
  {
    var power := if price.exponent == 0 then price.exponent - 1022 else price.exponent - 1023;
    SignificandBounds(price);
    if price.exponent == 0 {
      BelowOne(price.Significand(), Pow2(power));
    } else {
      AboveOne(price.Significand(), Pow2(power));
    }
    Pow2AroundOne(power);
  }
}
