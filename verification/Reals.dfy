/** Exact real arithmetic behind the source's money and price computations:
    Python's `int()` truncation and the few product facts the proofs need. */
module Reals {
  const NANOS_PER_DOLLAR: int := 1_000_000_000

  function Min(x: real, y: real): real { if x < y then x else y }

  function Max(x: real, y: real): real { if x < y then y else x }

  function Abs(x: real): real { if x < 0.0 then -x else x }

  function MinInt(x: int, y: int): int { if x < y then x else y }

  function MaxInt(x: int, y: int): int { if x < y then y else x }

  function Clamp(x: real, lo: real, hi: real): real { Max(lo, Min(hi, x)) }

  /** 2^i for every integer i. */
  function Pow2(i: int): (p: real)
    ensures p > 0.0
    decreases if i < 0 then -i else i
  {
    if i == 0 then 1.0
    else if i > 0 then 2.0 * Pow2(i - 1)
    else Pow2(i + 1) / 2.0
  }

  /** `int(x)`: truncation toward zero. */
  function Trunc(x: real): (n: int)
    ensures x >= 0.0 ==> 0 <= n && n as real <= x < n as real + 1.0
    ensures x < 0.0 ==> n <= 0 && n as real - 1.0 < x <= n as real
  {
    if x >= 0.0 then x.Floor else -((-x).Floor)
  }

  /** `math.floor(x)`. */
  function Floor(x: real): (n: int)
    ensures n as real <= x < n as real + 1.0
  {
    x.Floor
  }

  lemma MulLe(x: real, y: real, k: real)
    requires x <= y && k >= 0.0
    ensures x * k <= y * k
  {
    assert (y - x) * k >= 0.0;
  }

  lemma MulLt(x: real, y: real, k: real)
    requires x < y && k > 0.0
    ensures x * k < y * k
  {
    assert (y - x) * k > 0.0;
  }

  /** A product the solver handles through the lemmas below. */
  function Times(x: real, y: real): real { x * y }

  lemma TimesLt(x: real, y: real, scale: real)
    requires x < y && scale > 0.0
    ensures Times(x, scale) < Times(y, scale)
  {
    MulLt(x, y, scale);
  }

  lemma TimesSmall(scale: real)
    ensures Times(0.0, scale) == 0.0 && Times(1.0, scale) == scale && Times(2.0, scale) == 2.0 * scale
  {
  }

  lemma TimesCommutes(x: real, y: real)
    ensures Times(x, y) == Times(y, x)
  {
  }

  lemma TimesNegated(x: real, y: real)
    ensures Times(-x, y) == -Times(x, y)
  {
  }

  lemma TimesLe(x: real, y: real, k: real)
    requires x <= y && k >= 0.0
    ensures Times(x, k) <= Times(y, k)
  {
    MulLe(x, y, k);
  }

  // A quantity no larger than the quotient costs no more than the dividend.
  lemma QuotientCost(quantity: real, money: real, price: real)
    requires price > 0.0 && quantity <= money / price
    ensures Times(quantity, price) <= money
  {
    MulLe(quantity, money / price, price);
    assert (money / price) * price == money;
  }

  // And a quantity that costs no more than the dividend is within the quotient.
  lemma CostQuotient(quantity: real, money: real, price: real)
    requires price > 0.0 && Times(quantity, price) <= money
    ensures quantity <= money / price
  {
    assert (money / price) * price == money;
    if quantity > money / price {
      MulLt(money / price, quantity, price);
    }
  }

  // Paying a limit no higher than the price.
  lemma TimesLimit(quantity: real, limit: real, price: real)
    requires quantity >= 0.0 && 0.0 <= limit <= price
    ensures 0.0 <= Times(quantity, limit) <= Times(quantity, price)
  {
    MulLe(limit, price, quantity);
    MulLe(0.0, limit, quantity);
  }

  lemma QuotientSign(x: real, y: real)
    requires y > 0.0
    ensures x >= 0.0 <==> x / y >= 0.0
    ensures x > 0.0 <==> x / y > 0.0
  {
    assert (x / y) * y == x;
    if x / y > 0.0 { MulLt(0.0, x / y, y); }
    if x / y < 0.0 { MulLt(x / y, 0.0, y); }
  }
}
