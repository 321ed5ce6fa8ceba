/** What the sizing strategies decide, in terms of the quantities they are named after:
    the growth-optimal stake, the fixed bet, the stop-loss, the decay of a fair value,
    and the orders that move a position. */
module SizingRules {
  import opened Wrappers
  import opened Reals
  import opened Orders
  import opened Strategy

  // ------------------------------------------------------ what a budget buys

  /** The most shares at `price` that `budget` pays for. */
  ghost predicate IsLargest(n: int, price: real, budget: real) {
    && n >= 0
    && (n > 0 ==> Times(n as real, price) <= budget)
    && forall m: int {:trigger Times(m as real, price)} :: m >= 0 && Times(m as real, price) <= budget ==> m <= n
  }

  lemma TruncIsLargest(budget: real, price: real)
    requires price > 0.0
    ensures IsLargest(MaxInt(Trunc(budget / price), 0), price, budget)
  {
    var n := MaxInt(Trunc(budget / price), 0);
    if n > 0 {
      QuotientCost(n as real, budget, price);
    }
    forall m: int {:trigger Times(m as real, price)} | m >= 0 && Times(m as real, price) <= budget
      ensures m <= n
    {
      CostQuotient(m as real, budget, price);
    }
  }

  // ------------------------------------------------------------------ Kelly

  /** The slope of the expected logarithmic growth when the fraction `stake` of the
      wealth buys an outcome at `price` that has chance `chance`, times a positive
      factor: a win leaves 1 + stake * (1 - price) / price, a loss 1 - stake. */
  function Slope(chance: real, price: real, stake: real): real {
    chance * (1.0 - price) * (1.0 - stake) - (1.0 - chance) * (price + stake * (1.0 - price))
  }

  /** It falls as the stake grows, at a constant rate, and vanishes at one stake. */
  lemma SlopeFalls(chance: real, price: real, stake: real)
    ensures Slope(chance, price, stake) == (chance - price) - stake * (1.0 - price)
  {
    assert chance * (1.0 - price) * (1.0 - stake) == chance - chance * price - (chance * (1.0 - price)) * stake;
    assert (1.0 - chance) * (price + stake * (1.0 - price))
        == price - chance * price + ((1.0 - chance) * (1.0 - price)) * stake;
    assert (chance * (1.0 - price)) * stake + ((1.0 - chance) * (1.0 - price)) * stake == (1.0 - price) * stake;
  }

  /** The stake of greatest growth. */
  ghost predicate IsOptimal(chance: real, price: real, stake: real) {
    && Slope(chance, price, stake) == 0.0
    && forall other :: (other < stake ==> Slope(chance, price, other) > 0.0)
                    && (other > stake ==> Slope(chance, price, other) < 0.0)
  }

  lemma OptimalStake(chance: real, price: real)
    requires price < 1.0
    ensures IsOptimal(chance, price, (chance - price) / (1.0 - price))
  {
    var stake := (chance - price) / (1.0 - price);
    assert stake * (1.0 - price) == chance - price;
    SlopeFalls(chance, price, stake);
    forall other
      ensures (other < stake ==> Slope(chance, price, other) > 0.0)
           && (other > stake ==> Slope(chance, price, other) < 0.0)
    {
      SlopeFalls(chance, price, other);
      if other < stake {
        MulLt(other, stake, 1.0 - price);
      } else if other > stake {
        MulLt(stake, other, 1.0 - price);
      }
    }
  }

  lemma OptimalIsUnique(chance: real, price: real, stake: real)
    requires price < 1.0 && Slope(chance, price, stake) == 0.0
    ensures stake == (chance - price) / (1.0 - price)
  {
    OptimalStake(chance, price);
    var best := (chance - price) / (1.0 - price);
    assert !(stake < best) && !(stake > best);
  }

  /** The part of the optimal stake that is bet. */
  function Budget(k: Kelly, stake: real, shrink: real, value: real): real {
    Min(Times(Times(Times(stake, k.fraction), shrink), value), Times(k.maxPositionFrac, value))
  }

  lemma SharesAreLargest(k: Kelly, chance: real, price: real, value: real, shrink: real, stake: real)
    requires 0.0 < price < 1.0 && IsOptimal(chance, price, stake)
    ensures IsLargest(KellyShares(k, chance - price, price, 1.0 - price, value, shrink), price,
                      Budget(k, stake, shrink, value))
  {
    OptimalIsUnique(chance, price, stake);
    TruncIsLargest(Budget(k, stake, shrink, value), price);
  }

  /** Kelly with an edge on YES: the most YES shares that the shrunk fraction of the
      growth-optimal stake pays for, up to the position cap, and no NO. */
  lemma KellyBetsOnYes(k: Kelly, fairValue: real, price: real, value: real, yes: int, no: int,
                       confidence: Option<real>, factor: real, stake: real)
    requires !IsResolved(price) && fairValue > price
    requires fairValue - price >= k.exitEdge && fairValue - price >= k.minEdge
    requires IsOptimal(fairValue, price, stake)
    ensures var target := KellyTarget(k, fairValue, price, value, yes, no, confidence, factor);
            && target.1 == 0
            && IsLargest(target.0, price, Budget(k, stake, Shrink(confidence, factor), value))
  {
    SharesAreLargest(k, fairValue, price, value, Shrink(confidence, factor), stake);
  }

  /** And on NO, which pays with the chance and at the price of the other outcome. */
  lemma KellyBetsOnNo(k: Kelly, fairValue: real, price: real, value: real, yes: int, no: int,
                      confidence: Option<real>, factor: real, stake: real)
    requires !IsResolved(price) && fairValue <= price
    requires price - fairValue >= k.exitEdge && price - fairValue >= k.minEdge
    requires IsOptimal(1.0 - fairValue, 1.0 - price, stake)
    ensures var target := KellyTarget(k, fairValue, price, value, yes, no, confidence, factor);
            && target.0 == 0
            && IsLargest(target.1, 1.0 - price, Budget(k, stake, Shrink(confidence, factor), value))
  {
    assert (1.0 - fairValue) - (1.0 - price) == Abs(fairValue - price) && 1.0 - (1.0 - price) == price;
    SharesAreLargest(k, 1.0 - fairValue, 1.0 - price, value, Shrink(confidence, factor), stake);
  }

  /** The bet is shrunk to nothing exactly for a worthless estimate, and not at all
      exactly for a fresh one held with full confidence. */
  lemma ShrinkRange(confidence: Option<real>, factor: real)
    ensures 0.0 <= Shrink(confidence, factor) <= 1.0
    ensures Shrink(confidence, factor) == 1.0 <==> factor >= 1.0 && (confidence.None? || confidence.value >= 1.0)
    ensures Shrink(confidence, factor) == 0.0 <==> factor <= 0.0 || (confidence.Some? && confidence.value <= 0.0)
  {
    if confidence.Some? {
      var x, y := Clamp01(factor), Clamp01(confidence.value);
      UnitProduct(x, y);
    }
  }

  lemma UnitProduct(x: real, y: real)
    requires 0.0 <= x <= 1.0 && 0.0 <= y <= 1.0
    ensures 0.0 <= Times(x, y) <= Min(x, y)
    ensures Times(x, y) == 1.0 <==> x == 1.0 && y == 1.0
    ensures Times(x, y) == 0.0 <==> x == 0.0 || y == 0.0
  {
    TimesCommutes(x, y);
    TimesSmall(x);
    TimesSmall(y);
    TimesLe(0.0, x, y);
    TimesLe(x, 1.0, y);
    TimesLe(y, 1.0, x);
    if x > 0.0 && y > 0.0 {
      TimesLt(0.0, x, y);
    }
  }

  /** Confidence and freshness shrink alike and independently. */
  lemma ShrinkMultiplies(confidence: real, factor: real)
    requires 0.0 <= confidence <= 1.0 && 0.0 <= factor <= 1.0
    ensures Shrink(Some(confidence), factor) == confidence * factor == Shrink(Some(factor), confidence)
    ensures Shrink(None, factor) == factor
  {
    UnitProduct(factor, confidence);
    UnitProduct(confidence, factor);
  }

  // -------------------------------------------------------- what is ordered

  /** The orders a rebalance places for one market. */
  function Placed(market: int, target: (int, int), yes: int, no: int, fairValue: real, price: real, cash: real)
    : seq<Order>
  {
    PositionOrders(market, target.0, target.1, yes, no, fairValue, price, cash)
  }

  /** Everything held, offered at the price of its outcome. */
  predicate SellsAll(orders: seq<Order>, market: int, price: real, yes: int, no: int) {
    orders == (if yes > 0 then [AtPrice(SellYes, market, price, yes)] else [])
            + (if no > 0 then [AtPrice(SellNo, market, 1.0 - price, no)] else [])
  }

  lemma ExitsSellAll(market: int, yes: int, no: int, fairValue: real, price: real, cash: real)
    requires yes >= 0 && no >= 0
    ensures SellsAll(Placed(market, (0, 0), yes, no, fairValue, price, cash), market, price, yes, no)
  {
    var a, b := ExitOrders(SellYes, market, price, 0, yes), ExitOrders(SellNo, market, 1.0 - price, 0, no);
    assert a + b + [] + [] + [] + [] == a + b;
  }

  lemma HoldsOrderNothing(market: int, yes: int, no: int, fairValue: real, price: real, cash: real)
    requires yes >= 0 && no >= 0
    ensures Placed(market, (yes, no), yes, no, fairValue, price, cash) == []
  {
  }

  /** Below the exit threshold, or once resolved, Kelly sells everything; from there up
      to the entry threshold it orders nothing. */
  lemma KellyThresholds(k: Kelly, fairValue: real, price: real, value: real, yes: int, no: int,
                        confidence: Option<real>, factor: real, market: int, cash: real)
    requires yes >= 0 && no >= 0
    ensures var target := KellyTarget(k, fairValue, price, value, yes, no, confidence, factor);
            var orders := Placed(market, target, yes, no, fairValue, price, cash);
            var resolved, gap := price <= 0.05 || price >= 0.95, Abs(fairValue - price);
            && (resolved || gap < k.exitEdge ==> SellsAll(orders, market, price, yes, no))
            && (!resolved && k.exitEdge <= gap < k.minEdge ==> orders == [])
  {
    ExitsSellAll(market, yes, no, fairValue, price, cash);
    HoldsOrderNothing(market, yes, no, fairValue, price, cash);
  }

  /** The price of the outcome a side trades. */
  function Own(side: Side, yesPrice: real): real { if side.BuyYes? || side.SellYes? then yesPrice else 1.0 - yesPrice }

  /** Sales are offered at the market, purchases up to the fair value, each to within
      the nano that truncation takes off. */
  lemma LimitsAreFair(market: int, target: (int, int), yes: int, no: int, fairValue: real, price: real, cash: real,
                      order: Order)
    requires 0.0 <= price <= 1.0 && 0.0 <= fairValue <= 1.0
    requires order in Placed(market, target, yes, no, fairValue, price, cash)
    ensures var due := Own(order.side, if order.side.IsBuy() then fairValue else price);
            order.market == market && order.Limit() <= due < order.Limit() + 0.000000001
  {
    var due := Own(order.side, if order.side.IsBuy() then fairValue else price);
    assert order == AtPrice(order.side, market, due, order.quantity);
    AtPriceBounds(order.side, market, due, order.quantity);
  }

  /** A purchase is the most the cash pays for at the limit, up to what is missing. */
  lemma PurchasesAreLargest(side: Side, market: int, limit: real, target: int, current: int, cash: real)
    requires side.IsBuy() && limit > 0.0
    ensures var orders := BuyOrders(side, market, limit, target, current, cash);
            var bought := if orders == [] then 0 else orders[0].quantity;
            && |orders| <= 1
            && (target <= current ==> bought == 0)
            && (target > current && cash >= 0.0 ==>
                  && 0 <= bought <= target - current && Times(bought as real, limit) <= cash
                  && (bought < target - current ==> Times((bought + 1) as real, limit) > cash))
  {
    QuotientSign(cash, limit);
    var n := Trunc(cash / limit);
    if cash >= 0.0 {
      QuotientCost(n as real, cash, limit);
      QuotientCost(MinInt(n, MaxInt(0, target - current)) as real, cash, limit);
      if Times((n + 1) as real, limit) <= cash {
        CostQuotient((n + 1) as real, cash, limit);
      }
    }
  }

  // ------------------------------------------------------------------- Flat

  /** What a holding bought at `entry` has lost, as a part of what was paid for it. */
  predicate HasLost(paid: real, now: real, part: real) { paid > 0.0 && paid - now >= Times(part, paid) }

  lemma LossMeans(flat: Flat, entry: real, price: real)
    ensures AdverseYes(flat, entry, price) <==> HasLost(entry, price, flat.exitAdverseFrac)
    ensures AdverseNo(flat, entry, price) <==> HasLost(1.0 - entry, 1.0 - price, flat.exitAdverseFrac)
  {
    LossQuotient(entry, price, flat.exitAdverseFrac);
    LossQuotient(1.0 - entry, 1.0 - price, flat.exitAdverseFrac);
    assert (1.0 - entry) - (1.0 - price) == price - entry;
  }

  lemma LossQuotient(paid: real, now: real, part: real)
    ensures paid > 0.0 ==> ((paid - now) / paid >= part <==> paid - now >= Times(part, paid))
  {
    if paid > 0.0 {
      if part <= (paid - now) / paid {
        QuotientCost(part, paid - now, paid);
      }
      if Times(part, paid) <= paid - now {
        CostQuotient(part, paid - now, paid);
      }
    }
  }

  /** When Flat closes a holding outright: it has lost the stop-loss part of what was
      paid for it, or the edge has turned against it by more than the threshold. */
  predicate Closes(flat: Flat, entry: real, fairValue: real, price: real, yes: int, no: int) {
    || (yes > 0 && (HasLost(entry, price, flat.exitAdverseFrac) || price - fairValue > flat.minEdge))
    || (no > 0 && (HasLost(1.0 - entry, 1.0 - price, flat.exitAdverseFrac) || fairValue - price > flat.minEdge))
  }

  /** Flat, case by case. */
  lemma FlatDecides(flat: Flat, stored: Option<real>, fairValue: real, price: real, yes: int, no: int)
    requires yes >= 0 && no >= 0
    ensures var (target, kept) := FlatTarget(flat, stored, fairValue, price, yes, no);
            var entry := if stored.Some? then stored.value else price;
            var holding := yes > 0 || no > 0;
            if price <= 0.05 || price >= 0.95 || Closes(flat, entry, fairValue, price, yes, no)
            then target == (0, 0) && kept == None
            else
              && kept == (if holding then Some(entry) else None)
              && (Abs(fairValue - price) < flat.minEdge ==> target == (yes, no))
              && (Abs(fairValue - price) >= flat.minEdge ==>
                    var up := fairValue > price;
                    var own, held := if up then price else 1.0 - price, if up then yes else no;
                    var mine, other := if up then target.0 else target.1, if up then target.1 else target.0;
                    && other == 0
                    && (if held > 0 && fairValue != price then mine == held else IsLargest(mine, own, flat.betDollars)))
  {
    var entry := if stored.Some? then stored.value else price;
    LossMeans(flat, entry, price);
    if !IsResolved(price) {
      TruncIsLargest(flat.betDollars, price);
      TruncIsLargest(flat.betDollars, 1.0 - price);
    }
  }

  // -------------------------------------------------------------- freshness

  /** The powers of one half: never negative, at most one, never rising. */
  ghost predicate IsDecay(decay: real -> real) {
    && (forall x :: x >= 0.0 ==> 0.0 <= decay(x) <= 1.0)
    && (forall x, y :: 0.0 <= x <= y ==> decay(y) <= decay(x))
  }

  predicate Between(x: real, a: real, b: real) { Min(a, b) <= x <= Max(a, b) }

  /** An estimate counts in full up to its time to live, not at all from the hard
      expiry on, and in between lies between the market and itself. */
  lemma FreshnessStages(raw: real, price: real, age: real, config: Freshness, decay: real -> real)
    requires config.Valid() && IsDecay(decay)
    ensures var view := EffectiveFairValue(raw, price, age, config, decay);
            && view.raw == Clamp01(raw) && view.age == Max(0.0, age) && 0.0 <= view.factor <= 1.0
            && (view.effective.None? <==> Max(0.0, age) >= config.hardExpiry)
            && (age <= config.ttl && view.effective.Some? ==>
                  view.effective == Some(Clamp01(raw)) && view.factor == 1.0)
            && (view.effective.Some? ==> Between(view.effective.value, Clamp01(price), Clamp01(raw)))
  {
    var r, m, a := Clamp01(raw), Clamp01(price), Max(0.0, age);
    if config.ttl < a < config.hardExpiry {
      var x := (a - config.ttl) / config.halfLife;
      QuotientSign(a - config.ttl, config.halfLife);
      PartWay(m, r, decay(x));
    }
  }

  lemma ScaledGap(gap: real, near: real, far: real)
    requires gap >= 0.0 && 0.0 <= near <= far <= 1.0
    ensures 0.0 <= Times(gap, near) <= Times(gap, far) <= gap
    ensures Times(-gap, near) == -Times(gap, near) && Times(-gap, far) == -Times(gap, far)
  {
    TimesCommutes(gap, near);
    TimesCommutes(gap, far);
    TimesSmall(gap);
    TimesLe(0.0, near, gap);
    TimesLe(near, far, gap);
    TimesLe(far, 1.0, gap);
    TimesNegated(gap, near);
    TimesNegated(gap, far);
  }

  lemma PartWay(from: real, to: real, part: real)
    requires 0.0 <= part <= 1.0
    ensures Between(from + Times(to - from, part), from, to)
  {
    ScaledGap(Abs(to - from), part, part);
    if from > to {
      assert to - from == -(from - to);
    }
  }

  /** The older, the nearer to the market and the smaller the bet. */
  lemma FreshnessFades(raw: real, price: real, age: real, later: real, config: Freshness, decay: real -> real)
    requires config.Valid() && IsDecay(decay) && age <= later
    ensures var before := EffectiveFairValue(raw, price, age, config, decay);
            var after := EffectiveFairValue(raw, price, later, config, decay);
            && after.factor <= before.factor
            && (after.effective.Some? ==>
                  && before.effective.Some?
                  && Between(after.effective.value, Clamp01(price), before.effective.value))
  {
    FreshnessStages(raw, price, age, config, decay);
    FreshnessStages(raw, price, later, config, decay);
    var r, m, a, b := Clamp01(raw), Clamp01(price), Max(0.0, age), Max(0.0, later);
    if config.ttl < a && b < config.hardExpiry {
      var x, y := (a - config.ttl) / config.halfLife, (b - config.ttl) / config.halfLife;
      QuotientSign(a - config.ttl, config.halfLife);
      QuotientSign(b - a, config.halfLife);
      assert y - x == (b - a) / config.halfLife;
      PartWay(m, r, decay(x));
      PartWay(m, r, decay(y));
      Nearer(m, r, decay(x), decay(y));
    }
  }

  lemma Nearer(from: real, to: real, far: real, near: real)
    requires 0.0 <= near <= far <= 1.0
    ensures Between(from + Times(to - from, near), from, from + Times(to - from, far))
  {
    ScaledGap(Abs(to - from), near, far);
    if from > to {
      assert to - from == -(from - to);
    }
  }

  /** The edge left after one half-life past the time to live is half of it. */
  lemma HalfLifeHalves(raw: real, price: real, config: Freshness, decay: real -> real)
    requires config.Valid() && 0.0 <= raw <= 1.0 && 0.0 <= price <= 1.0 && decay(1.0) == 0.5
    requires config.ttl + config.halfLife < config.hardExpiry
    ensures var view := EffectiveFairValue(raw, price, config.ttl + config.halfLife, config, decay);
            view.effective.Some? && view.effective.value - price == (raw - price) / 2.0
  {
    assert (config.ttl + config.halfLife - config.ttl) / config.halfLife == 1.0;
  }
}
