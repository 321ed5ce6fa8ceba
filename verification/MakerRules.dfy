/** When the makers of arena/bots/market_maker.py buy and sell at all, and how much:
    what a quiet or a moving market, a deviation from the anchor and the inventory do
    to the quotes. */
module MakerRules {
  import opened Wrappers
  import opened Reals
  import opened Orders
  import opened Quotes
  import opened MarketMakers

  // --------------------------------------------------------------- volatility

  /** The largest difference between two of the prices. */
  ghost predicate IsSwing(prices: seq<real>, swing: real) {
    && (forall x, y :: x in prices && y in prices ==> x - y <= swing)
    && exists x, y :: x in prices && y in prices && x - y == swing
  }

  lemma {:induction false} MaxOfIsLargest(prices: seq<real>)
    requires prices != []
    ensures MaxOf(prices) in prices && forall x :: x in prices ==> x <= MaxOf(prices)
    decreases |prices|
  {
    if |prices| > 1 {
      MaxOfIsLargest(prices[1..]);
      assert prices == [prices[0]] + prices[1..];
    }
  }

  lemma {:induction false} MinOfIsSmallest(prices: seq<real>)
    requires prices != []
    ensures MinOf(prices) in prices && forall x :: x in prices ==> x >= MinOf(prices)
    decreases |prices|
  {
    if |prices| > 1 {
      MinOfIsSmallest(prices[1..]);
      assert prices == [prices[0]] + prices[1..];
    }
  }

  lemma SpanIsSwing(prices: seq<real>)
    requires prices != []
    ensures IsSwing(prices, SpanOf(prices))
  {
    MaxOfIsLargest(prices);
    MinOfIsSmallest(prices);
  }

  /** From here on the spread widens, and by how much for a move of one dollar. */
  function Calm(maker: Maker): real
    requires !maker.FlashMaker?
  {
    if maker.AnchorMaker? then 0.05 else if maker.BalancedMaker? then 0.01 else 0.02
  }

  function Rate(maker: Maker): real
    requires !maker.FlashMaker?
  {
    if maker.AnchorMaker? then 5.0 else if maker.BalancedMaker? then 15.0 else 10.0
  }

  function Widening(maker: Maker, loud: real): real
    requires !maker.FlashMaker?
  {
    if loud <= Calm(maker) then 1.0 else Min(maker.volWiden, 1.0 + Rate(maker) * loud)
  }

  function Loudness(maker: Maker, swing: real, jump: real): real {
    if maker.AnchorMaker? then swing else Max(swing, 2.0 * jump)
  }

  /** Two prices make a jump, and the anchor maker waits for a third. */
  function Needed(maker: Maker): nat { if maker.AnchorMaker? then 3 else 2 }

  /** With the swing of the window and the last jump: a calm market is quoted at the
      plain spread, and otherwise it widens in proportion to the swing, up to the
      cap. All but the anchor maker take a jump twice. */
  lemma SpreadFollowsSwing(maker: Maker, history: seq<real>, swing: real, jump: real)
    requires !maker.FlashMaker? && |history| >= Needed(maker)
    requires IsSwing(Recent(history, maker.volLookback), swing)
    requires jump == Abs(history[|history| - 1] - history[|history| - 2])
    ensures VolMultiplier(maker, history) == Widening(maker, Loudness(maker, swing, jump))
  {
    SpanIsSwing(Recent(history, maker.volLookback));
    SameSwing(Recent(history, maker.volLookback), swing, SpanOf(Recent(history, maker.volLookback)));
  }

  lemma ShortHistoryIsCalm(maker: Maker, history: seq<real>)
    requires !maker.FlashMaker? && |history| < Needed(maker)
    ensures VolMultiplier(maker, history) == 1.0
  {
  }

  lemma SameSwing(prices: seq<real>, a: real, b: real)
    requires IsSwing(prices, a) && IsSwing(prices, b)
    ensures a == b
  {
  }

  /** What is recorded: the latest price last, behind the latest of those before it. */
  lemma RememberKeepsLatest(history: seq<real>, price: real, keep: nat)
    requires keep > 0
    ensures var kept := Remember(history, price, keep);
            && |kept| == MinInt(keep, |history| + 1)
            && kept[|kept| - 1] == price
            && kept[..|kept| - 1] == history[|history| + 1 - |kept|..]
  {
  }

  /** How many prices a window spans: the one before the lookback as well, and for the
      fast-anchor maker two. */
  lemma WindowLength(maker: Maker, memory: Memory, sight: Sight)
    requires !maker.FlashMaker?
    ensures var before := HistoryOf(memory, sight.market);
            var now := HistoryOf(Recall(maker, memory, sight), sight.market);
            && |now| == MinInt(|before| + 1, maker.volLookback + if maker.FastAnchorMaker? then 2 else 1)
            && now[|now| - 1] == Recorded(maker, sight)
            && now[..|now| - 1] == before[|before| + 1 - |now|..]
  {
    RememberKeepsLatest(HistoryOf(memory, sight.market), Recorded(maker, sight), Keep(maker));
  }

  /** An average closes the share `alpha` of its gap to the price. */
  lemma EmaClosesGap(averages: map<int, real>, market: int, alpha: real, price: real)
    ensures market !in averages ==> Ema(averages, market, alpha, price) == price
    ensures market in averages ==>
              price - Ema(averages, market, alpha, price) == Times(1.0 - alpha, price - averages[market])
  {
  }

  // -------------------------------------------------------- the buying scales

  lemma Doubled(x: real, y: real)
    requires y > 0.0
    ensures x / (2.0 * y) * 2.0 == x / y
  {
    assert x / y * y == x;
    assert x / (2.0 * y) * (2.0 * y) == x;
    MulOrder(x / (2.0 * y) * 2.0, x / y, y);
  }

  lemma Shares(x: real, y: real)
    requires y > 0.0
    ensures x / y >= 1.0 <==> x >= y
    ensures x / y * 2.0 >= 1.0 <==> 2.0 * x >= y
    ensures x / y * 3.0 >= 1.0 <==> 3.0 * x >= y
  {
    assert Times(x / y, y) == x;
    AtLeast(x / y, 1.0, x, y);
    AtLeast(x / y, 0.5, x, y);
    AtLeast(x / y, 1.0 / 3.0, x, y);
    Parts(y);
  }

  lemma AtLeast(share: real, part: real, x: real, y: real)
    requires y > 0.0 && Times(share, y) == x
    ensures share >= part <==> x >= Times(part, y)
  {
    if share < part { TimesLt(share, part, y); }
    if share >= part { TimesLe(part, share, y); }
  }

  lemma Parts(y: real)
    ensures Times(1.0, y) == y && 2.0 * Times(0.5, y) == y && 3.0 * Times(1.0 / 3.0, y) == y
  {
  }

  lemma MulOrder(a: real, b: real, k: real)
    requires k > 0.0
    ensures a >= b <==> a * k >= b * k
    ensures a == b <==> a * k == b * k
  {
    if a < b { MulLt(a, b, k); }
    if b < a { MulLt(b, a, k); }
  }

  /** Up to a hundred shares purchases are made in full. Beyond that they shrink in
      proportion to the room left below the limit, and never under a tenth. */
  lemma TotalDampens(maxPosition: int, total: int)
    requires maxPosition > 0
    ensures BuyDampen(maxPosition, total)
         == if total <= 100 then 1.0 else Max(0.1, 1.0 - total as real / maxPosition as real)
  {
    if total > 100 {
      assert (maxPosition * 2) as real == 2.0 * maxPosition as real;
      Doubled(total as real, maxPosition as real);
      Shares(total as real, (maxPosition * 2) as real);
    }
  }

  /** How far the price is above the anchor, seen from the outcome a side buys. */
  function Dearness(raw: real, anchor: real, side: Side): real {
    if side.BuyYes? then raw - anchor else anchor - raw
  }

  /** The cheap side is bought in full; the dear side shrinks to nothing at half the
      threshold, not, as the source comments, at the whole. */
  lemma DeviationDampens(threshold: real, raw: real, anchor: real, side: Side)
    requires threshold > 0.0 && side.IsBuy()
    ensures DeviationScale(threshold, raw, anchor, side)
         == if Dearness(raw, anchor, side) <= 0.0 then 1.0
            else Max(0.0, 1.0 - 2.0 * (Dearness(raw, anchor, side) / threshold))
    ensures DeviationScale(threshold, raw, anchor, side) > 0.0 <==> 2.0 * Dearness(raw, anchor, side) < threshold
  {
    Shares(Abs(raw - anchor), threshold);
    assert 0.0 / threshold == 0.0;
  }

  /** The excess held of the outcome a side trades. */
  function Excess(sight: Sight, side: Side): int {
    if side.BuyYes? || side.SellYes? then sight.yes - sight.no else sight.no - sight.yes
  }

  /** From `decayStart` on, purchases of the side held in excess stop at a third of
      the position limit. */
  predicate Overfull(maker: Maker, sight: Sight, side: Side)
    requires maker.BalancedMaker?
  {
    Excess(sight, side) > 0 && Excess(sight, side) >= maker.decayStart && 3 * Excess(sight, side) >= maker.maxPosition
  }

  /** The share of purchases left by an excess of one outcome. */
  function Left(maker: Maker, excess: int): real
    requires maker.BalancedMaker? && maker.maxPosition > 0
  {
    if excess <= 0 || excess < maker.decayStart then 1.0
    else Max(0.0, 1.0 - 3.0 * (excess as real / maker.maxPosition as real))
  }

  lemma LeftExactly(maker: Maker, sight: Sight, side: Side)
    requires maker.BalancedMaker? && maker.maxPosition > 0
    ensures Left(maker, Excess(sight, side)) > 0.0 <==> !Overfull(maker, sight, side)
  {
    Shares(Excess(sight, side) as real, maker.maxPosition as real);
  }

  lemma InventoryDampens(maker: Maker, sight: Sight, side: Side)
    requires maker.BalancedMaker? && Divides(maker, sight) && maker.maxPosition > 0 && side.IsBuy()
    ensures InventoryScale(maker, sight, side)
         == Times(BuyDampen(maker.maxPosition, sight.yes + sight.no), Left(maker, Excess(sight, side)))
  {
    var excess, limit := Excess(sight, side), maker.maxPosition as real;
    var dampen := BuyDampen(maker.maxPosition, sight.yes + sight.no);
    DampenIsPositive(maker.maxPosition, sight.yes + sight.no);
    TimesCommutes(dampen, 1.0);
    TimesSmall(dampen);
    TimesCommutes(dampen, 0.0);
    Shares(AbsInt(sight.yes - sight.no) as real, limit);
    ZeroShare(limit);
    if excess > 0 && excess >= maker.decayStart {
      TimesSign(dampen, 1.0 - NetIntensity(maker, sight) * 3.0);
    }
  }

  lemma ZeroShare(limit: real)
    requires limit > 0.0
    ensures 0.0 / limit == 0.0
  {
  }

  lemma DampenIsPositive(maxPosition: int, total: int)
    requires maxPosition != 0
    ensures BuyDampen(maxPosition, total) > 0.0
  {
  }

  lemma TimesSign(x: real, y: real)
    requires x > 0.0
    ensures Times(x, y) > 0.0 <==> y > 0.0
    ensures Times(x, y) >= 0.0 <==> y >= 0.0
  {
    MulOrder(y, 0.0, x);
    if y > 0.0 { MulLt(0.0, y, x); }
    if y < 0.0 { MulLt(y, 0.0, x); }
  }

  lemma InventoryIsPositive(maker: Maker, sight: Sight, side: Side)
    requires maker.BalancedMaker? && Divides(maker, sight) && maker.maxPosition > 0 && side.IsBuy()
    ensures InventoryScale(maker, sight, side) >= 0.0
    ensures InventoryScale(maker, sight, side) > 0.0 <==> !Overfull(maker, sight, side)
  {
    InventoryDampens(maker, sight, side);
    LeftExactly(maker, sight, side);
    DampenIsPositive(maker.maxPosition, sight.yes + sight.no);
    TimesSign(BuyDampen(maker.maxPosition, sight.yes + sight.no), Left(maker, Excess(sight, side)));
  }

  /** The balanced maker wants a side exactly while it is not half a threshold dearer
      than the anchor and not overfull. */
  lemma WantsExactly(maker: Maker, memory: Memory, raw: real, sight: Sight, side: Side)
    requires maker.BalancedMaker? && Divides(maker, sight)
    requires maker.maxPosition > 0 && maker.deviationThreshold > 0.0 && side.IsBuy()
    ensures BalancedScale(maker, memory, raw, sight, side) > 0.0
       <==> && 2.0 * Dearness(raw, AnchorOf(memory, sight.market), side) < maker.deviationThreshold
            && !Overfull(maker, sight, side)
  {
    var anchor := AnchorOf(memory, sight.market);
    var inventory, deviation := InventoryScale(maker, sight, side),
                                DeviationScale(maker.deviationThreshold, raw, anchor, side);
    InventoryIsPositive(maker, sight, side);
    DeviationDampens(maker.deviationThreshold, raw, anchor, side);
    if inventory > 0.0 {
      TimesSign(inventory, deviation);
    } else {
      NothingTimes(inventory, deviation);
    }
  }

  lemma NothingTimes(x: real, y: real)
    requires x == 0.0
    ensures Times(x, y) == 0.0
  {
  }

  /** Pairs widen the spread once they lock a tenth of the budget, in proportion to
      what they lock, and at three tenths they have doubled it. */
  lemma PairsWiden(maker: Maker, sight: Sight, budget: real, pairs: real)
    requires maker.BalancedMaker? && budget == maker.budgetNanos as real / 1_000_000_000.0
    requires pairs == MinInt(sight.yes, sight.no) as real
    ensures budget <= 0.0 || 10.0 * pairs <= budget ==> PairPenalty(maker, sight) == 1.0
    ensures 0.0 < 3.0 * budget <= 10.0 * pairs ==> PairPenalty(maker, sight) == 2.0
    ensures 0.0 < budget <= 10.0 * pairs <= 3.0 * budget ==>
              Times(PairPenalty(maker, sight) - 0.5, budget) == 5.0 * pairs
  {
    if budget > 0.0 {
      var locked := pairs / budget;
      assert Times(locked, budget) == pairs;
      AtLeast(locked, 0.10, pairs, budget);
      AtLeast(locked, 0.30, pairs, budget);
      Tenths(budget);
      FivefoldTimes(locked, budget);
      if 10.0 * pairs <= budget {
        AtMostTenth(locked, pairs, budget);
      }
    }
  }

  lemma Tenths(y: real)
    ensures 10.0 * Times(0.10, y) == y && 10.0 * Times(0.30, y) == 3.0 * y
  {
  }

  lemma FivefoldTimes(x: real, y: real)
    ensures Times(5.0 * x, y) == 5.0 * Times(x, y)
  {
  }

  lemma AtMostTenth(share: real, x: real, y: real)
    requires y > 0.0 && Times(share, y) == x && 10.0 * x <= y
    ensures share <= 0.10
  {
    Tenths(y);
    if share > 0.10 { TimesLt(0.10, share, y); }
  }
}
