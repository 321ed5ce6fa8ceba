/** At which prices the makers' orders stand: on rungs below and above the middle, which
    move down with the middle as YES shares accumulate. */
module QuoteRungs {
  import opened Wrappers
  import opened Reals
  import opened Orders
  import opened Quotes
  import opened MarketMakers
  import opened QuoteSkew

  /** The half-spread before it is compressed near the edges. */
  function Wanted(maker: Maker, vol: real, sight: Sight): real
    requires !maker.FlashMaker?
  {
    var base := Times(maker.halfSpread, vol);
    if maker.BalancedMaker? then Times(base, PairPenalty(maker, sight)) else base
  }

  /** Quotes stay a cent inside the edges. */
  function Compressed(wanted: real, mid: real): real { Min(wanted, Min(mid, 1.0 - mid) - 0.01) }

  function Step(maker: Maker): real {
    match maker
    case AnchorMaker(_, _, _, _, _, _) => 0.0
    case FlashMaker(_, cents, _, _) => cents as real / 100.0
    case BalancedMaker(ladder, _, _, _, _, _, _, _, _, _, _) => ladder.levelSpacing
    case FastAnchorMaker(ladder, _, _, _, _, _, _, _) => ladder.levelSpacing
  }

  /** How far level `level` stands from the middle. */
  function Distance(maker: Maker, mid: real, vol: real, sight: Sight, level: nat): real {
    (if maker.FlashMaker? then 0.0 else Compressed(Wanted(maker, vol, sight), mid)) + Times(level as real, Step(maker))
  }

  /** The price at which a side quotes on a level. */
  function Rung(maker: Maker, side: Side, mid: real, vol: real, sight: Sight, level: nat): real {
    var own, distance := OutcomeMid(side, mid), Distance(maker, mid, vol, sight, level);
    if !side.IsBuy() then own + distance
    else if maker.FlashMaker? then Max(0.01, own - distance)
    else own - distance
  }

  /** The multiplier of the spread, for the makers that have one. */
  function Vol(maker: Maker, memory: Memory, sight: Sight): real {
    if maker.FlashMaker? then 1.0 else VolOf(maker, memory, sight)
  }

  predicate Stands(maker: Maker, mid: real, vol: real, sight: Sight, level: nat, order: Order) {
    && order.market == sight.market && order.quantity > 0
    && order == AtPrice(order.side, order.market, Rung(maker, order.side, mid, vol, sight, level), order.quantity)
  }

  // ---------------------------------------------------- every order is on one

  lemma {:induction false} LadderBidLevel(config: LadderConfig, rail: Rail, budget: real, scale: real, n: nat,
                                          order: Order)
    returns (level: nat)
    requires order in BuyLadder(config, rail, budget, scale, n).orders
    ensures level < n && order.quantity > 0
    ensures order == AtPrice(rail.side, rail.market, BidAt(config, rail, level), order.quantity)
  {
    var before := BuyLadder(config, rail, budget, scale, n - 1);
    if order in before.orders {
      level := LadderBidLevel(config, rail, budget, scale, n - 1, order);
    } else {
      level := n - 1;
    }
  }

  lemma {:induction false} LadderAskLevel(config: LadderConfig, rail: Rail, held: int, n: nat, order: Order)
    returns (level: nat)
    requires order in SellLadder(config, rail, held, n).orders
    ensures level < n && order.quantity > 0
    ensures order == AtPrice(rail.side, rail.market, AskAt(config, rail, level), order.quantity)
  {
    var before := SellLadder(config, rail, held, n - 1);
    if order in before.orders {
      level := LadderAskLevel(config, rail, held, n - 1, order);
    } else {
      level := n - 1;
    }
  }

  lemma BiddingStands(maker: Maker, sight: Sight, side: Side, mid: real, vol: real, spread: real, budget: real,
                      scale: real, order: Order)
    returns (level: nat)
    requires (maker.BalancedMaker? || maker.FastAnchorMaker?) && side.IsBuy()
    requires spread == Compressed(Wanted(maker, vol, sight), mid)
    requires order in Bidding(maker.ladder, sight, side, mid, spread, budget, scale)
    ensures order.side == side && Stands(maker, mid, vol, sight, level, order)
  {
    var ladder := maker.ladder;
    level := LadderBidLevel(ladder, YesRail(sight, side, mid, spread), budget, scale, ladder.Levels(), order);
  }

  lemma AskingStands(maker: Maker, sight: Sight, side: Side, mid: real, vol: real, spread: real, held: int,
                     order: Order)
    returns (level: nat)
    requires (maker.BalancedMaker? || maker.FastAnchorMaker?) && !side.IsBuy()
    requires spread == Compressed(Wanted(maker, vol, sight), mid)
    requires order in Asking(maker.ladder, sight, side, mid, spread, held)
    ensures order.side == side && Stands(maker, mid, vol, sight, level, order)
  {
    var ladder := maker.ladder;
    level := LadderAskLevel(ladder, YesRail(sight, side, mid, spread), held, ladder.Levels(), order);
  }

  lemma AnchorStands(maker: Maker, mid: real, vol: real, sight: Sight, order: Order)
    requires maker.AnchorMaker? && order in AnchorQuotes(maker, mid, vol, sight)
    ensures Stands(maker, mid, vol, sight, 0, order)
  {
    assert Step(maker) == 0.0 && Times(0.0, 0.0) == 0.0;
  }

  lemma {:induction false} FlashStands(maker: Maker, mid: real, sight: Sight, n: nat, order: Order) returns (level: nat)
    requires maker.FlashMaker? && 0.05 <= mid <= 0.95 && order in FlashQuotes(maker, mid, sight, n)
    ensures 1 <= level <= n && Stands(maker, mid, 1.0, sight, level, order)
  {
    if order in FlashQuotes(maker, mid, sight, n - 1) {
      level := FlashStands(maker, mid, sight, n - 1, order);
    } else {
      level := n;
    }
  }

  lemma FastAnchorStands(maker: Maker, mid: real, vol: real, sight: Sight, balance: real, order: Order)
    returns (level: nat)
    requires maker.FastAnchorMaker? && FastAnchorQuotes(maker, mid, vol, sight, balance).Ok?
    requires order in FastAnchorQuotes(maker, mid, vol, sight, balance).value
    ensures Stands(maker, mid, vol, sight, level, order)
  {
    var spread := Min(Times(maker.halfSpread, vol), EdgeRoom(mid));
    assert spread >= 0.005 && vol != 0.0;
    var scale, budget := BuyDampen(maker.maxPosition, sight.yes + sight.no), SideBudget(maker.ladder, vol, balance);
    if order in Bidding(maker.ladder, sight, BuyYes, mid, spread, budget, scale) {
      level := BiddingStands(maker, sight, BuyYes, mid, vol, spread, budget, scale, order);
    } else if order in Bidding(maker.ladder, sight, BuyNo, mid, spread, budget, scale) {
      level := BiddingStands(maker, sight, BuyNo, mid, vol, spread, budget, scale, order);
    } else if order in ExcessAsks(maker, sight, SellYes, mid, spread, sight.yes) {
      level := AskingStands(maker, sight, SellYes, mid, vol, spread, ExcessQty(maker, sight.yes), order);
    } else {
      level := AskingStands(maker, sight, SellNo, mid, vol, spread, ExcessQty(maker, sight.no), order);
    }
  }

  lemma BalancedStands(maker: Maker, memory: Memory, mid: real, vol: real, sight: Sight, balance: real, order: Order)
    returns (level: nat)
    requires maker.BalancedMaker? && BalancedQuotes(maker, memory, mid, vol, sight, balance).Ok?
    requires order in BalancedQuotes(maker, memory, mid, vol, sight, balance).value
    ensures Stands(maker, mid, vol, sight, level, order)
  {
    var raw := Recorded(maker, sight);
    var spread := Min(Times(Times(maker.halfSpread, vol), PairPenalty(maker, sight)), EdgeRoom(mid));
    assert spread >= 0.005 && vol != 0.0;
    var budget := SideBudget(maker.ladder, vol, balance);
    var net := FractionQty(if sight.yes > sight.no then sight.yes else sight.no, NetSell(maker, sight));
    if order in BalancedBids(maker, memory, raw, vol, sight, BuyYes, mid, spread, balance) {
      level := BiddingStands(maker, sight, BuyYes, mid, vol, spread, budget,
                             BalancedScale(maker, memory, raw, sight, BuyYes), order);
    } else if order in BalancedBids(maker, memory, raw, vol, sight, BuyNo, mid, spread, balance) {
      level := BiddingStands(maker, sight, BuyNo, mid, vol, spread, budget,
                             BalancedScale(maker, memory, raw, sight, BuyNo), order);
    } else if order in NetAsks(maker, memory, raw, sight, mid, spread) {
      level := AskingStands(maker, sight, NetSide(sight), mid, vol, spread, net, order);
    } else if order in UnwindAsks(maker, memory, raw, sight, SellYes, mid, spread) {
      level := AskingStands(maker, sight, SellYes, mid, vol, spread, UnwindQty(maker, sight), order);
    } else {
      level := AskingStands(maker, sight, SellNo, mid, vol, spread, UnwindQty(maker, sight), order);
    }
  }

  /** Every order of every maker stands on a rung: bids below and asks above the middle
      of their outcome, by the spread and whole steps of the ladder. */
  lemma OrdersStandOnRungs(maker: Maker, tanh: real -> real, memory: Memory, sight: Sight, balance: real, order: Order)
    returns (level: nat)
    requires MarketQuotes(maker, tanh, memory, sight, balance).Ok?
    requires order in MarketQuotes(maker, tanh, memory, sight, balance).value
    ensures Stands(maker, QuoteMid(maker, tanh, memory, sight), Vol(maker, memory, sight), sight, level, order)
  {
    var mid, vol := QuoteMid(maker, tanh, memory, sight), Vol(maker, memory, sight);
    if maker.AnchorMaker? {
      level := 0;
      AnchorStands(maker, mid, vol, sight, order);
    } else if maker.FlashMaker? {
      level := FlashStands(maker, mid, sight, MaxInt(0, maker.numLevels), order);
    } else if maker.BalancedMaker? {
      level := BalancedStands(maker, memory, mid, vol, sight, balance, order);
    } else {
      level := FastAnchorStands(maker, mid, vol, sight, balance, order);
    }
  }

  // ------------------------------------------------------- rungs that move down

  lemma CompressionMoves(wanted: real, wider: real, mid: real, lower: real)
    requires lower <= mid && wanted <= wider
    ensures lower - Compressed(wider, lower) <= mid - Compressed(wanted, mid)
    ensures lower + Compressed(wanted, lower) <= mid + Compressed(wanted, mid)
  {
  }

  lemma PenaltyGrows(maker: Maker, sight: Sight, more: nat)
    requires maker.BalancedMaker?
    ensures 1.0 <= PairPenalty(maker, sight) <= PairPenalty(maker, Fuller(sight, more))
  {
    var budget := maker.budgetNanos as real / NANOS_PER_DOLLAR as real;
    var pairs, later := MinInt(sight.yes, sight.no) as real, MinInt(sight.yes + more, sight.no) as real;
    if budget > 0.0 && pairs < later {
      DivideOrder(pairs, later, budget);
    }
  }

  lemma WantedGrows(maker: Maker, vol: real, sight: Sight, more: nat)
    requires !maker.FlashMaker? && Times(maker.halfSpread, vol) >= 0.0
    ensures Wanted(maker, vol, sight) <= Wanted(maker, vol, Fuller(sight, more))
  {
    if maker.BalancedMaker? {
      var base := Times(maker.halfSpread, vol);
      PenaltyGrows(maker, sight, more);
      TimesCommutes(base, PairPenalty(maker, sight));
      TimesCommutes(base, PairPenalty(maker, Fuller(sight, more)));
      TimesLe(PairPenalty(maker, sight), PairPenalty(maker, Fuller(sight, more)), base);
    }
  }

  /** A lower middle and a spread no narrower: no YES bid is higher. */
  lemma BidRungsFall(maker: Maker, mid: real, lower: real, vol: real, sight: Sight, more: nat, level: nat)
    requires lower <= mid && (!maker.FlashMaker? ==> Times(maker.halfSpread, vol) >= 0.0)
    ensures Rung(maker, BuyYes, lower, vol, Fuller(sight, more), level) <= Rung(maker, BuyYes, mid, vol, sight, level)
  {
    if !maker.FlashMaker? {
      WantedGrows(maker, vol, sight, more);
      CompressionMoves(Wanted(maker, vol, sight), Wanted(maker, vol, Fuller(sight, more)), mid, lower);
    }
  }

  /** With the same spread wanted, no YES ask is higher either. */
  lemma AskRungsFall(maker: Maker, mid: real, lower: real, vol: real, sight: Sight, more: nat, level: nat)
    requires !maker.FlashMaker? && lower <= mid && Wanted(maker, vol, Fuller(sight, more)) == Wanted(maker, vol, sight)
    ensures Rung(maker, SellYes, lower, vol, Fuller(sight, more), level) <= Rung(maker, SellYes, mid, vol, sight, level)
  {
    CompressionMoves(Wanted(maker, vol, sight), Wanted(maker, vol, sight), mid, lower);
  }

  /** With more YES held, every YES bid stands no higher than its level did before; and
      so does every YES ask, unless the balanced maker widens its spread for pairs. */
  lemma MoreYesLowersYesQuotes(maker: Maker, tanh: real -> real, memory: Memory, sight: Sight, more: nat,
                               balance: real, order: Order)
    returns (level: nat)
    requires IsIncreasing(tanh) && Leans(maker)
    requires !maker.FlashMaker? ==> Times(maker.halfSpread, VolOf(maker, memory, sight)) >= 0.0
    requires MarketQuotes(maker, tanh, memory, Fuller(sight, more), balance).Ok?
    requires order in MarketQuotes(maker, tanh, memory, Fuller(sight, more), balance).value
    requires || order.side == BuyYes
             || (order.side == SellYes && !maker.FlashMaker?
                 && (maker.BalancedMaker? ==> PairPenalty(maker, Fuller(sight, more)) == PairPenalty(maker, sight)))
    ensures var vol, later := Vol(maker, memory, sight), Fuller(sight, more);
            && Stands(maker, QuoteMid(maker, tanh, memory, later), vol, later, level, order)
            && Rung(maker, order.side, QuoteMid(maker, tanh, memory, later), vol, later, level)
               <= Rung(maker, order.side, QuoteMid(maker, tanh, memory, sight), vol, sight, level)
  {
    var mid, lower := QuoteMid(maker, tanh, memory, sight), QuoteMid(maker, tanh, memory, Fuller(sight, more));
    var vol := Vol(maker, memory, sight);
    MoreYesLowersTheMiddle(maker, tanh, memory, sight, more);
    level := OrdersStandOnRungs(maker, tanh, memory, Fuller(sight, more), balance, order);
    if order.side == BuyYes {
      BidRungsFall(maker, mid, lower, vol, sight, more, level);
    } else {
      AskRungsFall(maker, mid, lower, vol, sight, more, level);
    }
  }

  /** The exception is real: without a skew, YES shares that complete pairs widen the
      spread and raise the asks. */
  lemma PairsRaiseAsks(maker: Maker, tanh: real -> real)
    requires maker.BalancedMaker? && maker.skewFactor == 0.0 && maker.halfSpread == 0.01
    requires maker.budgetNanos == 1_000_000_000_000 && IsOdd(tanh)
    ensures var few, many := Sight(0, 500_000_000, 0, 200), Sight(0, 500_000_000, 200, 200);
            && QuoteMid(maker, tanh, NO_MEMORY, many) == QuoteMid(maker, tanh, NO_MEMORY, few) == 0.5
            && Rung(maker, SellYes, 0.5, 1.0, many, 0) > Rung(maker, SellYes, 0.5, 1.0, few, 0)
  {
    var few, many := Sight(0, 500_000_000, 0, 200), Sight(0, 500_000_000, 200, 200);
    OddAtZero(tanh);
    TimesCommutes(-200.0, 0.0);
    TimesSmall(-200.0);
    assert Lean(maker, tanh, 0.5, -200) == 0.0 by {
      assert Times(-200.0, 0.0) == 0.0;
      TimesCommutes(0.1, 0.0);
      TimesSmall(0.1);
    }
    LeanOfNothing(maker, tanh, 0.5);
    assert PairPenalty(maker, few) == 1.0 && PairPenalty(maker, many) == 1.5;
    assert Times(Times(0.01, 1.0), 1.0) == 0.01 && Times(Times(0.01, 1.0), 1.5) == 0.015;
  }
}
