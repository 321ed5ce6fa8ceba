/** The rules of MakerRules carried to the orders of arena/bots/market_maker.py: which
    sides a quote holds, and how much of each, rung by rung. */
module MakerOrders {
  import opened Wrappers
  import opened Reals
  import opened Orders
  import opened Quotes
  import opened MarketMakers
  import opened QuoteRungs
  import opened MakerRules
  import opened SizingRules

  // ------------------------------------------------------------------- rungs

  /** The share of a side placed on a level, from the inside out. */
  function Weight(level: nat): real {
    match level
    case 0 => 0.50
    case 1 => 0.30
    case _ => 0.20
  }

  /** What a level may spend of `side` dollars. */
  function Part(side: real, scale: real, level: nat): real { side * Weight(level) * scale }

  /** One rung further up a ladder of bids: as many shares as the money pays for, and
      no order where it does not pay for one. */
  ghost predicate BidRung(before: Bids, now: Bids, rail: Rail, bid: real, money: real) {
    if money < bid then now == before
    else
      && |now.orders| == |before.orders| + 1 && before.orders <= now.orders
      && var order := now.orders[|before.orders|];
         && order.side == rail.side && order.market == rail.market
         && order.Limit() <= bid < order.Limit() + 0.000000001
         && IsLargest(order.quantity, bid, money)
         && now == Bids(now.orders, before.spent + Times(order.quantity as real, bid), false)
  }

  lemma RungIsLargest(before: Bids, rail: Rail, bid: real, money: real)
    requires !before.done && bid > 0.0
    ensures var quantity := Trunc(money / bid);
            BidRung(before,
                    if quantity > 0
                    then Bids(before.orders + [AtPrice(rail.side, rail.market, bid, quantity)],
                              before.spent + Times(quantity as real, bid), false)
                    else before,
                    rail, bid, money)
  {
    TruncIsLargest(money, bid);
    AtPriceBounds(rail.side, rail.market, bid, Trunc(money / bid));
    OneFits(money, bid);
  }

  lemma PartIsDollars(config: LadderConfig, scale: real, level: nat)
    ensures Dollars(config, scale, level) == Part(config.maxPerSide, scale, level)
  {
  }

  ghost predicate NextBids(before: Bids, now: Bids, rail: Rail, budget: real, bid: real, part: real) {
    if before.done || bid < 0.01 || budget <= before.spent then now == before.(done := true)
    else BidRung(before, now, rail, bid, Min(part, budget - before.spent))
  }

  /** Each level of bids takes its part of the side's money, while some is left; the
      ladder ends below a cent or without money. */
  lemma BidTakesPart(config: LadderConfig, rail: Rail, budget: real, scale: real, level: nat, before: Bids)
    ensures NextBids(before, Bid(config, rail, budget, scale, level, before), rail, budget,
                     rail.mid - rail.spread - Times(level as real, config.levelSpacing),
                     Part(config.maxPerSide, scale, level))
  {
    var bid, part := BidAt(config, rail, level), Part(config.maxPerSide, scale, level);
    PartIsDollars(config, scale, level);
    if bid >= 0.01 && !before.done {
      RungIsLargest(before, rail, bid, Min(part, budget - before.spent));
    }
  }

  lemma OneFits(money: real, price: real)
    requires price > 0.0
    ensures money >= price <==> Trunc(money / price) >= 1
  {
    assert Times(money / price, price) == money;
    AtLeast(money / price, 1.0, money, price);
    TimesSmall(price);
  }

  ghost predicate AskRung(before: Asks, now: Asks, rail: Rail, ask: real, part: real) {
    && |now.orders| == |before.orders| + 1 && before.orders <= now.orders
    && var order := now.orders[|before.orders|];
       && order.side == rail.side && order.market == rail.market
       && (ask >= 0.0 ==> order.Limit() <= ask < order.Limit() + 0.000000001)
       && 1 <= order.quantity <= before.remaining
       && (order.quantity > 1 ==> order.quantity as real <= part)
       && (order.quantity < before.remaining ==> order.quantity as real + 1.0 > part)
       && now == Asks(now.orders, before.remaining - order.quantity, false)
  }

  lemma AskRungHolds(before: Asks, rail: Rail, ask: real, part: real)
    requires before.remaining > 0 && part >= 0.0
    ensures var quantity := MaxInt(1, MinInt(Trunc(part), before.remaining));
            AskRung(before,
                    Asks(before.orders + [AtPrice(rail.side, rail.market, ask, quantity)],
                         before.remaining - quantity, false),
                    rail, ask, part)
  {
    if ask >= 0.0 {
      AtPriceBounds(rail.side, rail.market, ask, MaxInt(1, MinInt(Trunc(part), before.remaining)));
    }
  }

  ghost predicate NextAsks(before: Asks, now: Asks, rail: Rail, ask: real, part: real) {
    if before.done || ask > 0.99 || before.remaining <= 0 then now == before.(done := true)
    else AskRung(before, now, rail, ask, part)
  }

  lemma PartOfHeld(held: int, level: nat)
    requires held >= 0
    ensures Times(held as real, Weight(level)) == Times(held as real, Taper(level)) >= 0.0
  {
    TimesLe(0.0, held as real, Weight(level));
    TimesSmall(Weight(level));
  }

  /** Each level of asks takes its part of the shares on offer rounded down, but at
      least one and at most what is left; the ladder ends above ninety-nine cents. */
  lemma AskTakesPart(config: LadderConfig, rail: Rail, held: int, level: nat, before: Asks)
    requires held >= 0
    ensures NextAsks(before, Ask(config, rail, held, level, before), rail,
                     rail.mid + rail.spread + Times(level as real, config.levelSpacing),
                     Times(held as real, Weight(level)))
  {
    PartOfHeld(held, level);
    if before.remaining > 0 {
      AskRungHolds(before, rail, AskAt(config, rail, level), Times(held as real, Weight(level)));
    }
  }

  lemma {:induction false} BidsGrow(config: LadderConfig, rail: Rail, budget: real, scale: real, n: nat)
    requires n >= 1
    ensures BuyLadder(config, rail, budget, scale, 1).orders <= BuyLadder(config, rail, budget, scale, n).orders
  {
    if n > 1 {
      BidsGrow(config, rail, budget, scale, n - 1);
    }
  }

  lemma {:induction false} AsksGrow(config: LadderConfig, rail: Rail, held: int, n: nat)
    requires n >= 1
    ensures SellLadder(config, rail, held, 1).orders <= SellLadder(config, rail, held, n).orders
  {
    if n > 1 {
      AsksGrow(config, rail, held, n - 1);
    }
  }

  // --------------------------------------------------------- some order there

  predicate Has(orders: seq<Order>, side: Side) { exists order :: order in orders && order.side == side }

  /** The innermost bid is placed where one share of it is paid for. */
  predicate TopBidFits(config: LadderConfig, own: real, spread: real, budget: real, scale: real) {
    && config.numLevels >= 1
    && own - spread >= 0.01
    && own - spread <= Min(Part(config.maxPerSide, scale, 0), budget)
  }

  predicate TopAskFits(config: LadderConfig, own: real, spread: real) {
    config.numLevels >= 1 && own + spread <= 0.99
  }

  lemma BiddingHas(config: LadderConfig, sight: Sight, side: Side, mid: real, spread: real, budget: real, scale: real)
    requires TopBidFits(config, OutcomeMid(side, mid), spread, budget, scale)
    ensures Has(Bidding(config, sight, side, mid, spread, budget, scale), side)
  {
    var rail := YesRail(sight, side, mid, spread);
    TimesSmall(config.levelSpacing);
    BidTakesPart(config, rail, budget, scale, 0, Bids([], 0.0, false));
    BidsGrow(config, rail, budget, scale, config.Levels());
    var first := BuyLadder(config, rail, budget, scale, 1).orders;
    assert first[0] in Bidding(config, sight, side, mid, spread, budget, scale);
  }

  lemma AskingHas(config: LadderConfig, sight: Sight, side: Side, mid: real, spread: real, held: int)
    requires TopAskFits(config, OutcomeMid(side, mid), spread) && held >= 1
    ensures Has(Asking(config, sight, side, mid, spread, held), side)
  {
    var rail := YesRail(sight, side, mid, spread);
    TimesSmall(config.levelSpacing);
    AskTakesPart(config, rail, held, 0, Asks([], held, false));
    AsksGrow(config, rail, held, config.Levels());
    var first := SellLadder(config, rail, held, 1).orders;
    assert first[0] in Asking(config, sight, side, mid, spread, held);
  }

  // ----------------------------------------------------------- balanced maker

  /** The last three moves went the same way, each by more than half a cent. */
  predicate Trending(history: seq<real>) {
    var n := |history|;
    && n >= 4
    && (|| (forall k :: n - 3 <= k < n ==> history[k] - history[k - 1] > 0.005)
        || (forall k :: n - 3 <= k < n ==> history[k - 1] - history[k] > 0.005))
  }

  predicate Jumped(history: seq<real>) {
    |history| >= 2 && Abs(history[|history| - 1] - history[|history| - 2]) > 0.05
  }

  /** Nothing is bought after a jump of more than five cents, more than eight cents
      off the anchor, or along a trend. */
  lemma SkipsExactly(history: seq<real>, raw: real, anchor: real)
    ensures ShouldSkip(history, raw, anchor) <==> Jumped(history) || Abs(raw - anchor) > 0.08 || Trending(history)
  {
    var n := |history|;
    if n >= 4 {
      assert Back(history, 1) == history[n - 1] && Back(history, 2) == history[n - 2];
      assert Back(history, 3) == history[n - 3] && Back(history, 4) == history[n - 4];
      assert history[n - 1] - history[n - 1 - 1] == Back(history, 1) - Back(history, 2);
      assert history[n - 2] - history[n - 2 - 1] == Back(history, 2) - Back(history, 3);
      assert history[n - 3] - history[n - 3 - 1] == Back(history, 3) - Back(history, 4);
      ThreeMoves(history);
    }
  }

  lemma ThreeMoves(history: seq<real>)
    requires |history| >= 4
    ensures var n := |history|;
            Trending(history) <==>
              || (&& history[n - 1] - history[n - 2] > 0.005 && history[n - 2] - history[n - 3] > 0.005
                  && history[n - 3] - history[n - 4] > 0.005)
              || (&& history[n - 2] - history[n - 1] > 0.005 && history[n - 3] - history[n - 2] > 0.005
                  && history[n - 4] - history[n - 3] > 0.005)
  {
  }

  /** The conditions under which the balanced maker buys a side. */
  predicate Buys(maker: Maker, memory: Memory, raw: real, sight: Sight, side: Side)
    requires maker.BalancedMaker?
  {
    var history, anchor := HistoryOf(memory, sight.market), AnchorOf(memory, sight.market);
    && !Jumped(history) && !Trending(history) && Abs(raw - anchor) <= 0.08
    && 2.0 * Dearness(raw, anchor, side) < maker.deviationThreshold
    && !Overfull(maker, sight, side)
  }

  /** And those under which it sells one: pairs to unwind or too much of that side,
      at a price no worse than the anchor. */
  predicate Sells(maker: Maker, memory: Memory, raw: real, sight: Sight, side: Side)
    requires maker.BalancedMaker?
  {
    var anchor := AnchorOf(memory, sight.market);
    && (if side.SellYes? then raw >= anchor else raw <= anchor)
    && (|| MinInt(sight.yes, sight.no) > 50
        || (Excess(sight, side) > 0 && Excess(sight, side) >= maker.decayStart))
  }

  predicate Regular(maker: Maker, sight: Sight) {
    && maker.BalancedMaker? && maker.maxPosition > 0 && maker.deviationThreshold > 0.0
    && sight.yes >= 0 && sight.no >= 0
  }

  lemma BidsExactly(maker: Maker, memory: Memory, raw: real, vol: real, sight: Sight, side: Side, mid: real,
                    spread: real, balance: real)
    requires Regular(maker, sight) && Divides(maker, sight) && vol != 0.0 && side.IsBuy()
    ensures BalancedBids(maker, memory, raw, vol, sight, side, mid, spread, balance)
         == if Buys(maker, memory, raw, sight, side)
            then Bidding(maker.ladder, sight, side, mid, spread, SideBudget(maker.ladder, vol, balance),
                         BalancedScale(maker, memory, raw, sight, side))
            else []
  {
    SkipsExactly(HistoryOf(memory, sight.market), raw, AnchorOf(memory, sight.market));
    WantsExactly(maker, memory, raw, sight, side);
  }

  /** How much of an excess is put up for sale, and of the pairs. */
  lemma FractionsSold(maker: Maker, sight: Sight)
    requires Regular(maker, sight) && Divides(maker, sight)
    ensures var matched, net := MinInt(sight.yes, sight.no), AbsInt(sight.yes - sight.no);
            && MatchedSell(maker, sight)
               == (if matched <= 50 then 0.0 else Min(0.60, matched as real / maker.maxPosition as real * 1.5))
            && NetSell(maker, sight)
               == (if net < maker.decayStart then 0.0 else Min(0.80, net as real / maker.maxPosition as real * 3.0))
            && (matched > 50 ==> MatchedSell(maker, sight) > 0.0)
            && (net > 0 && net >= maker.decayStart ==> NetSell(maker, sight) > 0.0)
  {
    QuotientSign(MinInt(sight.yes, sight.no) as real, maker.maxPosition as real);
    QuotientSign(AbsInt(sight.yes - sight.no) as real, maker.maxPosition as real);
  }

  /** A fraction of a holding: rounded down, but at least one share. */
  lemma FractionIsRounded(held: int, fraction: real)
    requires held >= 0 && fraction >= 0.0
    ensures FractionQty(held, fraction) >= 1
    ensures FractionQty(held, fraction) > 1 ==> FractionQty(held, fraction) as real <= held as real * fraction
    ensures held as real * fraction < FractionQty(held, fraction) as real + 1.0
  {
    MulLe(0.0, held as real, fraction);
  }

  lemma NoAsksWithoutReason(maker: Maker, memory: Memory, raw: real, sight: Sight, mid: real, spread: real, side: Side)
    requires Regular(maker, sight) && Divides(maker, sight) && !side.IsBuy()
    requires Has(NetAsks(maker, memory, raw, sight, mid, spread), side)
          || Has(UnwindAsks(maker, memory, raw, sight, side, mid, spread), side)
    ensures Sells(maker, memory, raw, sight, side)
  {
    FractionsSold(maker, sight);
    NetAsksAreStocked(maker, memory, raw, sight, mid, spread);
  }

  lemma AsksWithReason(maker: Maker, memory: Memory, raw: real, sight: Sight, mid: real, spread: real, side: Side)
    requires Regular(maker, sight) && Divides(maker, sight) && !side.IsBuy()
    requires Sells(maker, memory, raw, sight, side) && TopAskFits(maker.ladder, OutcomeMid(side, mid), spread)
    ensures Has(NetAsks(maker, memory, raw, sight, mid, spread), side)
         || Has(UnwindAsks(maker, memory, raw, sight, side, mid, spread), side)
  {
    var held := if side.SellYes? then sight.yes else sight.no;
    var matched := MinInt(sight.yes, sight.no);
    FractionsSold(maker, sight);
    if matched > 50 {
      FractionFits(matched, MatchedSell(maker, sight));
      AskingHas(maker.ladder, sight, side, mid, spread, UnwindQty(maker, sight));
    } else {
      FractionFits(held, NetSell(maker, sight));
      AskingHas(maker.ladder, sight, side, mid, spread, FractionQty(held, NetSell(maker, sight)));
    }
  }

  lemma HasConcat(a: seq<Order>, b: seq<Order>, side: Side)
    ensures Has(a + b, side) <==> Has(a, side) || Has(b, side)
  {
  }

  lemma HasOfFive(a: seq<Order>, b: seq<Order>, c: seq<Order>, d: seq<Order>, e: seq<Order>, side: Side)
    ensures Has(a + b + c + d + e, side)
       <==> Has(a, side) || Has(b, side) || Has(c, side) || Has(d, side) || Has(e, side)
  {
    HasConcat(a, b, side);
    HasConcat(a + b, c, side);
    HasConcat(a + b + c, d, side);
    HasConcat(a + b + c + d, e, side);
  }

  lemma OnlyHas(orders: seq<Order>, own: Side, side: Side)
    requires OnlySide(orders, own) && Has(orders, side)
    ensures side == own
  {
  }

  lemma BidsAreOneSided(maker: Maker, memory: Memory, raw: real, vol: real, sight: Sight, own: Side, mid: real,
                        spread: real, balance: real)
    requires Regular(maker, sight) && Divides(maker, sight) && vol != 0.0 && own.IsBuy()
    ensures OnlySide(BalancedBids(maker, memory, raw, vol, sight, own, mid, spread, balance), own)
  {
    BalancedBidsArePaid(maker, memory, raw, vol, sight, own, mid, spread, balance);
  }

  /** The side of a balanced quote: its own ladder of bids, or one of the two sales. */
  lemma BalancedSideIs(maker: Maker, memory: Memory, mid: real, vol: real, sight: Sight, balance: real, side: Side,
                       spread: real)
    requires Regular(maker, sight) && spread == Compressed(Wanted(maker, vol, sight), mid) && spread >= 0.005
    ensures vol != 0.0 && Divides(maker, sight) && BalancedQuotes(maker, memory, mid, vol, sight, balance).Ok?
    ensures var raw, orders := Recorded(maker, sight), BalancedQuotes(maker, memory, mid, vol, sight, balance).value;
            Has(orders, side) <==>
              if side.IsBuy() then Has(BalancedBids(maker, memory, raw, vol, sight, side, mid, spread, balance), side)
              else || Has(NetAsks(maker, memory, raw, sight, mid, spread), side)
                   || Has(UnwindAsks(maker, memory, raw, sight, side, mid, spread), side)
  {
    var raw := Recorded(maker, sight);
    assert vol != 0.0;
    var yesBids := BalancedBids(maker, memory, raw, vol, sight, BuyYes, mid, spread, balance);
    var noBids := BalancedBids(maker, memory, raw, vol, sight, BuyNo, mid, spread, balance);
    var net := NetAsks(maker, memory, raw, sight, mid, spread);
    var yesPairs := UnwindAsks(maker, memory, raw, sight, SellYes, mid, spread);
    var noPairs := UnwindAsks(maker, memory, raw, sight, SellNo, mid, spread);
    assert BalancedQuotes(maker, memory, mid, vol, sight, balance) == Ok(yesBids + noBids + net + yesPairs + noPairs);
    HasOfFive(yesBids, noBids, net, yesPairs, noPairs, side);
    BidsAreOneSided(maker, memory, raw, vol, sight, BuyYes, mid, spread, balance);
    BidsAreOneSided(maker, memory, raw, vol, sight, BuyNo, mid, spread, balance);
    NetAsksAreStocked(maker, memory, raw, sight, mid, spread);
    UnwindAsksAreStocked(maker, memory, raw, sight, SellYes, mid, spread);
    UnwindAsksAreStocked(maker, memory, raw, sight, SellNo, mid, spread);
    SidesOfFiveHave(yesBids, noBids, net, NetSide(sight), yesPairs, noPairs, side);
  }

  lemma SidesOfFiveHave(yesBids: seq<Order>, noBids: seq<Order>, net: seq<Order>, own: Side, yesPairs: seq<Order>,
                        noPairs: seq<Order>, side: Side)
    requires OnlySide(yesBids, BuyYes) && OnlySide(noBids, BuyNo) && OnlySide(net, own) && !own.IsBuy()
    requires OnlySide(yesPairs, SellYes) && OnlySide(noPairs, SellNo)
    ensures Has(yesBids, side) ==> side == BuyYes
    ensures Has(noBids, side) ==> side == BuyNo
    ensures Has(net, side) ==> !side.IsBuy()
    ensures Has(yesPairs, side) ==> side == SellYes
    ensures Has(noPairs, side) ==> side == SellNo
  {
  }

  /** The balanced maker, side by side. It buys only a side it has reason to buy and
      does so where the innermost bid is paid for; it sells only a side it has reason
      to sell and does so where the innermost ask is below a dollar. */
  lemma BalancedTrades(maker: Maker, memory: Memory, mid: real, vol: real, sight: Sight, balance: real, side: Side,
                       spread: real)
    requires Regular(maker, sight) && spread == Compressed(Wanted(maker, vol, sight), mid) && spread >= 0.005
    ensures vol != 0.0 && Divides(maker, sight) && BalancedQuotes(maker, memory, mid, vol, sight, balance).Ok?
    ensures var raw, orders := Recorded(maker, sight), BalancedQuotes(maker, memory, mid, vol, sight, balance).value;
            var own, budget := OutcomeMid(side, mid), Min(balance, maker.ladder.maxPerSide / vol);
            if side.IsBuy() then
              && (Has(orders, side) ==> Buys(maker, memory, raw, sight, side))
              && (&& Buys(maker, memory, raw, sight, side)
                  && TopBidFits(maker.ladder, own, spread, budget, BalancedScale(maker, memory, raw, sight, side))
                  ==> Has(orders, side))
            else
              && (Has(orders, side) ==> Sells(maker, memory, raw, sight, side))
              && (Sells(maker, memory, raw, sight, side) && TopAskFits(maker.ladder, own, spread) ==> Has(orders, side))
  {
    var raw := Recorded(maker, sight);
    BalancedSideIs(maker, memory, mid, vol, sight, balance, side, spread);
    if side.IsBuy() {
      BidsExactly(maker, memory, raw, vol, sight, side, mid, spread, balance);
      var budget, scale := SideBudget(maker.ladder, vol, balance), BalancedScale(maker, memory, raw, sight, side);
      if TopBidFits(maker.ladder, OutcomeMid(side, mid), spread, budget, scale) {
        BiddingHas(maker.ladder, sight, side, mid, spread, budget, scale);
      }
    } else {
      if || Has(NetAsks(maker, memory, raw, sight, mid, spread), side)
         || Has(UnwindAsks(maker, memory, raw, sight, side, mid, spread), side) {
        NoAsksWithoutReason(maker, memory, raw, sight, mid, spread, side);
      }
      if Sells(maker, memory, raw, sight, side) && TopAskFits(maker.ladder, OutcomeMid(side, mid), spread) {
        AsksWithReason(maker, memory, raw, sight, mid, spread, side);
      }
    }
  }

  // -------------------------------------------------------- the other makers

  /** The fast-anchor maker bids on both sides at every inventory, and sells a side
      exactly when it holds more of it than it keeps. */
  lemma FastAnchorTrades(maker: Maker, mid: real, vol: real, sight: Sight, balance: real, side: Side, spread: real)
    requires maker.FastAnchorMaker? && maker.maxPosition > 0 && maker.sellStart >= 0
    requires spread == Compressed(Wanted(maker, vol, sight), mid) && spread >= 0.005
    ensures vol != 0.0 && FastAnchorQuotes(maker, mid, vol, sight, balance).Ok?
    ensures var orders := FastAnchorQuotes(maker, mid, vol, sight, balance).value;
            var own, budget := OutcomeMid(side, mid), Min(balance, maker.ladder.maxPerSide / vol);
            var held := if side.SellYes? then sight.yes else sight.no;
            if side.IsBuy() then
              TopBidFits(maker.ladder, own, spread, budget, BuyDampen(maker.maxPosition, sight.yes + sight.no))
              ==> Has(orders, side)
            else
              && (Has(orders, side) ==> held > maker.sellStart)
              && (held > maker.sellStart && TopAskFits(maker.ladder, own, spread) ==> Has(orders, side))
  {
    assert vol != 0.0;
    var budget, scale := SideBudget(maker.ladder, vol, balance), BuyDampen(maker.maxPosition, sight.yes + sight.no);
    DampenIsPositive(maker.maxPosition, sight.yes + sight.no);
    var yesBids := Bidding(maker.ladder, sight, BuyYes, mid, spread, budget, scale);
    var noBids := Bidding(maker.ladder, sight, BuyNo, mid, spread, budget, scale);
    var yesAsks := ExcessAsks(maker, sight, SellYes, mid, spread, sight.yes);
    var noAsks := ExcessAsks(maker, sight, SellNo, mid, spread, sight.no);
    assert FastAnchorQuotes(maker, mid, vol, sight, balance) == Ok(yesBids + noBids + yesAsks + noAsks);
    HasOfFive(yesBids, noBids, yesAsks, noAsks, [], side);
    assert yesBids + noBids + yesAsks + noAsks + [] == yesBids + noBids + yesAsks + noAsks;
    BiddingIsPaid(maker.ladder, sight, BuyYes, mid, spread, budget, scale);
    BiddingIsPaid(maker.ladder, sight, BuyNo, mid, spread, budget, scale);
    ExcessIsStocked(maker, sight, SellYes, mid, spread, sight.yes);
    ExcessIsStocked(maker, sight, SellNo, mid, spread, sight.no);
    SidesOfFiveHave(yesBids, noBids, [], SellYes, yesAsks, noAsks, side);
    if side.IsBuy() && TopBidFits(maker.ladder, OutcomeMid(side, mid), spread, budget, scale) {
      BiddingHas(maker.ladder, sight, side, mid, spread, budget, scale);
    }
    if !side.IsBuy() && TopAskFits(maker.ladder, OutcomeMid(side, mid), spread) {
      ExcessHas(maker, sight, side, mid, spread);
    }
  }

  lemma ExcessHas(maker: Maker, sight: Sight, side: Side, mid: real, spread: real)
    requires maker.FastAnchorMaker? && maker.maxPosition > 0 && maker.sellStart >= 0 && !side.IsBuy()
    requires TopAskFits(maker.ladder, OutcomeMid(side, mid), spread)
    ensures var held := if side.SellYes? then sight.yes else sight.no;
            held > maker.sellStart ==> Has(ExcessAsks(maker, sight, side, mid, spread, held), side)
  {
    var held := if side.SellYes? then sight.yes else sight.no;
    if held > maker.sellStart {
      ExcessFits(maker, held);
      AskingHas(maker.ladder, sight, side, mid, spread, ExcessQty(maker, held));
    }
  }

  /** What the fast-anchor maker puts up: its excess doubled over the limit, as a
      share of the holding, and never more than half. */
  lemma ExcessIsShare(maker: Maker, held: int)
    requires maker.FastAnchorMaker? && maker.maxPosition > 0 && held > maker.sellStart >= 0
    ensures var share := Min(0.5, 2.0 * ((held - maker.sellStart) as real / maker.maxPosition as real));
            var quantity := ExcessQty(maker, held);
            && 1 <= quantity && (quantity > 1 ==> quantity as real <= held as real * share)
            && held as real * share < quantity as real + 1.0
  {
    QuotientSign((held - maker.sellStart) as real, maker.maxPosition as real);
    FractionIsRounded(held, Min(0.5, (held - maker.sellStart) as real / maker.maxPosition as real * 2.0));
  }

  /** The anchor maker bids on a side exactly while it is below the position limit and
      the bid is worth a cent. */
  lemma AnchorTrades(maker: Maker, mid: real, vol: real, sight: Sight, side: Side)
    requires maker.AnchorMaker?
    ensures var bid := OutcomeMid(side, mid) - Compressed(Wanted(maker, vol, sight), mid);
            var held := if side.BuyYes? then sight.yes else sight.no;
            Has(AnchorQuotes(maker, mid, vol, sight), side)
            <==> side.IsBuy() && bid >= 0.01 && held < maker.maxPosition
  {
    var spread := Compressed(Wanted(maker, vol, sight), mid);
    var yes := AnchorBid(maker, BuyYes, sight.market, mid - spread, sight.yes);
    var no := AnchorBid(maker, BuyNo, sight.market, 1.0 - mid - spread, sight.no);
    HasConcat(yes, no, side);
    if yes != [] { assert yes[0].side == BuyYes; }
    if no != [] { assert no[0].side == BuyNo; }
  }

  /** A single bid spends its dollars on whole shares, but buys at least one. */
  lemma BidIsLargest(side: Side, market: int, bid: real, dollars: real)
    requires bid > 0.0
    ensures var order := BidOrder(side, market, bid, dollars);
            && order.side == side && order.market == market
            && order.Limit() <= bid < order.Limit() + 0.000000001
            && (if dollars < bid then order.quantity == 1 else IsLargest(order.quantity, bid, dollars))
  {
    var quantity := MaxInt(1, Trunc(dollars / bid));
    AtPriceBounds(side, market, bid, quantity);
    TruncIsLargest(dollars, bid);
    OneFits(dollars, bid);
  }

  /** The flash maker bids on both sides of every level, inside out. */
  lemma {:induction false} FlashTrades(maker: Maker, mid: real, sight: Sight, n: nat, level: nat)
    requires maker.FlashMaker? && 0.05 <= mid <= 0.95 && 1 <= level <= n
    ensures var orders := FlashQuotes(maker, mid, sight, n);
            var away := Times(level as real, maker.levelSpacingCents as real / 100.0);
            && |orders| == 2 * n
            && orders[2 * level - 2]
               == BidOrder(BuyYes, sight.market, Max(0.01, mid - away), maker.dollarsPerLevel)
            && orders[2 * level - 1]
               == BidOrder(BuyNo, sight.market, Max(0.01, 1.0 - mid - away), maker.dollarsPerLevel)
  {
    if n > 1 {
      FlashTrades(maker, mid, sight, n - 1, if level < n then level else 1);
    }
  }

  /** A ladder has no more orders than levels, and without levels none. */
  lemma {:induction false} LadderIsShort(config: LadderConfig, rail: Rail, budget: real, scale: real, held: int, n: nat)
    ensures |BuyLadder(config, rail, budget, scale, n).orders| <= n && |SellLadder(config, rail, held, n).orders| <= n
  {
    if n > 0 {
      LadderIsShort(config, rail, budget, scale, held, n - 1);
    }
  }

  lemma LevelsBound(config: LadderConfig, sight: Sight, side: Side, mid: real, spread: real, budget: real, scale: real,
                    held: int)
    ensures var bids := Bidding(config, sight, side, mid, spread, budget, scale);
            var asks := Asking(config, sight, side, mid, spread, held);
            if config.numLevels <= 0 then bids == asks == []
            else |bids| <= config.numLevels && |asks| <= config.numLevels
  {
    LadderIsShort(config, YesRail(sight, side, mid, spread), budget, scale, held, config.Levels());
  }

  // ---------------------------------------------------------------- failures

  /** The two ladder makers fail exactly by dividing by zero: in a quote wide enough to
      be made, with a position limit of zero that some inventory ratio needs, or for
      the balanced maker with a threshold of zero. */
  lemma FailsExactly(maker: Maker, memory: Memory, mid: real, vol: real, sight: Sight, balance: real)
    requires maker.BalancedMaker? || maker.FastAnchorMaker?
    ensures var wide := Compressed(Wanted(maker, vol, sight), mid) >= 0.005;
            var total, pairs := sight.yes + sight.no, if sight.yes < sight.no then sight.yes else sight.no;
            if maker.FastAnchorMaker? then
              FastAnchorQuotes(maker, mid, vol, sight, balance).Err? <==>
                && wide && maker.maxPosition == 0
                && (total > 100 || sight.yes > maker.sellStart || sight.no > maker.sellStart)
            else
              BalancedQuotes(maker, memory, mid, vol, sight, balance).Err? <==>
                && wide
                && (|| maker.deviationThreshold == 0.0
                    || (&& maker.maxPosition == 0
                        && (|| pairs > 50 || total > 100
                            || sight.yes - sight.no >= maker.decayStart
                            || sight.no - sight.yes >= maker.decayStart)))
  {
    if maker.BalancedMaker? {
      assert MinInt(sight.yes, sight.no) == if sight.yes < sight.no then sight.yes else sight.no;
    }
  }

  /** A block fails exactly when one of its markets does, and then hands out nothing;
      otherwise its orders are those of its markets one after the other. */
  lemma {:induction false} BlockFailsExactly(step: Step, memory: Memory, block: seq<Sight>, n: nat)
    requires n <= |block|
    ensures var p := Fold(step, memory, block, n);
            && (p.failed <==> exists k :: 0 <= k < n && Breaks(step, memory, block, k))
            && (p.failed ==> p.orders == [])
  {
    if n > 0 {
      BlockFailsExactly(step, memory, block, n - 1);
      if !Fold(step, memory, block, n - 1).failed && Breaks(step, memory, block, n - 1) {
        assert Fold(step, memory, block, n).failed;
      }
    }
  }

  /** The exception of a block arises in its `k`th market. */
  predicate Breaks(step: Step, memory: Memory, block: seq<Sight>, k: nat)
    requires k < |block|
  {
    var before := Fold(step, memory, block, k);
    !before.failed && step(before.memory, block[k]).quotes.Err?
  }

  lemma MarketsFollow(step: Step, memory: Memory, block: seq<Sight>, n: nat)
    requires n < |block| && !Fold(step, memory, block, n).failed && !Breaks(step, memory, block, n)
    ensures var before, now := Fold(step, memory, block, n), Fold(step, memory, block, n + 1);
            && !now.failed
            && now.orders == before.orders + step(before.memory, block[n]).quotes.value
            && now.memory == step(before.memory, block[n]).memory
  {
  }
}
