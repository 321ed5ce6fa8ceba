/** The quoting agents of arena/bots/market_maker.py. Positions, balance and
    clearing prices are inputs, and `tanh` is an arbitrary function. */
module MarketMakers {
  import opened Wrappers
  import opened Reals
  import opened Orders
  import opened Quotes

  /** The four agents and their parameters. */
  datatype Maker =
    | AnchorMaker(halfSpread: real, baseSize: real, maxPosition: int, skewFactor: real, volLookback: nat,
                  volWiden: real)
    | FlashMaker(numLevels: int, levelSpacingCents: int, dollarsPerLevel: real, skewFactor: real)
    | BalancedMaker(ladder: LadderConfig, halfSpread: real, maxPosition: int, skewFactor: real, volLookback: nat,
                    volWiden: real, decayStart: int, anchorAlpha: real, fastAlpha: real, deviationThreshold: real,
                    budgetNanos: int)
    | FastAnchorMaker(ladder: LadderConfig, halfSpread: real, maxPosition: int, skewFactor: real, volLookback: nat,
                      volWiden: real, anchorAlpha: real, sellStart: int)

  /** What an agent remembers between blocks, market by market. */
  datatype Memory = Memory(history: map<int, seq<real>>, anchor: map<int, real>, fast: map<int, real>)

  /** One market of a block as the agent sees it. */
  datatype Sight = Sight(market: int, yesNanos: int, yes: int, no: int)

  datatype Error = ZeroDivision

  function MidOf(sight: Sight): real { sight.yesNanos as real / NANOS_PER_DOLLAR as real }

  // --------------------------------------------------------------- volatility

  /** `history[-count:]`, which is everything when `count` is zero. */
  function Recent(history: seq<real>, count: nat): (recent: seq<real>)
    ensures history != [] ==> recent != []
  {
    if count == 0 || |history| <= count then history else history[|history| - count..]
  }

  function Remember(history: seq<real>, price: real, keep: nat): (kept: seq<real>)
    requires keep > 0
    ensures |kept| <= keep
  {
    Recent(history + [price], keep)
  }

  function MaxOf(prices: seq<real>): real
    requires prices != []
  {
    if |prices| == 1 then prices[0] else Max(prices[0], MaxOf(prices[1..]))
  }

  function MinOf(prices: seq<real>): real
    requires prices != []
  {
    if |prices| == 1 then prices[0] else Min(prices[0], MinOf(prices[1..]))
  }

  function SpanOf(prices: seq<real>): real
    requires prices != []
  {
    MaxOf(prices) - MinOf(prices)
  }

  function Keep(maker: Maker): nat
    requires !maker.FlashMaker?
  {
    maker.volLookback + (if maker.FastAnchorMaker? then 2 else 1)
  }

  /** The spread multiplier, from a history that already holds the latest price. */
  function VolMultiplier(maker: Maker, history: seq<real>): real
    requires !maker.FlashMaker?
  {
    if |history| < (if maker.AnchorMaker? then 3 else 2) then 1.0
    else
      var windowed := SpanOf(Recent(history, maker.volLookback));
      var jump := Abs(history[|history| - 1] - history[|history| - 2]) * 2.0;
      match maker
      case AnchorMaker(_, _, _, _, _, widen) => if windowed > 0.05 then Min(widen, 1.0 + windowed * 5.0) else 1.0
      case BalancedMaker(_, _, _, _, _, widen, _, _, _, _, _) =>
        var vol := Max(windowed, jump);
        if vol > 0.01 then Min(widen, 1.0 + vol * 15.0) else 1.0
      case FastAnchorMaker(_, _, _, _, _, widen, _, _) =>
        var vol := Max(windowed, jump);
        if vol > 0.02 then Min(widen, 1.0 + vol * 10.0) else 1.0
  }

  function HistoryOf(memory: Memory, market: int): seq<real> {
    if market in memory.history then memory.history[market] else []
  }

  function Ema(averages: map<int, real>, market: int, alpha: real, price: real): real {
    if market in averages then averages[market] + Times(alpha, price - averages[market]) else price
  }

  // ------------------------------------------------------------------- memory

  /** The clamped price an agent records. */
  function Recorded(maker: Maker, sight: Sight): real {
    if maker.AnchorMaker? then Clamp(MidOf(sight), 0.02, 0.98) else Clamp(MidOf(sight), 0.05, 0.95)
  }

  function Recall(maker: Maker, memory: Memory, sight: Sight): Memory {
    if maker.FlashMaker? then memory
    else
      var price, m := Recorded(maker, sight), sight.market;
      var history := memory.history[m := Remember(HistoryOf(memory, m), price, Keep(maker))];
      match maker
      case AnchorMaker(_, _, _, _, _, _) => memory.(history := history)
      case BalancedMaker(_, _, _, _, _, _, _, alpha, fastAlpha, _, _) =>
        Memory(history, memory.anchor[m := Ema(memory.anchor, m, alpha, price)],
               memory.fast[m := if m in memory.anchor then Ema(memory.fast, m, fastAlpha, price) else price])
      case FastAnchorMaker(_, _, _, _, _, _, alpha, _) =>
        memory.(history := history, anchor := memory.anchor[m := Ema(memory.anchor, m, alpha, price)])
  }

  function AnchorOf(memory: Memory, market: int): real {
    if market in memory.anchor then memory.anchor[market] else 0.5
  }

  /** Averages within the clamped prices, histories no longer than the window. */
  predicate Bounded(maker: Maker, memory: Memory) {
    && (forall m :: m in memory.anchor ==> 0.05 <= memory.anchor[m] <= 0.95)
    && (forall m :: m in memory.fast ==> 0.05 <= memory.fast[m] <= 0.95)
    && (!maker.FlashMaker? ==> forall m :: m in memory.history ==> |memory.history[m]| <= Keep(maker))
  }

  /** Averages that move towards the price and not past it. */
  predicate Steady(maker: Maker) {
    && (maker.BalancedMaker? || maker.FastAnchorMaker? ==> 0.0 <= maker.anchorAlpha <= 1.0)
    && (maker.BalancedMaker? ==> 0.0 <= maker.fastAlpha <= 1.0)
  }

  lemma Shrinks(x: real, alpha: real)
    requires 0.0 <= alpha <= 1.0
    ensures if x >= 0.0 then 0.0 <= Times(alpha, x) <= x else x <= Times(alpha, x) <= 0.0
  {
    if x >= 0.0 {
      MulLe(0.0, alpha, x);
      MulLe(alpha, 1.0, x);
    } else {
      MulLe(0.0, alpha, -x);
      MulLe(alpha, 1.0, -x);
    }
  }

  lemma EmaBetween(averages: map<int, real>, market: int, alpha: real, price: real, lo: real, hi: real)
    requires 0.0 <= alpha <= 1.0 && lo <= price <= hi
    requires market in averages ==> lo <= averages[market] <= hi
    ensures lo <= Ema(averages, market, alpha, price) <= hi
  {
    if market in averages {
      var average := averages[market];
      Shrinks(price - average, alpha);
    }
  }

  /** Every price a steady agent takes in keeps its memory bounded. */
  lemma RecallKeepsBounds(maker: Maker, memory: Memory, sight: Sight)
    requires Bounded(maker, memory) && Steady(maker)
    ensures Bounded(maker, Recall(maker, memory, sight))
  {
    var price := Recorded(maker, sight);
    if maker.BalancedMaker? || maker.FastAnchorMaker? {
      EmaBetween(memory.anchor, sight.market, maker.anchorAlpha, price, 0.05, 0.95);
      if maker.BalancedMaker? {
        EmaBetween(memory.fast, sight.market, maker.fastAlpha, price, 0.05, 0.95);
      }
    }
  }

  // ------------------------------------------------------------ anchor quotes

  /** The price a maker starts from; the memory already holds this block's price. */
  function Reference(maker: Maker, memory: Memory, sight: Sight): real {
    match maker
    case AnchorMaker(_, _, _, _, _, _) => Recorded(maker, sight)
    case FlashMaker(_, _, _, _) => MidOf(sight)
    case BalancedMaker(_, _, _, _, _, _, _, _, _, _, _) => AnchorOf(memory, sight.market)
    case FastAnchorMaker(_, _, _, _, _, _, _, _) => AnchorOf(memory, sight.market)
  }

  /** How far an excess of `net` YES shares moves the middle. */
  function Lean(maker: Maker, tanh: real -> real, reference: real, net: int): real {
    match maker
    case AnchorMaker(_, _, maxPosition, skewFactor, _, _) =>
      if maxPosition == 0 then 0.0 else -Times(tanh(net as real / maxPosition as real), skewFactor)
    case FlashMaker(_, _, _, skewFactor) => Times((-net) as real, skewFactor) * 0.01
    case BalancedMaker(_, _, maxPosition, skewFactor, _, _, _, _, _, _, _) =>
      var maxSkew := Min(reference, 1.0 - reference) * 0.2;
      if maxSkew < 0.005 || maxPosition == 0 then 0.0
      else -Times(maxSkew, tanh(Times(net as real, skewFactor) * 0.01 / maxSkew))
    case FastAnchorMaker(_, _, maxPosition, skewFactor, _, _, _, _) =>
      if maxPosition > 0 then -Times(tanh(net as real / maxPosition as real), skewFactor) else 0.0
  }

  /** The middle a maker quotes around, in YES terms. */
  function QuoteMid(maker: Maker, tanh: real -> real, memory: Memory, sight: Sight): real {
    var reference := Reference(maker, memory, sight);
    var lowest := if maker.AnchorMaker? then 0.02 else 0.05;
    Clamp(reference + Lean(maker, tanh, reference, sight.yes - sight.no), lowest, 1.0 - lowest)
  }

  function EdgeRoom(mid: real): real { Min(mid, 1.0 - mid) - 0.01 }

  function VolOf(maker: Maker, memory: Memory, sight: Sight): real
    requires !maker.FlashMaker?
  {
    VolMultiplier(maker, HistoryOf(memory, sight.market))
  }

  function BidOrder(side: Side, market: int, bid: real, dollars: real): Order
    requires bid > 0.0
  {
    AtPrice(side, market, bid, MaxInt(1, Trunc(dollars / bid)))
  }

  /** One bid, unless it is below a cent or the side is full. */
  function AnchorBid(maker: Maker, side: Side, market: int, bid: real, held: int): seq<Order>
    requires maker.AnchorMaker?
  {
    if bid >= 0.01 && held < maker.maxPosition then [BidOrder(side, market, bid, maker.baseSize)] else []
  }

  function AnchorQuotes(maker: Maker, mid: real, vol: real, sight: Sight): seq<Order>
    requires maker.AnchorMaker?
  {
    var spread := Min(Times(maker.halfSpread, vol), EdgeRoom(mid));
    var yesBid, noBid := mid - spread, (1.0 - mid) - spread;
    AnchorBid(maker, BuyYes, sight.market, yesBid, sight.yes) + AnchorBid(maker, BuyNo, sight.market, noBid, sight.no)
  }

  // ------------------------------------------------------------- flash quotes

  function FlashBid(mid: real, offset: real): (bid: real)
    ensures bid >= 0.01
  {
    Max(0.01, mid - offset)
  }

  function FlashOffset(maker: Maker, level: nat): real
    requires maker.FlashMaker?
  {
    Times(level as real, maker.levelSpacingCents as real / 100.0)
  }

  function FlashOrder(maker: Maker, side: Side, market: int, mid: real, level: nat): Order
    requires maker.FlashMaker?
  {
    BidOrder(side, market, FlashBid(mid, FlashOffset(maker, level)), maker.dollarsPerLevel)
  }

  /** The two bids of each of the levels 1 to `n`. */
  function FlashQuotes(maker: Maker, mid: real, sight: Sight, n: nat): seq<Order>
    requires maker.FlashMaker?
  {
    if n == 0 then []
    else
      FlashQuotes(maker, mid, sight, n - 1)
      + [FlashOrder(maker, BuyYes, sight.market, mid, n)]
      + [FlashOrder(maker, BuyNo, sight.market, Clamp(1.0 - mid, 0.05, 0.95), n)]
  }

  // ------------------------------------------------------ fast-anchor quotes

  function YesRail(sight: Sight, side: Side, mid: real, spread: real): Rail {
    Rail(sight.market, side, OutcomeMid(side, mid), spread)
  }

  function Bidding(config: LadderConfig, sight: Sight, side: Side, mid: real, spread: real, budget: real,
                   scale: real): seq<Order> {
    BuyLadder(config, YesRail(sight, side, mid, spread), budget, scale, config.Levels()).orders
  }

  function Asking(config: LadderConfig, sight: Sight, side: Side, mid: real, spread: real, held: int): seq<Order> {
    SellLadder(config, YesRail(sight, side, mid, spread), held, config.Levels()).orders
  }

  function SideBudget(config: LadderConfig, vol: real, balance: real): real
    requires vol != 0.0
  {
    Min(balance, config.maxPerSide / vol)
  }

  /** How the purchase size shrinks with the total inventory. */
  function BuyDampen(maxPosition: int, total: int): real
    requires total > 100 ==> maxPosition != 0
  {
    if total > 100 then Max(0.1, 1.0 - Min(1.0, total as real / (maxPosition * 2) as real) * 2.0) else 1.0
  }

  function FractionQty(held: int, fraction: real): int { MaxInt(1, Trunc(Times(held as real, fraction))) }

  lemma FractionFits(held: int, fraction: real)
    requires held > 0 && fraction <= 1.0
    ensures 1 <= FractionQty(held, fraction) <= held
  {
    MulLe(fraction, 1.0, held as real);
    assert Times(held as real, fraction) <= held as real;
  }

  function ExcessQty(maker: Maker, held: int): int
    requires maker.FastAnchorMaker? && maker.maxPosition != 0
  {
    FractionQty(held, Min(0.5, (held - maker.sellStart) as real / maker.maxPosition as real * 2.0))
  }

  lemma ExcessFits(maker: Maker, held: int)
    requires maker.FastAnchorMaker? && maker.maxPosition != 0 && held > maker.sellStart >= 0
    ensures 1 <= ExcessQty(maker, held) <= held
  {
    FractionFits(held, Min(0.5, (held - maker.sellStart) as real / maker.maxPosition as real * 2.0));
  }

  function ExcessAsks(maker: Maker, sight: Sight, side: Side, mid: real, spread: real, held: int): seq<Order>
    requires maker.FastAnchorMaker? && (held > maker.sellStart ==> maker.maxPosition != 0)
  {
    if held > maker.sellStart then Asking(maker.ladder, sight, side, mid, spread, ExcessQty(maker, held)) else []
  }

  function FastAnchorQuotes(maker: Maker, mid: real, vol: real, sight: Sight, balance: real): Result<seq<Order>, Error>
    requires maker.FastAnchorMaker?
  {
    var spread := Min(Times(maker.halfSpread, vol), EdgeRoom(mid));
    if spread < 0.005 then Ok([])
    else if && maker.maxPosition == 0
            && (sight.yes + sight.no > 100 || sight.yes > maker.sellStart || sight.no > maker.sellStart)
    then Err(ZeroDivision)
    else
      assert vol != 0.0;
      var scale := BuyDampen(maker.maxPosition, sight.yes + sight.no);
      var budget := SideBudget(maker.ladder, vol, balance);
      var buys := if scale > 0.0
                  then Bidding(maker.ladder, sight, BuyYes, mid, spread, budget, scale)
                     + Bidding(maker.ladder, sight, BuyNo, mid, spread, budget, scale)
                  else [];
      Ok(buys + ExcessAsks(maker, sight, SellYes, mid, spread, sight.yes)
              + ExcessAsks(maker, sight, SellNo, mid, spread, sight.no))
  }

  // --------------------------------------------------------- balanced quotes

  function Back(history: seq<real>, k: nat): real
    requires 1 <= k <= |history|
  {
    history[|history| - k]
  }

  predicate ShouldSkip(history: seq<real>, raw: real, anchor: real) {
    || (|history| >= 2 && Abs(Back(history, 1) - Back(history, 2)) > 0.05)
    || Abs(raw - anchor) > 0.08
    || (|history| >= 4
        && var d1, d2 := Back(history, 3) - Back(history, 4), Back(history, 2) - Back(history, 3);
           var d3 := Back(history, 1) - Back(history, 2);
           (d1 > 0.005 && d2 > 0.005 && d3 > 0.005) || (d1 < -0.005 && d2 < -0.005 && d3 < -0.005))
  }

  /** The multipliers of the YES and NO purchases as the price leaves the anchor. */
  function DeviationScale(threshold: real, raw: real, anchor: real, side: Side): real
    requires threshold != 0.0
  {
    var damped := Max(0.0, 1.0 - Min(1.0, Abs(raw - anchor) / threshold) * 2.0);
    if (raw - anchor > 0.0) == side.BuyYes? then damped else 1.0
  }

  predicate ShouldSell(raw: real, anchor: real, side: Side) {
    if side.SellYes? then raw >= anchor else raw <= anchor
  }

  function PairPenalty(maker: Maker, sight: Sight): real
    requires maker.BalancedMaker?
  {
    var budget := maker.budgetNanos as real / NANOS_PER_DOLLAR as real;
    var locked := if budget > 0.0 then MinInt(sight.yes, sight.no) as real / budget else 0.0;
    if locked > 0.10 then 1.0 + Min(1.0, (locked - 0.10) * 5.0) else 1.0
  }

  /** The inventory ratios divide by the position limit. */
  predicate Divides(maker: Maker, sight: Sight)
    requires maker.BalancedMaker?
  {
    && maker.deviationThreshold != 0.0
    && (maker.maxPosition != 0
        || (MinInt(sight.yes, sight.no) <= 50 && sight.yes + sight.no <= 100
            && AbsInt(sight.yes - sight.no) < maker.decayStart))
  }

  function AbsInt(x: int): int { if x < 0 then -x else x }

  function MatchedSell(maker: Maker, sight: Sight): real
    requires maker.BalancedMaker? && Divides(maker, sight)
  {
    var matched := MinInt(sight.yes, sight.no);
    if matched > 50 then Min(0.60, Min(1.0, matched as real / maker.maxPosition as real) * 1.5) else 0.0
  }

  function NetIntensity(maker: Maker, sight: Sight): real
    requires maker.BalancedMaker? && Divides(maker, sight)
  {
    var net := sight.yes - sight.no;
    if AbsInt(net) < maker.decayStart then 0.0 else Min(1.0, AbsInt(net) as real / maker.maxPosition as real)
  }

  function NetSell(maker: Maker, sight: Sight): real
    requires maker.BalancedMaker? && Divides(maker, sight)
  {
    if AbsInt(sight.yes - sight.no) < maker.decayStart then 0.0 else Min(0.80, NetIntensity(maker, sight) * 3.0)
  }

  function InventoryScale(maker: Maker, sight: Sight, side: Side): real
    requires maker.BalancedMaker? && Divides(maker, sight)
  {
    var net, dampen := sight.yes - sight.no, BuyDampen(maker.maxPosition, sight.yes + sight.no);
    if AbsInt(net) < maker.decayStart || (net > 0) != side.BuyYes? then dampen
    else Max(0.0, Times(dampen, 1.0 - NetIntensity(maker, sight) * 3.0))
  }

  function BalancedScale(maker: Maker, memory: Memory, raw: real, sight: Sight, side: Side): real
    requires maker.BalancedMaker? && Divides(maker, sight)
  {
    var anchor := AnchorOf(memory, sight.market);
    Times(InventoryScale(maker, sight, side), DeviationScale(maker.deviationThreshold, raw, anchor, side))
  }

  function BalancedBids(maker: Maker, memory: Memory, raw: real, vol: real, sight: Sight, side: Side, mid: real,
                        spread: real, balance: real)
    : seq<Order>
    requires maker.BalancedMaker? && Divides(maker, sight) && vol != 0.0
  {
    var scale := BalancedScale(maker, memory, raw, sight, side);
    if !ShouldSkip(HistoryOf(memory, sight.market), raw, AnchorOf(memory, sight.market)) && scale > 0.0
    then Bidding(maker.ladder, sight, side, mid, spread, SideBudget(maker.ladder, vol, balance), scale)
    else []
  }

  /** Sales of the side that is held in excess. */
  function NetAsks(maker: Maker, memory: Memory, raw: real, sight: Sight, mid: real, spread: real): seq<Order>
    requires maker.BalancedMaker? && Divides(maker, sight)
  {
    var net, anchor := sight.yes - sight.no, AnchorOf(memory, sight.market);
    if NetSell(maker, sight) > 0.0 && net > 0 && sight.yes > 0 then
      if ShouldSell(raw, anchor, SellYes)
      then Asking(maker.ladder, sight, SellYes, mid, spread, FractionQty(sight.yes, NetSell(maker, sight))) else []
    else if NetSell(maker, sight) > 0.0 && net < 0 && sight.no > 0 then
      if ShouldSell(raw, anchor, SellNo)
      then Asking(maker.ladder, sight, SellNo, mid, spread, FractionQty(sight.no, NetSell(maker, sight))) else []
    else []
  }

  function UnwindQty(maker: Maker, sight: Sight): int
    requires maker.BalancedMaker? && Divides(maker, sight)
  {
    FractionQty(MinInt(sight.yes, sight.no), MatchedSell(maker, sight))
  }

  /** Sales of one side of the pairs held on both. */
  function UnwindAsks(maker: Maker, memory: Memory, raw: real, sight: Sight, side: Side, mid: real,
                      spread: real): seq<Order>
    requires maker.BalancedMaker? && Divides(maker, sight)
  {
    var quantity := UnwindQty(maker, sight);
    if && MatchedSell(maker, sight) > 0.0
       && (if side.SellYes? then sight.yes else sight.no) >= quantity
       && ShouldSell(raw, AnchorOf(memory, sight.market), side)
    then Asking(maker.ladder, sight, side, mid, spread, quantity)
    else []
  }

  function BalancedQuotes(maker: Maker, memory: Memory, mid: real, vol: real, sight: Sight,
                          balance: real): Result<seq<Order>, Error>
    requires maker.BalancedMaker?
  {
    var raw := Recorded(maker, sight);
    var spread := Min(Times(Times(maker.halfSpread, vol), PairPenalty(maker, sight)), EdgeRoom(mid));
    if spread < 0.005 then Ok([])
    else if !Divides(maker, sight) then Err(ZeroDivision)
    else
      assert vol != 0.0;
      Ok(BalancedBids(maker, memory, raw, vol, sight, BuyYes, mid, spread, balance)
         + BalancedBids(maker, memory, raw, vol, sight, BuyNo, mid, spread, balance)
         + NetAsks(maker, memory, raw, sight, mid, spread)
         + UnwindAsks(maker, memory, raw, sight, SellYes, mid, spread)
         + UnwindAsks(maker, memory, raw, sight, SellNo, mid, spread))
  }

  // ---------------------------------------------------------- a whole market

  /** The orders for one market, from the memory that holds this block's price. */
  function MarketQuotes(maker: Maker, tanh: real -> real, memory: Memory, sight: Sight,
                        balance: real): Result<seq<Order>, Error> {
    var mid := QuoteMid(maker, tanh, memory, sight);
    match maker
    case AnchorMaker(_, _, _, _, _, _) => Ok(AnchorQuotes(maker, mid, VolOf(maker, memory, sight), sight))
    case FlashMaker(levels, _, _, _) => Ok(FlashQuotes(maker, mid, sight, MaxInt(0, levels)))
    case BalancedMaker(_, _, _, _, _, _, _, _, _, _, _) =>
      BalancedQuotes(maker, memory, mid, VolOf(maker, memory, sight), sight, balance)
    case FastAnchorMaker(_, _, _, _, _, _, _, _) =>
      FastAnchorQuotes(maker, mid, VolOf(maker, memory, sight), sight, balance)
  }

  /** Parameters under which quotes are apart: a spread that stays positive, levels
      that lead away from the middle, and ladders that do not lean back over it
      from the narrowest spread quoted. */
  predicate Sound(maker: Maker) {
    match maker
    case AnchorMaker(halfSpread, _, _, _, lookback, widen) => halfSpread > 0.0 && (lookback >= 2 ==> widen > 0.0)
    case FlashMaker(levels, cents, _, _) => cents > 0 || levels <= 0
    case BalancedMaker(ladder, _, _, _, _, _, _, _, _, _, _) => Clear(ladder, 0.005, NANO, ladder.Levels())
    case FastAnchorMaker(ladder, _, _, _, _, _, _, _) => Clear(ladder, 0.005, NANO, ladder.Levels())
  }

  lemma AnchorApart(maker: Maker, mid: real, vol: real, sight: Sight)
    requires maker.AnchorMaker? && Times(maker.halfSpread, vol) > 0.0 && 0.02 <= mid <= 0.98
    ensures AllApart(AnchorQuotes(maker, mid, vol, sight), sight.market, mid)
  {
    var spread := Min(Times(maker.halfSpread, vol), EdgeRoom(mid));
    var yesBid, noBid := mid - spread, (1.0 - mid) - spread;
    if yesBid >= 0.01 {
      BidApart(BuyYes, sight.market, yesBid, MaxInt(1, Trunc(maker.baseSize / yesBid)), mid);
    }
    if noBid >= 0.01 {
      BidApart(BuyNo, sight.market, noBid, MaxInt(1, Trunc(maker.baseSize / noBid)), mid);
    }
  }

  lemma FlashLevelApart(maker: Maker, mid: real, market: int, level: nat)
    requires maker.FlashMaker? && maker.levelSpacingCents > 0 && 0.05 <= mid <= 0.95 && level >= 1
    ensures Apart(BidOrder(BuyYes, market, FlashBid(mid, FlashOffset(maker, level)), maker.dollarsPerLevel), market,
                  mid)
    ensures Apart(BidOrder(BuyNo, market, FlashBid(1.0 - mid, FlashOffset(maker, level)), maker.dollarsPerLevel),
                  market, mid)
  {
    MulLt(0.0, level as real, maker.levelSpacingCents as real / 100.0);
    var yesBid, noBid := FlashBid(mid, FlashOffset(maker, level)), FlashBid(1.0 - mid, FlashOffset(maker, level));
    BidApart(BuyYes, market, yesBid, MaxInt(1, Trunc(maker.dollarsPerLevel / yesBid)), mid);
    BidApart(BuyNo, market, noBid, MaxInt(1, Trunc(maker.dollarsPerLevel / noBid)), mid);
  }

  lemma {:induction false} FlashApart(maker: Maker, mid: real, sight: Sight, n: nat)
    requires maker.FlashMaker? && maker.levelSpacingCents > 0 && 0.05 <= mid <= 0.95
    ensures AllApart(FlashQuotes(maker, mid, sight, n), sight.market, mid)
  {
    if n > 0 {
      var before := FlashQuotes(maker, mid, sight, n - 1);
      var yes := BidOrder(BuyYes, sight.market, FlashBid(mid, FlashOffset(maker, n)), maker.dollarsPerLevel);
      var no := BidOrder(BuyNo, sight.market, FlashBid(1.0 - mid, FlashOffset(maker, n)), maker.dollarsPerLevel);
      FlashApart(maker, mid, sight, n - 1);
      FlashLevelApart(maker, mid, sight.market, n);
      AddApart(before, yes, sight.market, mid);
      AddApart(before + [yes], no, sight.market, mid);
    }
  }

  predicate ClearLadder(config: LadderConfig, spread: real) { Clear(config, spread, NANO, config.Levels()) }

  lemma BiddingApart(config: LadderConfig, sight: Sight, side: Side, mid: real, spread: real, budget: real, scale: real)
    requires side.IsBuy() && ClearLadder(config, spread)
    ensures AllApart(Bidding(config, sight, side, mid, spread, budget, scale), sight.market, mid)
  {
    forall level: nat | level < config.Levels()
      ensures OffsetAt(config, spread, level) > 0.0
    {
      ClearLevel(config, spread, NANO, config.Levels(), level);
    }
    BuyLadderApart(config, YesRail(sight, side, mid, spread), budget, scale, config.Levels(), mid);
  }

  lemma BiddingIsPaid(config: LadderConfig, sight: Sight, side: Side, mid: real, spread: real, budget: real,
                      scale: real)
    requires side.IsBuy()
    ensures TotalCost(Bidding(config, sight, side, mid, spread, budget, scale)) <= Max(0.0, budget)
    ensures OnlySide(Bidding(config, sight, side, mid, spread, budget, scale), side)
  {
    BuyLadderIsPaid(config, YesRail(sight, side, mid, spread), budget, scale, config.Levels());
  }

  lemma AskingApart(config: LadderConfig, sight: Sight, side: Side, mid: real, spread: real, held: int)
    requires !side.IsBuy() && ClearLadder(config, spread) && 0.0 <= mid <= 1.0
    ensures AllApart(Asking(config, sight, side, mid, spread, held), sight.market, mid)
  {
    SellLadderApart(config, YesRail(sight, side, mid, spread), held, config.Levels(), mid);
  }

  lemma AskingIsStocked(config: LadderConfig, sight: Sight, side: Side, mid: real, spread: real, held: int)
    ensures Sold(Asking(config, sight, side, mid, spread, held)) <= MaxInt(0, held)
    ensures OnlySide(Asking(config, sight, side, mid, spread, held), side)
  {
    SellLadderIsStocked(config, YesRail(sight, side, mid, spread), held, config.Levels());
  }

  lemma FastAnchorApart(maker: Maker, mid: real, vol: real, sight: Sight, balance: real)
    requires maker.FastAnchorMaker? && Sound(maker) && 0.05 <= mid <= 0.95
    ensures var quotes := FastAnchorQuotes(maker, mid, vol, sight, balance);
            quotes.Ok? ==> AllApart(quotes.value, sight.market, mid)
  {
    var quotes := FastAnchorQuotes(maker, mid, vol, sight, balance);
    var spread := Min(Times(maker.halfSpread, vol), EdgeRoom(mid));
    if quotes.Ok? && spread >= 0.005 {
      var scale, budget := BuyDampen(maker.maxPosition, sight.yes + sight.no), SideBudget(maker.ladder, vol, balance);
      BiddingApart(maker.ladder, sight, BuyYes, mid, spread, budget, scale);
      BiddingApart(maker.ladder, sight, BuyNo, mid, spread, budget, scale);
      ExcessApart(maker, sight, SellYes, mid, spread, sight.yes);
      ExcessApart(maker, sight, SellNo, mid, spread, sight.no);
    }
  }

  lemma ExcessApart(maker: Maker, sight: Sight, side: Side, mid: real, spread: real, held: int)
    requires maker.FastAnchorMaker? && (held > maker.sellStart ==> maker.maxPosition != 0)
    requires !side.IsBuy() && ClearLadder(maker.ladder, spread) && 0.0 <= mid <= 1.0
    ensures AllApart(ExcessAsks(maker, sight, side, mid, spread, held), sight.market, mid)
  {
    if held > maker.sellStart {
      AskingApart(maker.ladder, sight, side, mid, spread, ExcessQty(maker, held));
    }
  }

  lemma BalancedBidsApart(maker: Maker, memory: Memory, raw: real, vol: real, sight: Sight, side: Side,
                          mid: real, spread: real, balance: real)
    requires maker.BalancedMaker? && Divides(maker, sight) && vol != 0.0
    requires side.IsBuy() && ClearLadder(maker.ladder, spread)
    ensures AllApart(BalancedBids(maker, memory, raw, vol, sight, side, mid, spread, balance), sight.market, mid)
  {
    BiddingApart(maker.ladder, sight, side, mid, spread, SideBudget(maker.ladder, vol, balance),
                 BalancedScale(maker, memory, raw, sight, side));
  }

  lemma NetAsksApart(maker: Maker, memory: Memory, raw: real, sight: Sight, mid: real, spread: real)
    requires maker.BalancedMaker? && Divides(maker, sight)
    requires ClearLadder(maker.ladder, spread) && 0.0 <= mid <= 1.0
    ensures AllApart(NetAsks(maker, memory, raw, sight, mid, spread), sight.market, mid)
  {
    AskingApart(maker.ladder, sight, SellYes, mid, spread, FractionQty(sight.yes, NetSell(maker, sight)));
    AskingApart(maker.ladder, sight, SellNo, mid, spread, FractionQty(sight.no, NetSell(maker, sight)));
  }

  lemma UnwindAsksApart(maker: Maker, memory: Memory, raw: real, sight: Sight, side: Side, mid: real, spread: real)
    requires maker.BalancedMaker? && Divides(maker, sight) && !side.IsBuy()
    requires ClearLadder(maker.ladder, spread) && 0.0 <= mid <= 1.0
    ensures AllApart(UnwindAsks(maker, memory, raw, sight, side, mid, spread), sight.market, mid)
  {
    AskingApart(maker.ladder, sight, side, mid, spread, UnwindQty(maker, sight));
  }

  lemma BalancedApart(maker: Maker, memory: Memory, mid: real, vol: real, sight: Sight, balance: real)
    requires maker.BalancedMaker? && Sound(maker) && 0.05 <= mid <= 0.95
    ensures var quotes := BalancedQuotes(maker, memory, mid, vol, sight, balance);
            quotes.Ok? ==> AllApart(quotes.value, sight.market, mid)
  {
    var raw, quotes := Recorded(maker, sight), BalancedQuotes(maker, memory, mid, vol, sight, balance);
    var spread := Min(Times(Times(maker.halfSpread, vol), PairPenalty(maker, sight)), EdgeRoom(mid));
    if quotes.Ok? && spread >= 0.005 {
      BalancedBidsApart(maker, memory, raw, vol, sight, BuyYes, mid, spread, balance);
      BalancedBidsApart(maker, memory, raw, vol, sight, BuyNo, mid, spread, balance);
      NetAsksApart(maker, memory, raw, sight, mid, spread);
      UnwindAsksApart(maker, memory, raw, sight, SellYes, mid, spread);
      UnwindAsksApart(maker, memory, raw, sight, SellNo, mid, spread);
    }
  }

  lemma SoundSpreadIsPositive(maker: Maker, history: seq<real>)
    requires maker.AnchorMaker? && Sound(maker) && |history| <= Keep(maker)
    ensures Times(maker.halfSpread, VolMultiplier(maker, history)) > 0.0
  {
    MulLt(0.0, maker.halfSpread, VolMultiplier(maker, history));
  }

  /** Whatever the memory holds, a market's quotes lie on either side of one price. */
  lemma MarketApart(maker: Maker, tanh: real -> real, memory: Memory, sight: Sight, balance: real)
    requires Sound(maker) && (!maker.FlashMaker? ==> |HistoryOf(memory, sight.market)| <= Keep(maker))
    ensures var quotes := MarketQuotes(maker, tanh, memory, sight, balance);
            quotes.Ok? ==> AllApart(quotes.value, sight.market, QuoteMid(maker, tanh, memory, sight))
  {
    var mid := QuoteMid(maker, tanh, memory, sight);
    match maker
    case AnchorMaker(_, _, _, _, _, _) =>
      SoundSpreadIsPositive(maker, HistoryOf(memory, sight.market));
      AnchorApart(maker, mid, VolOf(maker, memory, sight), sight);
    case FlashMaker(levels, cents, _, _) =>
      if cents > 0 {
        FlashApart(maker, mid, sight, MaxInt(0, levels));
      }
    case BalancedMaker(_, _, _, _, _, _, _, _, _, _, _) =>
      BalancedApart(maker, memory, mid, VolOf(maker, memory, sight), sight, balance);
    case FastAnchorMaker(_, _, _, _, _, _, _, _) =>
      FastAnchorApart(maker, mid, VolOf(maker, memory, sight), sight, balance);
  }

  // ----------------------------------------------------------- a whole block

  predicate DistinctMarkets(block: seq<Sight>) {
    forall i, j :: 0 <= i < j < |block| ==> block[i].market != block[j].market
  }

  /** What one market leaves: the memory with its price, and its orders. */
  datatype Quoted = Quoted(memory: Memory, quotes: Result<seq<Order>, Error>)

  function MarketStep(maker: Maker, tanh: real -> real, memory: Memory, sight: Sight, balance: real): Quoted {
    var after := Recall(maker, memory, sight);
    Quoted(after, MarketQuotes(maker, tanh, after, sight, balance))
  }

  type Step = (Memory, Sight) -> Quoted

  function StepOf(maker: Maker, tanh: real -> real, balance: real): Step {
    (memory, sight) => MarketStep(maker, tanh, memory, sight, balance)
  }

  /** `step` stands for `MarketStep`, which the solver then need not unfold. */
  ghost predicate IsStep(step: Step, maker: Maker, tanh: real -> real, balance: real) {
    forall memory, sight {:trigger MarketStep(maker, tanh, memory, sight, balance)} ::
      step(memory, sight) == MarketStep(maker, tanh, memory, sight, balance)
  }

  /** Where a block stands: what is remembered, the orders so far, and whether an
      exception has ended it. */
  datatype Progress = Progress(memory: Memory, orders: seq<Order>, failed: bool)

  function Advance(p: Progress, q: Quoted): Progress {
    if q.quotes.Ok? then Progress(q.memory, p.orders + q.quotes.value, false) else Progress(q.memory, [], true)
  }

  /** After the first `n` markets of a block. */
  function Fold(step: Step, memory: Memory, block: seq<Sight>, n: nat): Progress
    requires n <= |block|
  {
    if n == 0 then Progress(memory, [], false)
    else
      var before := Fold(step, memory, block, n - 1);
      if before.failed then before else Advance(before, step(before.memory, block[n - 1]))
  }

  function BlockAfter(maker: Maker, tanh: real -> real, memory: Memory, block: seq<Sight>, balance: real): Progress {
    Fold(StepOf(maker, tanh, balance), memory, block, |block|)
  }

  /** No order yet for the markets from the `n`th on. */
  predicate NotYet(orders: seq<Order>, block: seq<Sight>, n: nat) {
    forall order, i :: order in orders && n <= i < |block| ==> order.market != block[i].market
  }

  lemma JoinQuotes(orders: seq<Order>, quotes: seq<Order>, block: seq<Sight>, n: nat, mid: real)
    requires n < |block| && DistinctMarkets(block)
    requires NoSelfTrade(orders) && NotYet(orders, block, n) && AllApart(quotes, block[n].market, mid)
    ensures NoSelfTrade(orders + quotes) && NotYet(orders + quotes, block, n + 1)
  {
    JoinMarket(orders, quotes, block[n].market, mid);
  }

  predicate Uncrossed(orders: seq<Order>, block: seq<Sight>, n: nat) { NoSelfTrade(orders) && NotYet(orders, block, n) }

  lemma NextMarketApart(maker: Maker, tanh: real -> real, p: Progress, block: seq<Sight>, balance: real, k: nat)
    requires Sound(maker) && DistinctMarkets(block) && k < |block| && Uncrossed(p.orders, block, k)
    ensures Uncrossed(Advance(p, MarketStep(maker, tanh, p.memory, block[k], balance)).orders, block, k + 1)
  {
    var after := Recall(maker, p.memory, block[k]);
    MarketApart(maker, tanh, after, block[k], balance);
    var quotes := MarketQuotes(maker, tanh, after, block[k], balance);
    if quotes.Ok? {
      JoinQuotes(p.orders, quotes.value, block, k, QuoteMid(maker, tanh, after, block[k]));
    }
  }

  lemma {:induction false} FoldIsUncrossed(step: Step, memory: Memory, block: seq<Sight>, n: nat)
    requires n <= |block|
    requires forall p: Progress, k: nat :: k < |block| && Uncrossed(p.orders, block, k) ==>
               Uncrossed(Advance(p, step(p.memory, block[k])).orders, block, k + 1)
    ensures Uncrossed(Fold(step, memory, block, n).orders, block, n)
  {
    if n > 0 {
      FoldIsUncrossed(step, memory, block, n - 1);
    }
  }

  /** No block, from any memory, makes an agent quote two orders that could trade
      with each other. */
  lemma NeverSelfTrades(maker: Maker, tanh: real -> real, memory: Memory, block: seq<Sight>, balance: real)
    requires Sound(maker) && DistinctMarkets(block)
    ensures NoSelfTrade(BlockAfter(maker, tanh, memory, block, balance).orders)
  {
    var step := StepOf(maker, tanh, balance);
    forall p: Progress, k: nat | k < |block| && Uncrossed(p.orders, block, k)
      ensures Uncrossed(Advance(p, step(p.memory, block[k])).orders, block, k + 1)
    {
      NextMarketApart(maker, tanh, p, block, balance, k);
    }
    FoldIsUncrossed(step, memory, block, |block|);
  }

  // ------------------------------------------------------------- whole runs

  const NO_MEMORY := Memory(map[], map[], map[])

  /** One block an agent answers: the markets it sees and its balance. */
  datatype Block = Block(sights: seq<Sight>, balance: real)

  type Answer = (Memory, Block) -> Memory

  function AnswerOf(maker: Maker, tanh: real -> real): Answer {
    (memory: Memory, block: Block) => BlockAfter(maker, tanh, memory, block.sights, block.balance).memory
  }

  /** What is remembered after the first `n` blocks of a run. */
  function Through(answer: Answer, memory: Memory, run: seq<Block>, n: nat): Memory
    requires n <= |run|
  {
    if n == 0 then memory else answer(Through(answer, memory, run, n - 1), run[n - 1])
  }

  function MemoryAfter(maker: Maker, tanh: real -> real, memory: Memory, run: seq<Block>): Memory {
    Through(AnswerOf(maker, tanh), memory, run, |run|)
  }

  lemma {:induction false} RunKeeps(answer: Answer, memory: Memory, run: seq<Block>, n: nat, p: Memory -> bool)
    requires n <= |run| && p(memory)
    requires forall m, block :: p(m) ==> p(answer(m, block))
    ensures p(Through(answer, memory, run, n))
  {
    if n > 0 {
      RunKeeps(answer, memory, run, n - 1, p);
    }
  }

  lemma {:induction false} FoldKeeps(step: Step, memory: Memory, block: seq<Sight>, n: nat, p: Memory -> bool)
    requires n <= |block| && p(memory)
    requires forall m, sight :: p(m) ==> p(step(m, sight).memory)
    ensures p(Fold(step, memory, block, n).memory)
  {
    if n > 0 {
      FoldKeeps(step, memory, block, n - 1, p);
    }
  }

  lemma BlockKeepsBounds(maker: Maker, tanh: real -> real, memory: Memory, block: Block)
    requires Bounded(maker, memory) && Steady(maker)
    ensures Bounded(maker, BlockAfter(maker, tanh, memory, block.sights, block.balance).memory)
  {
    var step := StepOf(maker, tanh, block.balance);
    forall m, sight | Bounded(maker, m)
      ensures Bounded(maker, step(m, sight).memory)
    {
      RecallKeepsBounds(maker, m, sight);
    }
    FoldKeeps(step, memory, block.sights, |block.sights|, m => Bounded(maker, m));
  }

  /** Every run of a steady agent, from a bounded memory. */
  lemma RunKeepsBounds(maker: Maker, tanh: real -> real, memory: Memory, run: seq<Block>)
    requires Bounded(maker, memory) && Steady(maker)
    ensures Bounded(maker, MemoryAfter(maker, tanh, memory, run))
  {
    var answer := AnswerOf(maker, tanh);
    forall m, block | Bounded(maker, m)
      ensures Bounded(maker, answer(m, block))
    {
      BlockKeepsBounds(maker, tanh, m, block);
    }
    RunKeeps(answer, memory, run, |run|, m => Bounded(maker, m));
  }

  lemma OneSight(maker: Maker, tanh: real -> real, memory: Memory, sight: Sight, balance: real)
    ensures BlockAfter(maker, tanh, memory, [sight], balance).memory == Recall(maker, memory, sight)
  {
    var step, block := StepOf(maker, tanh, balance), [sight];
    assert Fold(step, memory, block, 0) == Progress(memory, [], false);
  }

  /** One market seen at two prices, one block after the other. */
  function Twice(market: int, first: int, second: int): seq<Block> {
    [Block([Sight(market, first, 0, 0)], 0.0), Block([Sight(market, second, 0, 0)], 0.0)]
  }

  function Swung(maker: Maker, market: int, first: int, second: int): Memory {
    Recall(maker, Recall(maker, NO_MEMORY, Sight(market, first, 0, 0)), Sight(market, second, 0, 0))
  }

  lemma TwiceIsRecalled(maker: Maker, tanh: real -> real, market: int, first: int, second: int)
    ensures MemoryAfter(maker, tanh, NO_MEMORY, Twice(market, first, second)) == Swung(maker, market, first, second)
  {
    var before, after := Sight(market, first, 0, 0), Sight(market, second, 0, 0);
    OneSight(maker, tanh, NO_MEMORY, before, 0.0);
    OneSight(maker, tanh, Recall(maker, NO_MEMORY, before), after, 0.0);
    assert Through(AnswerOf(maker, tanh), NO_MEMORY, Twice(market, first, second), 1)
        == Recall(maker, NO_MEMORY, before);
  }

  lemma SwingLeavesBounds(maker: Maker, market: int)
    requires !Steady(maker)
    ensures !Bounded(maker, Swung(maker, market, 50_000_000, 950_000_000))
  {
    var memory := Swung(maker, market, 50_000_000, 950_000_000);
    assert memory.anchor[market] == 0.05 + Times(maker.anchorAlpha, 0.9);
    if maker.BalancedMaker? {
      assert memory.fast[market] == 0.05 + Times(maker.fastAlpha, 0.9);
    }
  }

  /** Over every run from nothing remembered, the averages stay within the clamped
      prices exactly when each weight lies between zero and one. */
  lemma BoundsHoldExactly(maker: Maker, tanh: real -> real)
    ensures (forall run :: Bounded(maker, MemoryAfter(maker, tanh, NO_MEMORY, run))) <==> Steady(maker)
  {
    if Steady(maker) {
      forall run
        ensures Bounded(maker, MemoryAfter(maker, tanh, NO_MEMORY, run))
      {
        RunKeepsBounds(maker, tanh, NO_MEMORY, run);
      }
    } else {
      TwiceIsRecalled(maker, tanh, 0, 50_000_000, 950_000_000);
      SwingLeavesBounds(maker, 0);
    }
  }

  // ------------------------------------------------------- budgets and stock

  lemma OfFour(a: seq<Order>, b: seq<Order>, c: seq<Order>, d: seq<Order>, side: Side)
    ensures Of(a + b + c + d, side) == Of(a, side) + Of(b, side) + Of(c, side) + Of(d, side)
  {
    OfConcat(a, b, side);
    OfConcat(a + b, c, side);
    OfConcat(a + b + c, d, side);
  }

  lemma SidesOfFour(yesBids: seq<Order>, noBids: seq<Order>, yesAsks: seq<Order>, noAsks: seq<Order>)
    requires OnlySide(yesBids, BuyYes) && OnlySide(noBids, BuyNo) && OnlySide(yesAsks, SellYes)
             && OnlySide(noAsks, SellNo)
    ensures var orders := yesBids + noBids + yesAsks + noAsks;
            && Of(orders, BuyYes) == yesBids && Of(orders, BuyNo) == noBids
            && Of(orders, SellYes) == yesAsks && Of(orders, SellNo) == noAsks
  {
    SideOfFour(yesBids, noBids, yesAsks, noAsks, BuyYes);
    SideOfFour(yesBids, noBids, yesAsks, noAsks, BuyNo);
    SideOfFour(yesBids, noBids, yesAsks, noAsks, SellYes);
    SideOfFour(yesBids, noBids, yesAsks, noAsks, SellNo);
  }

  lemma SideOfFour(yesBids: seq<Order>, noBids: seq<Order>, yesAsks: seq<Order>, noAsks: seq<Order>, side: Side)
    requires OnlySide(yesBids, BuyYes) && OnlySide(noBids, BuyNo) && OnlySide(yesAsks, SellYes)
             && OnlySide(noAsks, SellNo)
    ensures Of(yesBids + noBids + yesAsks + noAsks, side)
         == match side case BuyYes => yesBids case BuyNo => noBids case SellYes => yesAsks case SellNo => noAsks
  {
    OfFour(yesBids, noBids, yesAsks, noAsks, side);
    OfOnlySide(yesBids, BuyYes, side);
    OfOnlySide(noBids, BuyNo, side);
    OfOnlySide(yesAsks, SellYes, side);
    OfOnlySide(noAsks, SellNo, side);
    match side
    case BuyYes => assert yesBids + [] + [] + [] == yesBids;
    case BuyNo => assert [] + noBids + [] + [] == noBids;
    case SellYes => assert [] + [] + yesAsks + [] == yesAsks;
    case SellNo => assert [] + [] + [] + noAsks == noAsks;
  }

  /** Each side's bids cost at most that side's budget, and each side's asks offer
      at most the holding. */
  lemma FastAnchorWithinMeans(maker: Maker, mid: real, vol: real, sight: Sight, balance: real)
    requires maker.FastAnchorMaker?
    requires FastAnchorQuotes(maker, mid, vol, sight, balance).Ok?
    ensures var orders := FastAnchorQuotes(maker, mid, vol, sight, balance).value;
            orders != [] ==>
              && vol != 0.0
              && TotalCost(Of(orders, BuyYes)) <= Max(0.0, Min(balance, maker.ladder.maxPerSide / vol))
              && TotalCost(Of(orders, BuyNo)) <= Max(0.0, Min(balance, maker.ladder.maxPerSide / vol))
              && (maker.sellStart >= 0 ==>
                    && Sold(Of(orders, SellYes)) <= MaxInt(0, sight.yes)
                    && Sold(Of(orders, SellNo)) <= MaxInt(0, sight.no))
  {
    var orders := FastAnchorQuotes(maker, mid, vol, sight, balance).value;
    var spread := Min(Times(maker.halfSpread, vol), EdgeRoom(mid));
    if spread >= 0.005 {
      assert vol != 0.0;
      var scale, budget := BuyDampen(maker.maxPosition, sight.yes + sight.no), SideBudget(maker.ladder, vol, balance);
      BiddingIsPaid(maker.ladder, sight, BuyYes, mid, spread, budget, scale);
      BiddingIsPaid(maker.ladder, sight, BuyNo, mid, spread, budget, scale);
      ExcessIsStocked(maker, sight, SellYes, mid, spread, sight.yes);
      ExcessIsStocked(maker, sight, SellNo, mid, spread, sight.no);
      SidesOfFour(Bidding(maker.ladder, sight, BuyYes, mid, spread, budget, scale),
                  Bidding(maker.ladder, sight, BuyNo, mid, spread, budget, scale),
                  ExcessAsks(maker, sight, SellYes, mid, spread, sight.yes),
                  ExcessAsks(maker, sight, SellNo, mid, spread, sight.no));
    }
  }

  lemma ExcessIsStocked(maker: Maker, sight: Sight, side: Side, mid: real, spread: real, held: int)
    requires maker.FastAnchorMaker? && (held > maker.sellStart ==> maker.maxPosition != 0)
    ensures OnlySide(ExcessAsks(maker, sight, side, mid, spread, held), side)
    ensures maker.sellStart >= 0 ==> Sold(ExcessAsks(maker, sight, side, mid, spread, held)) <= MaxInt(0, held)
  {
    if held > maker.sellStart {
      AskingIsStocked(maker.ladder, sight, side, mid, spread, ExcessQty(maker, held));
      if maker.sellStart >= 0 {
        ExcessFits(maker, held);
      }
    }
  }

  /** The side the balanced maker sells off when its holdings are uneven. */
  function NetSide(sight: Sight): Side { if sight.yes > sight.no then SellYes else SellNo }

  /** Sales of the excess stay within the holding of that side. */
  lemma NetAsksAreStocked(maker: Maker, memory: Memory, raw: real, sight: Sight, mid: real, spread: real)
    requires maker.BalancedMaker? && Divides(maker, sight)
    ensures OnlySide(NetAsks(maker, memory, raw, sight, mid, spread), NetSide(sight))
    ensures Sold(NetAsks(maker, memory, raw, sight, mid, spread)) <= MaxInt(0, MaxInt(sight.yes, sight.no))
  {
    var fraction := NetSell(maker, sight);
    AskingIsStocked(maker.ladder, sight, SellYes, mid, spread, FractionQty(sight.yes, fraction));
    AskingIsStocked(maker.ladder, sight, SellNo, mid, spread, FractionQty(sight.no, fraction));
    if sight.yes > 0 { FractionFits(sight.yes, fraction); }
    if sight.no > 0 { FractionFits(sight.no, fraction); }
  }

  /** Sales of matched pairs stay within the pairs held. */
  lemma UnwindAsksAreStocked(maker: Maker, memory: Memory, raw: real, sight: Sight, side: Side, mid: real, spread: real)
    requires maker.BalancedMaker? && Divides(maker, sight)
    ensures OnlySide(UnwindAsks(maker, memory, raw, sight, side, mid, spread), side)
    ensures Sold(UnwindAsks(maker, memory, raw, sight, side, mid, spread)) <= MaxInt(0, MinInt(sight.yes, sight.no))
  {
    AskingIsStocked(maker.ladder, sight, side, mid, spread, UnwindQty(maker, sight));
    if MatchedSell(maker, sight) > 0.0 {
      FractionFits(MinInt(sight.yes, sight.no), MatchedSell(maker, sight));
    }
  }

  lemma BalancedBidsArePaid(maker: Maker, memory: Memory, raw: real, vol: real, sight: Sight, side: Side,
                            mid: real, spread: real, balance: real)
    requires maker.BalancedMaker? && Divides(maker, sight) && vol != 0.0 && side.IsBuy()
    ensures TotalCost(BalancedBids(maker, memory, raw, vol, sight, side, mid, spread, balance))
         <= Max(0.0, SideBudget(maker.ladder, vol, balance))
    ensures OnlySide(BalancedBids(maker, memory, raw, vol, sight, side, mid, spread, balance), side)
  {
    BiddingIsPaid(maker.ladder, sight, side, mid, spread, SideBudget(maker.ladder, vol, balance),
                  BalancedScale(maker, memory, raw, sight, side));
  }

  lemma BidsOfFive(yesBids: seq<Order>, noBids: seq<Order>, net: seq<Order>, own: Side,
                   yesAsks: seq<Order>, noAsks: seq<Order>)
    requires OnlySide(yesBids, BuyYes) && OnlySide(noBids, BuyNo)
    requires OnlySide(net, own) && !own.IsBuy() && OnlySide(yesAsks, SellYes) && OnlySide(noAsks, SellNo)
    ensures var orders := yesBids + noBids + net + yesAsks + noAsks;
            Of(orders, BuyYes) == yesBids && Of(orders, BuyNo) == noBids
  {
    forall side: Side | side.IsBuy()
      ensures Of(yesBids + noBids + net + yesAsks + noAsks, side) == if side.BuyYes? then yesBids else noBids
    {
      OfFour(yesBids, noBids, net, yesAsks, side);
      OfConcat(yesBids + noBids + net + yesAsks, noAsks, side);
      OfOnlySide(yesBids, BuyYes, side);
      OfOnlySide(noBids, BuyNo, side);
      OfOnlySide(net, own, side);
      OfOnlySide(yesAsks, SellYes, side);
      OfOnlySide(noAsks, SellNo, side);
    }
  }

  /** Each side's bids cost at most that side's budget. */
  lemma BalancedWithinMeans(maker: Maker, memory: Memory, mid: real, vol: real, sight: Sight, balance: real)
    requires maker.BalancedMaker?
    requires BalancedQuotes(maker, memory, mid, vol, sight, balance).Ok?
    ensures var orders := BalancedQuotes(maker, memory, mid, vol, sight, balance).value;
            orders != [] ==>
              && vol != 0.0
              && TotalCost(Of(orders, BuyYes)) <= Max(0.0, Min(balance, maker.ladder.maxPerSide / vol))
              && TotalCost(Of(orders, BuyNo)) <= Max(0.0, Min(balance, maker.ladder.maxPerSide / vol))
  {
    var raw := Recorded(maker, sight);
    var spread := Min(Times(Times(maker.halfSpread, vol), PairPenalty(maker, sight)), EdgeRoom(mid));
    if spread >= 0.005 {
      assert vol != 0.0;
      BalancedBidsArePaid(maker, memory, raw, vol, sight, BuyYes, mid, spread, balance);
      BalancedBidsArePaid(maker, memory, raw, vol, sight, BuyNo, mid, spread, balance);
      NetAsksAreStocked(maker, memory, raw, sight, mid, spread);
      UnwindAsksAreStocked(maker, memory, raw, sight, SellYes, mid, spread);
      UnwindAsksAreStocked(maker, memory, raw, sight, SellNo, mid, spread);
      BidsOfFive(BalancedBids(maker, memory, raw, vol, sight, BuyYes, mid, spread, balance),
                 BalancedBids(maker, memory, raw, vol, sight, BuyNo, mid, spread, balance),
                 NetAsks(maker, memory, raw, sight, mid, spread), NetSide(sight),
                 UnwindAsks(maker, memory, raw, sight, SellYes, mid, spread),
                 UnwindAsks(maker, memory, raw, sight, SellNo, mid, spread));
    }
  }

  // --------------------------------------------------- where soundness matters

  /** Both sides quoted: a sight with room on either side. */
  function Roomy(maker: Maker, market: int): Sight
    requires maker.AnchorMaker?
  {
    Sight(market, 500_000_000, maker.maxPosition - 1, maker.maxPosition - 1)
  }

  lemma AnchorCrosses(maker: Maker, vol: real, market: int)
    requires maker.AnchorMaker? && Times(maker.halfSpread, vol) <= 0.0
    ensures !NoSelfTrade(AnchorQuotes(maker, 0.5, vol, Roomy(maker, market)))
  {
    var spread := Times(maker.halfSpread, vol);
    var yes := BidOrder(BuyYes, market, 0.5 - spread, maker.baseSize);
    var no := BidOrder(BuyNo, market, 0.5 - spread, maker.baseSize);
    assert AnchorQuotes(maker, 0.5, vol, Roomy(maker, market)) == [yes, no];
    assert Crosses([yes, no][0], [yes, no][1]);
  }

  /** Over every middle and all holdings, the anchor orders stay apart exactly when
      the widened half-spread is positive. */
  lemma AnchorApartExactly(maker: Maker, vol: real, market: int)
    requires maker.AnchorMaker?
    ensures (forall mid, nanos, yes, no :: 0.02 <= mid <= 0.98 ==>
               NoSelfTrade(AnchorQuotes(maker, mid, vol, Sight(market, nanos, yes, no))))
       <==> Times(maker.halfSpread, vol) > 0.0
  {
    if Times(maker.halfSpread, vol) > 0.0 {
      forall mid, nanos, yes, no | 0.02 <= mid <= 0.98
        ensures NoSelfTrade(AnchorQuotes(maker, mid, vol, Sight(market, nanos, yes, no)))
      {
        AnchorApart(maker, mid, vol, Sight(market, nanos, yes, no));
        ApartIsUncrossed(AnchorQuotes(maker, mid, vol, Sight(market, nanos, yes, no)), market, mid);
      }
    } else {
      AnchorCrosses(maker, vol, market);
    }
  }

  lemma {:induction false} FirstFlashBids(maker: Maker, mid: real, sight: Sight, n: nat)
    requires maker.FlashMaker? && n >= 1
    ensures BidOrder(BuyYes, sight.market, FlashBid(mid, FlashOffset(maker, 1)), maker.dollarsPerLevel)
            in FlashQuotes(maker, mid, sight, n)
    ensures BidOrder(BuyNo, sight.market, FlashBid(Clamp(1.0 - mid, 0.05, 0.95), FlashOffset(maker, 1)),
                     maker.dollarsPerLevel)
            in FlashQuotes(maker, mid, sight, n)
  {
    if n > 1 {
      FirstFlashBids(maker, mid, sight, n - 1);
    }
  }

  lemma FlashCrosses(maker: Maker, sight: Sight, n: nat)
    requires maker.FlashMaker? && maker.levelSpacingCents <= 0 && n >= 1
    ensures !NoSelfTrade(FlashQuotes(maker, 0.5, sight, n))
  {
    FirstFlashBids(maker, 0.5, sight, n);
    var bid := FlashBid(0.5, FlashOffset(maker, 1));
    var yes := BidOrder(BuyYes, sight.market, bid, maker.dollarsPerLevel);
    var no := BidOrder(BuyNo, sight.market, bid, maker.dollarsPerLevel);
    assert Crosses(yes, no);
  }

  /** Over every middle, the flash orders stay apart exactly when the level spacing
      is positive, however many levels there are. */
  lemma FlashApartExactly(maker: Maker, sight: Sight, n: nat)
    requires maker.FlashMaker? && n >= 1
    ensures (forall mid :: 0.05 <= mid <= 0.95 ==> NoSelfTrade(FlashQuotes(maker, mid, sight, n)))
       <==> maker.levelSpacingCents > 0
  {
    if maker.levelSpacingCents > 0 {
      forall mid | 0.05 <= mid <= 0.95
        ensures NoSelfTrade(FlashQuotes(maker, mid, sight, n))
      {
        FlashApart(maker, mid, sight, n);
        ApartIsUncrossed(FlashQuotes(maker, mid, sight, n), sight.market, mid);
      }
    } else {
      FlashCrosses(maker, sight, n);
    }
  }

  /** A run after which an anchor maker's spread is not positive: none at all, or a
      jump when the widening is what turns it. */
  function BadRun(maker: Maker, market: int): seq<Block>
    requires maker.AnchorMaker?
  {
    if maker.halfSpread > 0.0 then Twice(market, 500_000_000, 900_000_000) else []
  }

  function BadMemory(maker: Maker, market: int): Memory
    requires maker.AnchorMaker?
  {
    if maker.halfSpread > 0.0 then Memory(map[market := [0.5, 0.9]], map[], map[]) else NO_MEMORY
  }

  lemma BadHistory(maker: Maker, market: int)
    requires maker.AnchorMaker? && maker.volLookback >= 2
    ensures Swung(maker, market, 500_000_000, 900_000_000) == Memory(map[market := [0.5, 0.9]], map[], map[])
  {
    assert [] + [0.5] == [0.5] && [0.5] + [0.9] == [0.5, 0.9];
  }

  lemma BadRunIsRecalled(maker: Maker, tanh: real -> real, market: int)
    requires maker.AnchorMaker? && !Sound(maker)
    ensures MemoryAfter(maker, tanh, NO_MEMORY, BadRun(maker, market)) == BadMemory(maker, market)
  {
    if maker.halfSpread > 0.0 {
      TwiceIsRecalled(maker, tanh, market, 500_000_000, 900_000_000);
      BadHistory(maker, market);
    }
  }

  lemma BadSpread(maker: Maker, market: int)
    requires maker.AnchorMaker? && !Sound(maker)
    ensures var memory := Recall(maker, BadMemory(maker, market), Roomy(maker, market));
            Times(maker.halfSpread, VolOf(maker, memory, Roomy(maker, market))) <= 0.0
  {
    var sight := Roomy(maker, market);
    var history := HistoryOf(Recall(maker, BadMemory(maker, market), sight), market);
    assert Recorded(maker, sight) == 0.5;
    if maker.halfSpread > 0.0 {
      assert [0.5, 0.9] + [0.5] == [0.5, 0.9, 0.5] == history;
      JumpIsWide(maker.volLookback);
      MulLe(0.0, -maker.volWiden, maker.halfSpread);
    } else {
      assert [] + [0.5] == [0.5] == history;
    }
  }

  lemma JumpIsWide(lookback: nat)
    requires lookback >= 2
    ensures SpanOf(Recent([0.5, 0.9, 0.5], lookback)) > 0.05
  {
    if lookback == 2 {
      assert Recent([0.5, 0.9, 0.5], 2) == [0.9, 0.5];
      assert [0.9, 0.5][1..] == [0.5];
    } else {
      assert [0.5, 0.9, 0.5][1..] == [0.9, 0.5] && [0.9, 0.5][1..] == [0.5];
    }
  }

  lemma AnchorMarketCrosses(maker: Maker, tanh: real -> real, memory: Memory, market: int, balance: real)
    requires maker.AnchorMaker? && tanh(0.0) == 0.0
    requires var sight := Roomy(maker, market);
             Times(maker.halfSpread, VolOf(maker, Recall(maker, memory, sight), sight)) <= 0.0
    ensures !NoSelfTrade(BlockAfter(maker, tanh, memory, [Roomy(maker, market)], balance).orders)
  {
    var sight := Roomy(maker, market);
    var after := Recall(maker, memory, sight);
    assert QuoteMid(maker, tanh, after, sight) == 0.5;
    AnchorCrosses(maker, VolOf(maker, after, sight), market);
    OneMarket(maker, tanh, memory, sight, balance);
  }

  lemma UnsoundAnchorCrosses(maker: Maker, tanh: real -> real, market: int, balance: real)
    requires maker.AnchorMaker? && !Sound(maker) && tanh(0.0) == 0.0
    ensures !NoSelfTrade(BlockAfter(maker, tanh, MemoryAfter(maker, tanh, NO_MEMORY, BadRun(maker, market)),
                                    [Roomy(maker, market)], balance).orders)
  {
    BadRunIsRecalled(maker, tanh, market);
    BadSpread(maker, market);
    AnchorMarketCrosses(maker, tanh, BadMemory(maker, market), market, balance);
  }

  lemma UnsoundFlashCrosses(maker: Maker, tanh: real -> real, market: int, balance: real)
    requires maker.FlashMaker? && !Sound(maker)
    ensures !NoSelfTrade(BlockAfter(maker, tanh, NO_MEMORY, [Sight(market, 500_000_000, 0, 0)], balance).orders)
  {
    var sight := Sight(market, 500_000_000, 0, 0);
    assert QuoteMid(maker, tanh, NO_MEMORY, sight) == 0.5;
    FlashCrosses(maker, sight, maker.numLevels);
    OneMarket(maker, tanh, NO_MEMORY, sight, balance);
  }

  /** Over every run and every block after it, an anchor or flash agent never quotes
      two orders that could trade with each other exactly when it is sound. */
  lemma SelfTradesExactly(maker: Maker, tanh: real -> real, balance: real)
    requires (maker.AnchorMaker? || maker.FlashMaker?) && tanh(0.0) == 0.0
    ensures (forall run, block :: DistinctMarkets(block) ==>
               NoSelfTrade(BlockAfter(maker, tanh, MemoryAfter(maker, tanh, NO_MEMORY, run), block, balance).orders))
       <==> Sound(maker)
  {
    if Sound(maker) {
      forall run, block | DistinctMarkets(block)
        ensures NoSelfTrade(BlockAfter(maker, tanh, MemoryAfter(maker, tanh, NO_MEMORY, run), block, balance).orders)
      {
        NeverSelfTrades(maker, tanh, MemoryAfter(maker, tanh, NO_MEMORY, run), block, balance);
      }
    } else {
      if maker.AnchorMaker? {
        UnsoundAnchorCrosses(maker, tanh, 0, balance);
        assert DistinctMarkets([Roomy(maker, 0)]);
      } else {
        UnsoundFlashCrosses(maker, tanh, 0, balance);
        assert MemoryAfter(maker, tanh, NO_MEMORY, []) == NO_MEMORY;
        assert DistinctMarkets([Sight(0, 500_000_000, 0, 0)]);
      }
    }
  }

  lemma OneMarket(maker: Maker, tanh: real -> real, memory: Memory, sight: Sight, balance: real)
    requires MarketQuotes(maker, tanh, Recall(maker, memory, sight), sight, balance).Ok?
    ensures BlockAfter(maker, tanh, memory, [sight], balance).orders
         == MarketQuotes(maker, tanh, Recall(maker, memory, sight), sight, balance).value
  {
    var step, p := StepOf(maker, tanh, balance), Progress(memory, [], false);
    assert Fold(step, memory, [sight], 0) == p;
    assert Fold(step, memory, [sight], 1) == Advance(p, step(memory, sight));
    var quotes := MarketQuotes(maker, tanh, Recall(maker, memory, sight), sight, balance).value;
    assert [] + quotes == quotes;
  }

  // -------------------------------------------------------------- the agents

  lemma {:induction false} FoldStops(step: Step, memory: Memory, block: seq<Sight>, n: nat, m: nat)
    requires n <= m <= |block| && Fold(step, memory, block, n).failed
    ensures Fold(step, memory, block, m) == Fold(step, memory, block, n)
  {
    if n < m {
      FoldStops(step, memory, block, n, m - 1);
    }
  }

  lemma StepOfIsStep(maker: Maker, tanh: real -> real, balance: real)
    ensures IsStep(StepOf(maker, tanh, balance), maker, tanh, balance)
  {
  }

  method FlashMarket(maker: Maker, mid: real, sight: Sight) returns (orders: seq<Order>)
    requires maker.FlashMaker?
    ensures orders == FlashQuotes(maker, mid, sight, MaxInt(0, maker.numLevels))
  {
    orders := [];
    var noMid, level := Clamp(1.0 - mid, 0.05, 0.95), 1;
    while level <= maker.numLevels
      invariant 1 <= level <= MaxInt(0, maker.numLevels) + 1
      invariant orders == FlashQuotes(maker, mid, sight, level - 1)
    {
      var offset := FlashOffset(maker, level);
      orders := orders + [BidOrder(BuyYes, sight.market, FlashBid(mid, offset), maker.dollarsPerLevel)];
      orders := orders + [BidOrder(BuyNo, sight.market, FlashBid(noMid, offset), maker.dollarsPerLevel)];
      level := level + 1;
    }
  }

  method FastAnchorMarket(maker: Maker, mid: real, vol: real, sight: Sight, balance: real)
    returns (r: Result<seq<Order>, Error>)
    requires maker.FastAnchorMaker?
    ensures r == FastAnchorQuotes(maker, mid, vol, sight, balance)
  {
    var spread := Min(Times(maker.halfSpread, vol), EdgeRoom(mid));
    if spread < 0.005 {
      return Ok([]);
    }
    if && maker.maxPosition == 0
       && (sight.yes + sight.no > 100 || sight.yes > maker.sellStart || sight.no > maker.sellStart)
    {
      return Err(ZeroDivision);
    }
    assert vol != 0.0;
    var scale, budget := BuyDampen(maker.maxPosition, sight.yes + sight.no), SideBudget(maker.ladder, vol, balance);
    var buys: seq<Order>, yesAsks: seq<Order>, noAsks: seq<Order> := [], [], [];
    if scale > 0.0 {
      var yesBids := BuyOrders(maker.ladder, YesRail(sight, BuyYes, mid, spread), budget, scale);
      var noBids := BuyOrders(maker.ladder, YesRail(sight, BuyNo, mid, spread), budget, scale);
      buys := yesBids + noBids;
    }
    if sight.yes > maker.sellStart {
      yesAsks := SellOrders(maker.ladder, YesRail(sight, SellYes, mid, spread), ExcessQty(maker, sight.yes));
    }
    if sight.no > maker.sellStart {
      noAsks := SellOrders(maker.ladder, YesRail(sight, SellNo, mid, spread), ExcessQty(maker, sight.no));
    }
    r := Ok(buys + yesAsks + noAsks);
  }

  /** An agent: what it remembers is updated in place, one market at a time. */
  class Agent {
    const maker: Maker
    var history: map<int, seq<real>>
    var anchor: map<int, real>
    var fast: map<int, real>

    function Remembered(): Memory
      reads this
    {
      Memory(history, anchor, fast)
    }

    constructor (maker: Maker)
      ensures this.maker == maker && Remembered() == Memory(map[], map[], map[])
    {
      this.maker := maker;
      history, anchor, fast := map[], map[], map[];
    }

    method UpdatePrices(market: int, price: real)
      requires maker.BalancedMaker? || maker.FastAnchorMaker?
      modifies this`anchor, this`fast
      ensures anchor == old(anchor)[market := Ema(old(anchor), market, maker.anchorAlpha, price)]
      ensures fast == if maker.FastAnchorMaker? then old(fast)
                      else if market in old(anchor)
                      then old(fast)[market := Ema(old(fast), market, maker.fastAlpha, price)]
                      else old(fast)[market := price]
    {
      if market !in anchor {
        anchor := anchor[market := price];
        if maker.BalancedMaker? {
          fast := fast[market := price];
        }
        return;
      }
      if maker.BalancedMaker? {
        fast := fast[market := Ema(fast, market, maker.fastAlpha, price)];
      }
      anchor := anchor[market := Ema(anchor, market, maker.anchorAlpha, price)];
    }

    method UpdateVolatility(market: int, price: real) returns (multiplier: real)
      requires !maker.FlashMaker?
      modifies this`history
      ensures var seen := if market in old(history) then old(history)[market] else [];
              history == old(history)[market := Remember(seen, price, Keep(maker))]
      ensures multiplier == VolMultiplier(maker, history[market])
    {
      if market !in history {
        history := history[market := []];
      }
      history := history[market := history[market] + [price]];
      if |history[market]| > Keep(maker) {
        history := history[market := history[market][|history[market]| - Keep(maker)..]];
      }
      multiplier := VolMultiplier(maker, history[market]);
    }

    method QuoteMarket(tanh: real -> real, sight: Sight, balance: real) returns (r: Result<seq<Order>, Error>)
      modifies this
      ensures Remembered() == Recall(maker, old(Remembered()), sight)
      ensures r == MarketQuotes(maker, tanh, Remembered(), sight, balance)
    {
      if maker.FlashMaker? {
        var orders := FlashMarket(maker, QuoteMid(maker, tanh, Remembered(), sight), sight);
        return Ok(orders);
      }
      var price := Recorded(maker, sight);
      if !maker.AnchorMaker? {
        UpdatePrices(sight.market, price);
      }
      var vol := UpdateVolatility(sight.market, price);
      var mid := QuoteMid(maker, tanh, Remembered(), sight);
      if maker.AnchorMaker? {
        r := Ok(AnchorQuotes(maker, mid, vol, sight));
      } else if maker.BalancedMaker? {
        r := BalancedQuotes(maker, Remembered(), mid, vol, sight, balance);
      } else {
        r := FastAnchorMarket(maker, mid, vol, sight, balance);
      }
    }

    method QuoteStep(tanh: real -> real, sight: Sight, balance: real, ghost step: Step)
      returns (r: Result<seq<Order>, Error>)
      requires IsStep(step, maker, tanh, balance)
      modifies this
      ensures Quoted(Remembered(), r) == step(old(Remembered()), sight)
    {
      ghost var memory := Remembered();
      r := QuoteMarket(tanh, sight, balance);
      assert Quoted(Remembered(), r) == MarketStep(maker, tanh, memory, sight, balance);
    }

    method QuoteBlock(tanh: real -> real, block: seq<Sight>, balance: real, ghost step: Step)
      returns (r: Result<seq<Order>, Error>)
      requires IsStep(step, maker, tanh, balance)
      modifies this
      ensures var p := Fold(step, old(Remembered()), block, |block|);
              Remembered() == p.memory && r == if p.failed then Err(ZeroDivision) else Ok(p.orders)
    {
      ghost var memory := Remembered();
      var orders: seq<Order>, i := [], 0;
      while i < |block|
        invariant 0 <= i <= |block|
        invariant Fold(step, memory, block, i) == Progress(Remembered(), orders, false)
      {
        var quotes := QuoteStep(tanh, block[i], balance, step);
        if quotes.Err? {
          FoldStops(step, memory, block, i + 1, |block|);
          return Err(ZeroDivision);
        }
        orders := orders + quotes.value;
        i := i + 1;
      }
      r := Ok(orders);
    }

    method OnBlock(tanh: real -> real, block: seq<Sight>, balance: real) returns (r: Result<seq<Order>, Error>)
      modifies this
      ensures var p := BlockAfter(maker, tanh, old(Remembered()), block, balance);
              Remembered() == p.memory && r == if p.failed then Err(ZeroDivision) else Ok(p.orders)
      ensures r.Ok? && Sound(maker) && DistinctMarkets(block) ==> NoSelfTrade(r.value)
    {
      ghost var memory := Remembered();
      StepOfIsStep(maker, tanh, balance);
      r := QuoteBlock(tanh, block, balance, StepOf(maker, tanh, balance));
      if Sound(maker) && DistinctMarkets(block) {
        NeverSelfTrades(maker, tanh, memory, block, balance);
      }
    }
  }
}
