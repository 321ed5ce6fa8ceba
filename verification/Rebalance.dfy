/** One rebalance over all markets with the 20% cash floor
    (arena/live/trader.py). Prices, clock and the iteration order of the market
    set are inputs. */
module Rebalance {
  import opened Wrappers
  import opened Reals
  import opened Orders
  import opened Strategy

  const MIN_CASH_FRAC: real := 0.20

  datatype Outcome = Yes | No

  datatype Position = Position(market: int, outcome: Outcome, quantity: int)

  /** A stored fair value with its time stamp and confidence. */
  datatype Estimate = Estimate(fairValue: real, stamp: real, confidence: Option<real>)

  /** What a rebalance reads and does not change. */
  datatype Scene = Scene(
    sizer: Sizer,
    config: Freshness,
    decay: real -> real,
    price: int -> real,
    resolved: set<int>,
    now: real,
    balance: real,
    positions: seq<Position>)

  function Held(positions: seq<Position>, market: int, outcome: Outcome): int {
    if positions == [] then 0
    else if positions[0].market == market && positions[0].outcome == outcome then positions[0].quantity
    else Held(positions[1..], market, outcome)
  }

  function Mark(price: int -> real, p: Position): real {
    var yes := price(p.market);
    if p.quantity == 0 || yes <= 0.0 then 0.0
    else Times(p.quantity as real, if p.outcome == Yes then yes else 1.0 - yes)
  }

  function Marks(price: int -> real, positions: seq<Position>): real {
    if positions == [] then 0.0 else Mark(price, positions[0]) + Marks(price, positions[1..])
  }

  function PortfolioValue(s: Scene): real {
    Max(s.balance + Marks(s.price, s.positions), 0.01)
  }

  function MinCash(s: Scene): real { MIN_CASH_FRAC * PortfolioValue(s) }

  /** The mutable part: running cash, orders so far, entry prices, fair values. */
  datatype Desk = Desk(cash: real, orders: seq<Order>, entries: map<int, real>, estimates: map<int, Estimate>)

  function Fresh(s: Scene, desk: Desk, market: int): Option<FreshFairValue>
    requires s.config.Valid()
  {
    if market !in desk.estimates then None
    else
      var e := desk.estimates[market];
      Some(EffectiveFairValue(e.fairValue, s.price(market), Max(0.0, s.now - e.stamp), s.config, s.decay))
  }

  predicate Closing(s: Scene, market: int) {
    market in s.resolved || IsResolved(s.price(market))
  }

  function ClosingOrders(s: Scene, market: int): seq<Order> {
    var yes, no := Held(s.positions, market, Yes), Held(s.positions, market, No);
    (if yes > 0 then [AtPrice(SellYes, market, s.price(market), yes)] else [])
    + (if no > 0 then [AtPrice(SellNo, market, 1.0 - s.price(market), no)] else [])
  }

  /** Orders, with the entry price remembered afterwards. */
  datatype Sizing = Sizing(orders: seq<Order>, entry: Option<real>)

  /** The move to the strategy's target. */
  function SizedOrders(sizer: Sizer, market: int, stored: Option<real>, fairValue: real, p: real, value: real,
                       yes: int, no: int, confidence: Option<real>, factor: real, available: real): Sizing
  {
    var (target, entry) := SizerTarget(sizer, stored, fairValue, p, value, yes, no, confidence, factor);
    Sizing(PositionOrders(market, target.0, target.1, yes, no, fairValue, p, available), entry)
  }

  /** The orders of one market and the entry price remembered afterwards. */
  function MarketOrders(s: Scene, desk: Desk, market: int): Sizing
    requires s.config.Valid()
  {
    var estimate := Fresh(s, desk, market);
    if estimate.None? || estimate.value.effective.None? || Closing(s, market) then
      Sizing(ClosingOrders(s, market), EntryOf(desk.entries, market))
    else
      SizedOrders(s.sizer, market, EntryOf(desk.entries, market), estimate.value.effective.value, s.price(market),
                  PortfolioValue(s), Held(s.positions, market, Yes), Held(s.positions, market, No),
                  desk.estimates[market].confidence, estimate.value.factor, Max(0.0, desk.cash - MinCash(s)))
  }

  predicate Forgets(s: Scene, desk: Desk, market: int)
    requires s.config.Valid()
  {
    var estimate := Fresh(s, desk, market);
    (estimate.None? || estimate.value.effective.None? || Closing(s, market)) && ClosingOrders(s, market) == []
  }

  function StepDesk(s: Scene, desk: Desk, market: int): Desk
    requires s.config.Valid()
  {
    if s.price(market) <= 0.0 then desk
    else
      var Sizing(orders, entry) := MarketOrders(s, desk, market);
      Desk(desk.cash - TotalCost(orders),
           desk.orders + orders,
           WithEntry(desk.entries, market, entry),
           if Forgets(s, desk, market) then desk.estimates - {market} else desk.estimates)
  }

  function Fold(s: Scene, desk: Desk, markets: seq<int>): Desk
    requires s.config.Valid()
  {
    if markets == [] then desk
    else StepDesk(s, Fold(s, desk, markets[..|markets| - 1]), markets[|markets| - 1])
  }

  // ---------------------------------------------------------------- the floor

  // Every strategy moves at most one side up.
  lemma TargetRaisesOneSide(sizer: Sizer, stored: Option<real>, f: real, p: real, value: real, yes: int, no: int,
                            confidence: Option<real>, factor: real)
    requires yes >= 0 && no >= 0
    ensures var target := SizerTarget(sizer, stored, f, p, value, yes, no, confidence, factor).0;
            && target.0 >= 0 && target.1 >= 0
            && (target.0 <= yes || target.1 <= no)
  {
  }

  lemma BuyCostsAtMostCash(side: Side, market: int, price: real, target: int, current: int, cash: real)
    requires side.IsBuy() && cash >= 0.0
    ensures 0.0 <= TotalCost(BuyOrders(side, market, price, target, current, cash)) <= cash
    ensures target <= current ==> BuyOrders(side, market, price, target, current, cash) == []
  {
    var orders := BuyOrders(side, market, price, target, current, cash);
    if orders != [] {
      var q := orders[0].quantity as real;
      AtPriceBounds(side, market, price, orders[0].quantity);
      QuotientSign(cash, price);
      assert q <= cash / price;
      QuotientCost(q, cash, price);
      TimesLimit(q, orders[0].Limit(), price);
      assert orders == [orders[0]] && TotalCost(orders) == orders[0].Cost() + TotalCost([]) by {
        assert orders[1..] == [];
      }
    }
  }

  lemma SellsCostNothing(orders: seq<Order>)
    requires forall i :: 0 <= i < |orders| ==> !orders[i].side.IsBuy()
    ensures TotalCost(orders) == 0.0
  {
  }

  lemma PositionOrdersCost(market: int, ty: int, tn: int, yes: int, no: int, f: real, p: real, cash: real)
    requires cash >= 0.0 && (ty <= yes || tn <= no)
    ensures 0.0 <= TotalCost(PositionOrders(market, ty, tn, yes, no, f, p, cash)) <= cash
  {
    var sells := ExitOrders(SellYes, market, p, ty, yes) + ExitOrders(SellNo, market, 1.0 - p, tn, no)
                 + TrimOrders(SellYes, market, p, ty, yes) + TrimOrders(SellNo, market, 1.0 - p, tn, no);
    var buyYes := BuyOrders(BuyYes, market, f, ty, yes, cash);
    var buyNo := BuyOrders(BuyNo, market, 1.0 - f, tn, no, cash);
    SellsCostNothing(sells);
    BuyCostsAtMostCash(BuyYes, market, f, ty, yes, cash);
    BuyCostsAtMostCash(BuyNo, market, 1.0 - f, tn, no, cash);
    TotalCostConcat(sells, buyYes);
    TotalCostConcat(sells + buyYes, buyNo);
  }

  predicate NonNegative(positions: seq<Position>) {
    forall i :: 0 <= i < |positions| ==> positions[i].quantity >= 0
  }

  lemma HeldNonNegative(positions: seq<Position>, market: int, outcome: Outcome)
    requires NonNegative(positions)
    ensures Held(positions, market, outcome) >= 0
  {
  }

  lemma StepCost(s: Scene, desk: Desk, market: int)
    requires s.config.Valid() && NonNegative(s.positions)
    ensures 0.0 <= TotalCost(MarketOrders(s, desk, market).orders) <= Max(0.0, desk.cash - MinCash(s))
  {
    var yes, no := Held(s.positions, market, Yes), Held(s.positions, market, No);
    HeldNonNegative(s.positions, market, Yes);
    HeldNonNegative(s.positions, market, No);
    var estimate := Fresh(s, desk, market);
    if estimate.None? || estimate.value.effective.None? || Closing(s, market) {
      SellsCostNothing(ClosingOrders(s, market));
    } else {
      var f := estimate.value.effective.value;
      TargetRaisesOneSide(s.sizer, EntryOf(desk.entries, market), f, s.price(market), PortfolioValue(s),
                          yes, no, desk.estimates[market].confidence, estimate.value.factor);
      var target := SizerTarget(s.sizer, EntryOf(desk.entries, market), f, s.price(market), PortfolioValue(s),
                                yes, no, desk.estimates[market].confidence, estimate.value.factor).0;
      PositionOrdersCost(market, target.0, target.1, yes, no, f, s.price(market), Max(0.0, desk.cash - MinCash(s)));
    }
  }

  lemma {:induction false} FoldAccounts(s: Scene, start: Desk, markets: seq<int>)
    requires s.config.Valid() && NonNegative(s.positions)
    requires start.cash == s.balance && start.orders == []
    ensures var desk := Fold(s, start, markets);
            && TotalCost(desk.orders) == s.balance - desk.cash
            && desk.cash >= Min(s.balance, MinCash(s))
  {
    if markets != [] {
      var before := Fold(s, start, markets[..|markets| - 1]);
      var market := markets[|markets| - 1];
      FoldAccounts(s, start, markets[..|markets| - 1]);
      StepCost(s, before, market);
      TotalCostConcat(before.orders, MarketOrders(s, before, market).orders);
    }
  }

  /** Whatever the markets and the order they come in, one rebalance commits at
      most what lies above the floor of 20% of portfolio value. */
  lemma CashFloor(s: Scene, start: Desk, markets: seq<int>)
    requires s.config.Valid() && NonNegative(s.positions)
    requires start.cash == s.balance && start.orders == []
    ensures TotalCost(Fold(s, start, markets).orders) <= Max(0.0, s.balance - 0.20 * PortfolioValue(s))
  {
    FoldAccounts(s, start, markets);
  }

  // ------------------------------------------------------ per-market quantities

  function Quantity(orders: seq<Order>, side: Side, market: int): int {
    if orders == [] then 0
    else (if orders[0].side == side && orders[0].market == market then orders[0].quantity else 0)
         + Quantity(orders[1..], side, market)
  }

  lemma {:induction false} QuantityConcat(a: seq<Order>, b: seq<Order>, side: Side, market: int)
    ensures Quantity(a + b, side, market) == Quantity(a, side, market) + Quantity(b, side, market)
  {
    if a == [] {
      assert a + b == b;
    } else {
      assert (a + b)[1..] == a[1..] + b;
      QuantityConcat(a[1..], b, side, market);
    }
  }

  lemma QuantityOfOther(orders: seq<Order>, side: Side, market: int)
    requires forall i :: 0 <= i < |orders| ==> orders[i].side != side || orders[i].market != market
    ensures Quantity(orders, side, market) == 0
  {
  }

  lemma QuantityOfOne(order: Order, side: Side, market: int)
    ensures Quantity([order], side, market)
         == if order.side == side && order.market == market then order.quantity else 0
  {
    assert [order][1..] == [];
  }

  /** An outcome is sold only down to its target, and never bought as well. */
  predicate Sane(orders: seq<Order>, market: int, sell: Side, buy: Side, held: int) {
    && 0 <= Quantity(orders, sell, market) <= held
    && 0 <= Quantity(orders, buy, market)
    && (Quantity(orders, sell, market) == 0 || Quantity(orders, buy, market) == 0)
  }

  lemma QuantityOfSix(a: seq<Order>, b: seq<Order>, c: seq<Order>, d: seq<Order>, e: seq<Order>, f: seq<Order>,
                      side: Side, market: int)
    ensures Quantity(a + b + c + d + e + f, side, market)
         == Quantity(a, side, market) + Quantity(b, side, market) + Quantity(c, side, market)
            + Quantity(d, side, market) + Quantity(e, side, market) + Quantity(f, side, market)
  {
    QuantityConcat(a + b + c + d + e, f, side, market);
    QuantityConcat(a + b + c + d, e, side, market);
    QuantityConcat(a + b + c, d, side, market);
    QuantityConcat(a + b, c, side, market);
    QuantityConcat(a, b, side, market);
  }

  // What each of the six parts contributes to one side.
  function Part(side: Side, own: Side, quantity: int): int { if side == own then quantity else 0 }

  lemma QuantityOfPosition(market: int, ty: nat, tn: nat, yes: nat, no: nat, f: real, p: real, cash: real, side: Side)
    ensures var orders := PositionOrders(market, ty, tn, yes, no, f, p, cash);
            var boughtYes := if ty > yes then MaxInt(MinInt(ty - yes, Affordable(cash, f)), 0) else 0;
            var boughtNo := if tn > no then MaxInt(MinInt(tn - no, Affordable(cash, 1.0 - f)), 0) else 0;
            Quantity(orders, side, market) ==
              Part(side, SellYes, MaxInt(yes - ty, 0)) + Part(side, SellNo, MaxInt(no - tn, 0))
              + Part(side, BuyYes, boughtYes) + Part(side, BuyNo, boughtNo)
  {
    QuantityOfSix(
      ExitOrders(SellYes, market, p, ty, yes), ExitOrders(SellNo, market, 1.0 - p, tn, no),
      TrimOrders(SellYes, market, p, ty, yes), TrimOrders(SellNo, market, 1.0 - p, tn, no),
      BuyOrders(BuyYes, market, f, ty, yes, cash), BuyOrders(BuyNo, market, 1.0 - f, tn, no, cash), side, market);
    QuantityOfOne(AtPrice(SellYes, market, p, yes), side, market);
    QuantityOfOne(AtPrice(SellNo, market, 1.0 - p, no), side, market);
    QuantityOfOne(AtPrice(SellYes, market, p, yes - ty), side, market);
    QuantityOfOne(AtPrice(SellNo, market, 1.0 - p, no - tn), side, market);
    QuantityOfOne(AtPrice(BuyYes, market, f, MinInt(ty - yes, Affordable(cash, f))), side, market);
    QuantityOfOne(AtPrice(BuyNo, market, 1.0 - f, MinInt(tn - no, Affordable(cash, 1.0 - f))), side, market);
  }

  lemma ClosingIsSane(s: Scene, market: int)
    requires NonNegative(s.positions)
    ensures Sane(ClosingOrders(s, market), market, SellYes, BuyYes, Held(s.positions, market, Yes))
    ensures Sane(ClosingOrders(s, market), market, SellNo, BuyNo, Held(s.positions, market, No))
  {
    var yes, no := Held(s.positions, market, Yes), Held(s.positions, market, No);
    HeldNonNegative(s.positions, market, Yes);
    HeldNonNegative(s.positions, market, No);
    var a := if yes > 0 then [AtPrice(SellYes, market, s.price(market), yes)] else [];
    var b := if no > 0 then [AtPrice(SellNo, market, 1.0 - s.price(market), no)] else [];
    forall side: Side
      ensures Quantity(ClosingOrders(s, market), side, market)
           == Part(side, SellYes, yes) + Part(side, SellNo, no)
    {
      QuantityConcat(a, b, side, market);
      QuantityOfOne(AtPrice(SellYes, market, s.price(market), yes), side, market);
      QuantityOfOne(AtPrice(SellNo, market, 1.0 - s.price(market), no), side, market);
    }
  }

  lemma PositionIsSane(market: int, ty: nat, tn: nat, yes: nat, no: nat, f: real, p: real, cash: real)
    ensures var orders := PositionOrders(market, ty, tn, yes, no, f, p, cash);
            Sane(orders, market, SellYes, BuyYes, yes) && Sane(orders, market, SellNo, BuyNo, no)
  {
    QuantityOfPosition(market, ty, tn, yes, no, f, p, cash, SellYes);
    QuantityOfPosition(market, ty, tn, yes, no, f, p, cash, SellNo);
    QuantityOfPosition(market, ty, tn, yes, no, f, p, cash, BuyYes);
    QuantityOfPosition(market, ty, tn, yes, no, f, p, cash, BuyNo);
  }

  lemma StepIsSane(s: Scene, desk: Desk, market: int)
    requires s.config.Valid() && NonNegative(s.positions)
    ensures Sane(MarketOrders(s, desk, market).orders, market, SellYes, BuyYes, Held(s.positions, market, Yes))
    ensures Sane(MarketOrders(s, desk, market).orders, market, SellNo, BuyNo, Held(s.positions, market, No))
  {
    var yes, no := Held(s.positions, market, Yes), Held(s.positions, market, No);
    HeldNonNegative(s.positions, market, Yes);
    HeldNonNegative(s.positions, market, No);
    var estimate := Fresh(s, desk, market);
    if estimate.None? || estimate.value.effective.None? || Closing(s, market) {
      ClosingIsSane(s, market);
    } else {
      var f := estimate.value.effective.value;
      TargetRaisesOneSide(s.sizer, EntryOf(desk.entries, market), f, s.price(market), PortfolioValue(s),
                          yes, no, desk.estimates[market].confidence, estimate.value.factor);
      var target := SizerTarget(s.sizer, EntryOf(desk.entries, market), f, s.price(market), PortfolioValue(s),
                                yes, no, desk.estimates[market].confidence, estimate.value.factor).0;
      var cash := Max(0.0, desk.cash - MinCash(s));
      PositionIsSane(market, target.0, target.1, yes, no, f, s.price(market), cash);
    }
  }

  predicate InMarket(orders: seq<Order>, market: int) { forall order :: order in orders ==> order.market == market }

  lemma PositionInMarket(market: int, ty: int, tn: int, yes: int, no: int, f: real, p: real, cash: real)
    ensures InMarket(PositionOrders(market, ty, tn, yes, no, f, p, cash), market)
  {
  }

  lemma OrdersInMarket(s: Scene, desk: Desk, market: int)
    requires s.config.Valid()
    ensures InMarket(MarketOrders(s, desk, market).orders, market)
  {
    var estimate := Fresh(s, desk, market);
    if estimate.None? || estimate.value.effective.None? || Closing(s, market) {
      assert InMarket(ClosingOrders(s, market), market);
    } else {
      var yes, no := Held(s.positions, market, Yes), Held(s.positions, market, No);
      var f := estimate.value.effective.value;
      var target := SizerTarget(s.sizer, EntryOf(desk.entries, market), f, s.price(market), PortfolioValue(s),
                                yes, no, desk.estimates[market].confidence, estimate.value.factor).0;
      PositionInMarket(market, target.0, target.1, yes, no, f, s.price(market), Max(0.0, desk.cash - MinCash(s)));
    }
  }

  lemma StepStaysInMarket(s: Scene, desk: Desk, market: int, side: Side, other: int)
    requires s.config.Valid() && other != market
    ensures Quantity(MarketOrders(s, desk, market).orders, side, other) == 0
  {
    var orders := MarketOrders(s, desk, market).orders;
    OrdersInMarket(s, desk, market);
    assert forall i :: 0 <= i < |orders| ==> orders[i] in orders;
    QuantityOfOther(orders, side, other);
  }

  predicate Distinct(markets: seq<int>) {
    forall i, j :: 0 <= i < j < |markets| ==> markets[i] != markets[j]
  }

  /** Markets with a fair value or a holding. */
  function MarketsToCheck(estimates: map<int, Estimate>, positions: seq<Position>): set<int> {
    estimates.Keys + set p | p in positions && p.quantity > 0 :: p.market
  }

  /** In the whole rebalance, per market: no outcome is sold beyond what is held,
      and none is both bought and sold. */
  lemma {:induction false} SalesWithinHoldings(s: Scene, start: Desk, markets: seq<int>, market: int)
    requires s.config.Valid() && NonNegative(s.positions) && Distinct(markets)
    requires start.orders == []
    ensures Sane(Fold(s, start, markets).orders, market, SellYes, BuyYes, Held(s.positions, market, Yes))
    ensures Sane(Fold(s, start, markets).orders, market, SellNo, BuyNo, Held(s.positions, market, No))
    ensures market !in markets ==> forall side: Side :: Quantity(Fold(s, start, markets).orders, side, market) == 0
  {
    HeldNonNegative(s.positions, market, Yes);
    HeldNonNegative(s.positions, market, No);
    if markets != [] {
      var before, last := Fold(s, start, markets[..|markets| - 1]), markets[|markets| - 1];
      SalesWithinHoldings(s, start, markets[..|markets| - 1], market);
      forall side: Side
        ensures Quantity(before.orders + MarketOrders(s, before, last).orders, side, market)
             == Quantity(before.orders, side, market) + Quantity(MarketOrders(s, before, last).orders, side, market)
        ensures market != last ==> Quantity(MarketOrders(s, before, last).orders, side, market) == 0
      {
        QuantityConcat(before.orders, MarketOrders(s, before, last).orders, side, market);
        if market != last { StepStaysInMarket(s, before, last, side, market); }
      }
      StepIsSane(s, before, last);
    }
  }

  // ---------------------------------------------------------- one market's step

  lemma StepCloses(s: Scene, desk: Desk, market: int)
    requires s.config.Valid() && s.price(market) > 0.0
    requires var estimate := Fresh(s, desk, market);
             estimate.None? || estimate.value.effective.None? || Closing(s, market)
    ensures var orders := ClosingOrders(s, market);
            StepDesk(s, desk, market)
            == Desk(desk.cash - TotalCost(orders), desk.orders + orders, desk.entries,
                    if orders == [] then desk.estimates - {market} else desk.estimates)
  {
    SameEntry(desk.entries, market);
  }

  lemma StepSizes(s: Scene, desk: Desk, market: int, f: real, factor: real, value: real)
    requires s.config.Valid() && s.price(market) > 0.0 && !Closing(s, market) && value == PortfolioValue(s)
    requires Fresh(s, desk, market).Some? && Fresh(s, desk, market).value.effective == Some(f)
    requires Fresh(s, desk, market).value.factor == factor && market in desk.estimates
    ensures var sized := SizedOrders(s.sizer, market, EntryOf(desk.entries, market), f, s.price(market), value,
                                     Held(s.positions, market, Yes), Held(s.positions, market, No),
                                     desk.estimates[market].confidence, factor, Max(0.0, desk.cash - MinCash(s)));
            StepDesk(s, desk, market)
            == Desk(desk.cash - TotalCost(sized.orders), desk.orders + sized.orders,
                    WithEntry(desk.entries, market, sized.entry), desk.estimates)
  {
  }

  // ------------------------------------------------------------- the trader

  class LiveTrader {
    const sizer: Sizer
    const config: Freshness
    const decay: real -> real
    /** Used by the Flat strategy only. */
    const flat: FlatStrategy
    var balance: real
    var positions: seq<Position>
    var estimates: map<int, Estimate>

    ghost predicate Valid()
      reads this
    {
      config.Valid() && (sizer.FlatSizer? ==> flat.config == sizer.flat)
    }

    constructor (sizer: Sizer, config: Freshness, decay: real -> real, flat: FlatStrategy)
      requires config.Valid() && (sizer.FlatSizer? ==> flat.config == sizer.flat)
      ensures Valid() && this.sizer == sizer && this.config == config && this.decay == decay && this.flat == flat
      ensures balance == 0.0 && positions == [] && estimates == map[]
    {
      this.sizer := sizer;
      this.config := config;
      this.decay := decay;
      this.flat := flat;
      balance := 0.0;
      positions := [];
      estimates := map[];
    }

    ghost function SceneAt(price: int -> real, resolved: set<int>, now: real): Scene
      reads this
    {
      Scene(sizer, config, decay, price, resolved, now, balance, positions)
    }

    method ComputePortfolioValue(price: int -> real) returns (value: real)
      ensures value == Max(balance + Marks(price, positions), 0.01)
    {
      var sum := balance;
      for i := 0 to |positions|
        invariant sum + Marks(price, positions[i..]) == balance + Marks(price, positions)
      {
        var p := positions[i];
        if p.quantity != 0 && price(p.market) > 0.0 {
          if p.outcome == Yes {
            sum := sum + Times(p.quantity as real, price(p.market));
          } else {
            sum := sum + Times(p.quantity as real, 1.0 - price(p.market));
          }
        }
        assert positions[i..][1..] == positions[i + 1..];
      }
      value := Max(sum, 0.01);
    }

    /** `order` is the order in which the source's market set happens to be iterated. */
    method RebalanceAll(price: int -> real, resolved: set<int>, now: real, order: seq<int>) returns (orders: seq<Order>)
      requires Valid()
      requires Distinct(order) && forall market :: market in order <==> market in MarketsToCheck(estimates, positions)
      modifies this, flat
      ensures var s := old(SceneAt(price, resolved, now));
              var desk := Fold(s, Desk(s.balance, [], old(flat.entryPrices), old(estimates)), order);
              && orders == desk.orders
              && estimates == desk.estimates
              && (sizer.FlatSizer? ==> flat.entryPrices == desk.entries)
              && balance == old(balance) && positions == old(positions)
      ensures NonNegative(positions) ==>
        TotalCost(orders) <= Max(0.0, balance - 0.20 * PortfolioValue(SceneAt(price, resolved, now)))
    {
      ghost var s := SceneAt(price, resolved, now);
      ghost var start := Desk(balance, [], flat.entryPrices, estimates);
      var value := ComputePortfolioValue(price);
      var cash, minCash := balance, MIN_CASH_FRAC * value;
      orders := [];
      var i := 0;
      while i < |order|
        invariant 0 <= i <= |order|
        invariant balance == old(balance) && positions == old(positions)
        invariant Fold(s, start, order[..i]) == Desk(cash, orders, flat.entryPrices, estimates)
      {
        assert order[..i + 1][..i] == order[..i];
        var more := RebalanceMarket(s, price, resolved, now, order[i], value, cash, minCash, orders);
        cash := cash - TotalCost(more);
        orders := orders + more;
        i := i + 1;
      }
      assert order[..i] == order;
      if NonNegative(positions) {
        CashFloor(s, start, order);
      }
    }

    /** One round of the loop. */
    method RebalanceMarket(ghost s: Scene, price: int -> real, resolved: set<int>, now: real, market: int,
                           value: real, cash: real, minCash: real, ghost before: seq<Order>)
      returns (orders: seq<Order>)
      requires Valid() && s == SceneAt(price, resolved, now)
      requires value == PortfolioValue(s) && minCash == MIN_CASH_FRAC * value
      modifies `estimates, flat
      ensures StepDesk(s, Desk(cash, before, old(flat.entryPrices), old(estimates)), market)
           == Desk(cash - TotalCost(orders), before + orders, flat.entryPrices, estimates)
    {
      ghost var desk := Desk(cash, before, flat.entryPrices, estimates);
      var p := price(market);
      if p <= 0.0 {
        assert before + [] == before;
        return [];
      }
      var estimate := FreshEstimate(s, market, p, now, desk);
      if estimate.None? || estimate.value.effective.None? || market in resolved || IsResolved(p) {
        orders := CloseStep(s, desk, market, p);
      } else {
        orders := SizeStep(s, desk, market, estimate.value, p, value, Max(0.0, cash - minCash));
      }
    }

    ghost predicate Ready(s: Scene, desk: Desk, market: int, p: real)
      reads this, flat
    {
      && Valid() && s.sizer == sizer && s.config == config && s.decay == decay && s.positions == positions
      && s.price(market) == p > 0.0 && desk.estimates == estimates && desk.entries == flat.entryPrices
    }

    method CloseStep(ghost s: Scene, ghost desk: Desk, market: int, p: real) returns (orders: seq<Order>)
      requires Ready(s, desk, market, p)
      requires var estimate := Fresh(s, desk, market);
               estimate.None? || estimate.value.effective.None? || Closing(s, market)
      modifies `estimates
      ensures StepDesk(s, desk, market)
           == Desk(desk.cash - TotalCost(orders), desk.orders + orders, flat.entryPrices, estimates)
    {
      StepCloses(s, desk, market);
      orders := CloseMarket(s, market, p);
    }

    method SizeStep(ghost s: Scene, ghost desk: Desk, market: int, estimate: FreshFairValue, p: real, value: real,
                    available: real)
      returns (orders: seq<Order>)
      requires Ready(s, desk, market, p) && !Closing(s, market)
      requires value == PortfolioValue(s) && available == Max(0.0, desk.cash - MinCash(s))
      requires Fresh(s, desk, market) == Some(estimate) && estimate.effective.Some? && market in estimates
      modifies flat
      ensures StepDesk(s, desk, market)
           == Desk(desk.cash - TotalCost(orders), desk.orders + orders, flat.entryPrices, estimates)
    {
      StepSizes(s, desk, market, estimate.effective.value, estimate.factor, value);
      orders := SizeMarket(market, estimate.effective.value, p, value, estimate.factor, available);
    }

    method FreshEstimate(ghost s: Scene, market: int, p: real, now: real, ghost desk: Desk)
      returns (estimate: Option<FreshFairValue>)
      requires Valid() && s.config == config && s.decay == decay && s.price(market) == p && s.now == now
      requires desk.estimates == estimates
      ensures estimate == Fresh(s, desk, market)
    {
      estimate := None;
      if market in estimates {
        var e := estimates[market];
        estimate := Some(EffectiveFairValue(e.fairValue, p, Max(0.0, now - e.stamp), config, decay));
      }
    }

    /** Without a usable fair value, or once resolved: sell everything held, and
        forget the fair value when there was nothing to sell. */
    method CloseMarket(ghost s: Scene, market: int, p: real) returns (orders: seq<Order>)
      requires s.positions == positions && s.price(market) == p
      modifies `estimates
      ensures orders == ClosingOrders(s, market)
      ensures estimates == if orders == [] then old(estimates) - {market} else old(estimates)
    {
      var yes, no := Held(positions, market, Yes), Held(positions, market, No);
      orders := [];
      if yes > 0 { orders := orders + [AtPrice(SellYes, market, p, yes)]; }
      if no > 0 { orders := orders + [AtPrice(SellNo, market, 1.0 - p, no)]; }
      if orders == [] {
        estimates := estimates - {market};
      }
    }

    /** Otherwise: move to the strategy's target. */
    method SizeMarket(market: int, fairValue: real, p: real, value: real, factor: real, available: real)
      returns (orders: seq<Order>)
      requires Valid() && market in estimates
      modifies flat
      ensures var sized := SizedOrders(sizer, market, EntryOf(old(flat.entryPrices), market), fairValue, p, value,
                                       Held(positions, market, Yes), Held(positions, market, No),
                                       estimates[market].confidence, factor, available);
              orders == sized.orders && flat.entryPrices == WithEntry(old(flat.entryPrices), market, sized.entry)
    {
      var yes, no := Held(positions, market, Yes), Held(positions, market, No);
      SameEntry(flat.entryPrices, market);
      var target;
      match sizer {
        case KellySizer(k) =>
          target := KellyTarget(k, fairValue, p, value, yes, no, estimates[market].confidence, factor);
        case FlatSizer(_) =>
          target := flat.Target(fairValue, p, yes, no, market);
      }
      orders := PositionOrders(market, target.0, target.1, yes, no, fairValue, p, available);
    }
  }

  lemma SameEntry(entries: map<int, real>, market: int)
    ensures WithEntry(entries, market, EntryOf(entries, market)) == entries
  {
  }
}
