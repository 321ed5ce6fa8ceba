/** What a market maker's quotes have in common (arena/bots/market_maker.py): when
    two of its own orders could trade with each other, and the tapered ladders of
    the balanced and fast-anchor makers. */
module Quotes {
  import opened Reals
  import opened Orders

  // ------------------------------------------------------------- self-trading

  /** Orders that gain when YES rises. */
  predicate Bullish(side: Side) { side.BuyYes? || side.SellNo? }

  /** The YES price, in nanos, up to which a bullish order buys exposure and down
      to which a bearish one sells it. A NO price is what is left of a dollar. */
  function YesLimit(order: Order): int {
    if order.side.BuyYes? || order.side.SellYes? then order.nanos else NANOS_PER_DOLLAR - order.nanos
  }

  predicate Crosses(a: Order, b: Order) {
    a.market == b.market && Bullish(a.side) && !Bullish(b.side) && YesLimit(a) >= YesLimit(b)
  }

  predicate NoSelfTrade(orders: seq<Order>) {
    forall a, b :: a in orders && b in orders ==> !Crosses(a, b)
  }

  /** In the maker's own words: a YES bid and a NO bid stay below a dollar, an ask
      exceeds every bid on its outcome, and two asks exceed a dollar. */
  lemma NoSelfTradeMeans(orders: seq<Order>, a: Order, b: Order)
    requires NoSelfTrade(orders) && a in orders && b in orders && a.market == b.market
    ensures a.side.BuyYes? && b.side.BuyNo? ==> a.nanos + b.nanos < NANOS_PER_DOLLAR
    ensures a.side.BuyYes? && b.side.SellYes? ==> a.nanos < b.nanos
    ensures a.side.BuyNo? && b.side.SellNo? ==> a.nanos < b.nanos
    ensures a.side.SellYes? && b.side.SellNo? ==> a.nanos + b.nanos > NANOS_PER_DOLLAR
  {
    assert !Crosses(a, b) && !Crosses(b, a);
  }

  /** On its own side of the YES price `yesMid`, strictly. */
  predicate Apart(order: Order, market: int, yesMid: real) {
    && order.market == market
    && if Bullish(order.side) then YesLimit(order) as real < yesMid * NANOS_PER_DOLLAR as real
       else YesLimit(order) as real > yesMid * NANOS_PER_DOLLAR as real
  }

  predicate AllApart(orders: seq<Order>, market: int, yesMid: real) {
    forall order :: order in orders ==> Apart(order, market, yesMid)
  }

  /** Quotes of one more market join those of the others. */
  lemma JoinMarket(orders: seq<Order>, more: seq<Order>, market: int, yesMid: real)
    requires NoSelfTrade(orders) && AllApart(more, market, yesMid)
    requires forall order :: order in orders ==> order.market != market
    ensures NoSelfTrade(orders + more)
  {
    forall a, b | a in orders + more && b in orders + more
      ensures !Crosses(a, b)
    {
      if a in orders && b in orders {
      } else if a in more && b in more {
        assert Apart(a, market, yesMid) && Apart(b, market, yesMid);
      } else {
        assert a in more || b in more;
      }
    }
  }

  /** One nano in dollars: what truncation can take off an ask. */
  const NANO: real := 0.000000001

  /** The mid price of the outcome a side trades. */
  function OutcomeMid(side: Side, yesMid: real): real {
    if side.BuyYes? || side.SellYes? then yesMid else 1.0 - yesMid
  }

  lemma BidApart(side: Side, market: int, bid: real, quantity: int, yesMid: real)
    requires side.IsBuy() && 0.0 <= bid < OutcomeMid(side, yesMid)
    ensures Apart(AtPrice(side, market, bid, quantity), market, yesMid)
  {
  }

  lemma AskApart(side: Side, market: int, ask: real, quantity: int, yesMid: real)
    requires !side.IsBuy() && 0.0 <= ask && ask >= OutcomeMid(side, yesMid) + NANO
    ensures Apart(AtPrice(side, market, ask, quantity), market, yesMid)
  {
  }

  // ------------------------------------------------------------------ ladders

  datatype LadderConfig = LadderConfig(numLevels: int, levelSpacing: real, maxPerSide: real) {
    function Levels(): nat { MaxInt(0, numLevels) }
  }

  function Taper(level: nat): real {
    if level == 0 then 0.5 else if level == 1 then 0.3 else 0.2
  }

  /** One side of one market: what a ladder is built around. */
  datatype Rail = Rail(market: int, side: Side, mid: real, spread: real)

  datatype Bids = Bids(orders: seq<Order>, spent: real, done: bool)

  function BidAt(config: LadderConfig, rail: Rail, level: nat): real {
    rail.mid - rail.spread - Times(level as real, config.levelSpacing)
  }

  /** What a level may spend. */
  function Dollars(config: LadderConfig, scale: real, level: nat): real { config.maxPerSide * Taper(level) * scale }

  function BidQty(config: LadderConfig, bid: real, room: real, scale: real, level: nat): int
    requires bid > 0.0
  {
    Trunc(Min(Dollars(config, scale, level), room) / bid)
  }

  function Bid(config: LadderConfig, rail: Rail, budget: real, scale: real, level: nat, t: Bids): Bids {
    var bid := BidAt(config, rail, level);
    if t.done then t
    else if bid < 0.01 || budget - t.spent <= 0.0 then t.(done := true)
    else
      var quantity := BidQty(config, bid, budget - t.spent, scale, level);
      if quantity > 0
      then Bids(t.orders + [AtPrice(rail.side, rail.market, bid, quantity)], t.spent + Times(quantity as real, bid),
                false)
      else t
  }

  /** The ladder after its first `n` levels. */
  function BuyLadder(config: LadderConfig, rail: Rail, budget: real, scale: real, n: nat): Bids {
    if n == 0 then Bids([], 0.0, false)
    else Bid(config, rail, budget, scale, n - 1, BuyLadder(config, rail, budget, scale, n - 1))
  }

  lemma {:induction false} BuyLadderStops(config: LadderConfig, rail: Rail, budget: real, scale: real, n: nat, m: nat)
    requires n <= m && BuyLadder(config, rail, budget, scale, n).done
    ensures BuyLadder(config, rail, budget, scale, m) == BuyLadder(config, rail, budget, scale, n)
  {
    if n < m {
      BuyLadderStops(config, rail, budget, scale, n, m - 1);
    }
  }

  method BuyOrders(config: LadderConfig, rail: Rail, budget: real, scale: real) returns (orders: seq<Order>)
    ensures orders == BuyLadder(config, rail, budget, scale, config.Levels()).orders
  {
    orders := [];
    var spent, level := 0.0, 0;
    while level < config.numLevels
      invariant 0 <= level <= config.Levels()
      invariant BuyLadder(config, rail, budget, scale, level) == Bids(orders, spent, false)
    {
      assert BuyLadder(config, rail, budget, scale, level + 1)
             == Bid(config, rail, budget, scale, level, Bids(orders, spent, false));
      var bid := BidAt(config, rail, level);
      if bid < 0.01 {
        BuyLadderStops(config, rail, budget, scale, level + 1, config.Levels());
        break;
      }
      var room := budget - spent;
      if room <= 0.0 {
        BuyLadderStops(config, rail, budget, scale, level + 1, config.Levels());
        break;
      }
      var quantity := BidQty(config, bid, room, scale, level);
      if quantity > 0 {
        orders := orders + [AtPrice(rail.side, rail.market, bid, quantity)];
        spent := spent + Times(quantity as real, bid);
      }
      level := level + 1;
    }
  }

  /** How far from the middle a level quotes. */
  function OffsetAt(config: LadderConfig, spread: real, level: nat): real {
    spread + Times(level as real, config.levelSpacing)
  }

  // Levels lie between the first and the last, whichever way they are spaced.
  lemma OffsetBetween(config: LadderConfig, spread: real, level: nat, last: nat)
    requires level <= last
    ensures OffsetAt(config, spread, level) >= Min(spread, OffsetAt(config, spread, last))
  {
    if config.levelSpacing >= 0.0 {
      MulLe(0.0, level as real, config.levelSpacing);
    } else {
      MulLe(level as real, last as real, -config.levelSpacing);
    }
  }

  /** Every level of the ladder is at least `margin` away from the middle. */
  predicate Clear(config: LadderConfig, spread: real, margin: real, n: nat) {
    n == 0 || (spread >= margin && OffsetAt(config, spread, n - 1) >= margin)
  }

  lemma ClearLevel(config: LadderConfig, spread: real, margin: real, n: nat, level: nat)
    requires Clear(config, spread, margin, n) && level < n
    ensures OffsetAt(config, spread, level) >= margin
  {
    OffsetBetween(config, spread, level, n - 1);
  }

  lemma BidCosts(side: Side, market: int, bid: real, quantity: int, room: real, dollars: real)
    requires side.IsBuy() && bid > 0.0 && quantity > 0 && quantity as real <= dollars / bid && dollars <= room
    ensures AtPrice(side, market, bid, quantity).Cost() <= Times(quantity as real, bid) <= room
  {
    AtPriceBounds(side, market, bid, quantity);
    QuotientCost(quantity as real, dollars, bid);
    TimesLimit(quantity as real, AtPrice(side, market, bid, quantity).Limit(), bid);
  }

  predicate Paid(rail: Rail, budget: real, t: Bids) {
    && TotalCost(t.orders) <= t.spent <= Max(0.0, budget)
    && OnlySide(t.orders, rail.side)
    && (forall order :: order in t.orders ==> order.quantity > 0)
  }

  lemma AddBid(rail: Rail, budget: real, t: Bids, order: Order, cost: real)
    requires Paid(rail, budget, t) && order.Cost() <= cost <= budget - t.spent
    requires order.side == rail.side && order.quantity > 0
    ensures Paid(rail, budget, Bids(t.orders + [order], t.spent + cost, false))
  {
    TotalCostConcat(t.orders, [order]);
    assert TotalCost([order]) == order.Cost() + TotalCost([]);
  }

  lemma BidIsPaid(config: LadderConfig, rail: Rail, budget: real, scale: real, level: nat, t: Bids)
    requires rail.side.IsBuy() && Paid(rail, budget, t)
    ensures Paid(rail, budget, Bid(config, rail, budget, scale, level, t))
  {
    var bid, room := BidAt(config, rail, level), budget - t.spent;
    if !t.done && bid >= 0.01 && room > 0.0 {
      var quantity := BidQty(config, bid, room, scale, level);
      if quantity > 0 {
        BidCosts(rail.side, rail.market, bid, quantity, room, Min(Dollars(config, scale, level), room));
        AddBid(rail, budget, t, AtPrice(rail.side, rail.market, bid, quantity), Times(quantity as real, bid));
      }
    }
  }

  /** However many levels and however spaced, the bids cost at most the side's
      budget. */
  lemma {:induction false} BuyLadderIsPaid(config: LadderConfig, rail: Rail, budget: real, scale: real, n: nat)
    requires rail.side.IsBuy()
    ensures Paid(rail, budget, BuyLadder(config, rail, budget, scale, n))
  {
    if n > 0 {
      BuyLadderIsPaid(config, rail, budget, scale, n - 1);
      BidIsPaid(config, rail, budget, scale, n - 1, BuyLadder(config, rail, budget, scale, n - 1));
    }
  }

  lemma AddApart(orders: seq<Order>, order: Order, market: int, yesMid: real)
    requires AllApart(orders, market, yesMid) && Apart(order, market, yesMid)
    ensures AllApart(orders + [order], market, yesMid)
  {
  }

  /** Bids of a ladder whose every level is below the middle are apart from it. */
  lemma {:induction false} BuyLadderApart(config: LadderConfig, rail: Rail, budget: real, scale: real, n: nat,
                                          yesMid: real)
    requires rail.side.IsBuy() && rail.mid == OutcomeMid(rail.side, yesMid)
    requires forall level: nat :: level < n ==> OffsetAt(config, rail.spread, level) > 0.0
    ensures AllApart(BuyLadder(config, rail, budget, scale, n).orders, rail.market, yesMid)
  {
    if n > 0 {
      var t := BuyLadder(config, rail, budget, scale, n - 1);
      BuyLadderApart(config, rail, budget, scale, n - 1, yesMid);
      BidStaysApart(config, rail, budget, scale, n - 1, t, yesMid);
    }
  }

  lemma BidStaysApart(config: LadderConfig, rail: Rail, budget: real, scale: real, level: nat, t: Bids, yesMid: real)
    requires rail.side.IsBuy() && rail.mid == OutcomeMid(rail.side, yesMid)
             && OffsetAt(config, rail.spread, level) > 0.0
    requires AllApart(t.orders, rail.market, yesMid)
    ensures AllApart(Bid(config, rail, budget, scale, level, t).orders, rail.market, yesMid)
  {
    var bid, room := BidAt(config, rail, level), budget - t.spent;
    if !t.done && bid >= 0.01 && room > 0.0 {
      var quantity := BidQty(config, bid, room, scale, level);
      BidApart(rail.side, rail.market, bid, quantity, yesMid);
      AddApart(t.orders, AtPrice(rail.side, rail.market, bid, quantity), rail.market, yesMid);
    }
  }

  datatype Asks = Asks(orders: seq<Order>, remaining: int, done: bool)

  function AskAt(config: LadderConfig, rail: Rail, level: nat): real {
    rail.mid + rail.spread + Times(level as real, config.levelSpacing)
  }

  function AskQty(held: int, remaining: int, level: nat): int {
    MaxInt(1, MinInt(Trunc(Times(held as real, Taper(level))), remaining))
  }

  function Ask(config: LadderConfig, rail: Rail, held: int, level: nat, t: Asks): Asks {
    var ask := AskAt(config, rail, level);
    if t.done then t
    else if ask > 0.99 || t.remaining <= 0 then t.(done := true)
    else
      var quantity := AskQty(held, t.remaining, level);
      Asks(t.orders + [AtPrice(rail.side, rail.market, ask, quantity)], t.remaining - quantity, false)
  }

  function SellLadder(config: LadderConfig, rail: Rail, held: int, n: nat): Asks {
    if n == 0 then Asks([], held, false)
    else Ask(config, rail, held, n - 1, SellLadder(config, rail, held, n - 1))
  }

  lemma {:induction false} SellLadderStops(config: LadderConfig, rail: Rail, held: int, n: nat, m: nat)
    requires n <= m && SellLadder(config, rail, held, n).done
    ensures SellLadder(config, rail, held, m) == SellLadder(config, rail, held, n)
  {
    if n < m {
      SellLadderStops(config, rail, held, n, m - 1);
    }
  }

  method SellOrders(config: LadderConfig, rail: Rail, held: int) returns (orders: seq<Order>)
    ensures orders == SellLadder(config, rail, held, config.Levels()).orders
  {
    orders := [];
    var remaining, level := held, 0;
    while level < config.numLevels
      invariant 0 <= level <= config.Levels()
      invariant SellLadder(config, rail, held, level) == Asks(orders, remaining, false)
    {
      var ask := AskAt(config, rail, level);
      if ask > 0.99 || remaining <= 0 {
        SellLadderStops(config, rail, held, level + 1, config.Levels());
        break;
      }
      var quantity := AskQty(held, remaining, level);
      orders := orders + [AtPrice(rail.side, rail.market, ask, quantity)];
      remaining := remaining - quantity;
      level := level + 1;
    }
  }

  predicate Stocked(rail: Rail, held: int, t: Asks) {
    && Sold(t.orders) + t.remaining == held
    && Sold(t.orders) <= MaxInt(0, held)
    && OnlySide(t.orders, rail.side)
    && (forall order :: order in t.orders ==> order.quantity > 0)
  }

  lemma AskIsStocked(config: LadderConfig, rail: Rail, held: int, level: nat, t: Asks)
    requires Stocked(rail, held, t)
    ensures Stocked(rail, held, Ask(config, rail, held, level, t))
  {
    var ask := AskAt(config, rail, level);
    if !t.done && ask <= 0.99 && t.remaining > 0 {
      var order := AtPrice(rail.side, rail.market, ask, AskQty(held, t.remaining, level));
      assert (t.orders + [order])[..|t.orders|] == t.orders;
    }
  }

  lemma NoAsksAreStocked(rail: Rail, held: int)
    ensures Stocked(rail, held, Asks([], held, false))
  {
    assert Sold([]) == 0;
  }

  /** What every rung keeps holds of the whole ladder. */
  lemma {:induction false} SellLadderKeeps(config: LadderConfig, rail: Rail, held: int, n: nat, p: Asks -> bool)
    requires p(Asks([], held, false))
    requires forall t, level: nat :: level < n && p(t) ==> p(Ask(config, rail, held, level, t))
    ensures p(SellLadder(config, rail, held, n))
  {
    if n > 0 {
      SellLadderKeeps(config, rail, held, n - 1, p);
    }
  }

  /** However many levels, the asks offer at most what the ladder was given. */
  lemma SellLadderIsStocked(config: LadderConfig, rail: Rail, held: int, n: nat)
    ensures Stocked(rail, held, SellLadder(config, rail, held, n))
  {
    var p := t => Stocked(rail, held, t);
    NoAsksAreStocked(rail, held);
    forall t, level: nat | level < n && p(t)
      ensures p(Ask(config, rail, held, level, t))
    {
      AskIsStocked(config, rail, held, level, t);
    }
    SellLadderKeeps(config, rail, held, n, p);
  }

  lemma AskStaysApart(config: LadderConfig, rail: Rail, held: int, level: nat, t: Asks, yesMid: real)
    requires !rail.side.IsBuy() && rail.mid == OutcomeMid(rail.side, yesMid) && rail.mid >= 0.0
    requires OffsetAt(config, rail.spread, level) >= NANO && AllApart(t.orders, rail.market, yesMid)
    ensures AllApart(Ask(config, rail, held, level, t).orders, rail.market, yesMid)
  {
    var ask := AskAt(config, rail, level);
    if !t.done && ask <= 0.99 && t.remaining > 0 {
      var quantity := AskQty(held, t.remaining, level);
      AskApart(rail.side, rail.market, ask, quantity, yesMid);
      AddApart(t.orders, AtPrice(rail.side, rail.market, ask, quantity), rail.market, yesMid);
    }
  }

  /** Asks of a ladder whose every level is a nano above the middle are apart from
      it. */
  lemma SellLadderApart(config: LadderConfig, rail: Rail, held: int, n: nat, yesMid: real)
    requires !rail.side.IsBuy() && rail.mid == OutcomeMid(rail.side, yesMid) && rail.mid >= 0.0
    requires Clear(config, rail.spread, NANO, n)
    ensures AllApart(SellLadder(config, rail, held, n).orders, rail.market, yesMid)
  {
    var p := (t: Asks) => AllApart(t.orders, rail.market, yesMid);
    forall t, level: nat | level < n && p(t)
      ensures p(Ask(config, rail, held, level, t))
    {
      ClearLevel(config, rail.spread, NANO, n, level);
      AskStaysApart(config, rail, held, level, t, yesMid);
    }
    SellLadderKeeps(config, rail, held, n, p);
  }

  // ------------------------------------------- how far in a bid ladder may lean

  /** The YES and the NO bids of one market around one middle. */
  function BothLadders(config: LadderConfig, market: int, spread: real, yesMid: real, budget: real,
                       scale: real): seq<Order> {
    BuyLadder(config, Rail(market, BuyYes, yesMid, spread), budget, scale, config.Levels()).orders
    + BuyLadder(config, Rail(market, BuyNo, 1.0 - yesMid, spread), budget, scale, config.Levels()).orders
  }

  lemma ApartIsUncrossed(orders: seq<Order>, market: int, yesMid: real)
    requires AllApart(orders, market, yesMid)
    ensures NoSelfTrade(orders)
  {
    assert [] + orders == orders;
    JoinMarket([], orders, market, yesMid);
  }

  lemma LevelDollars(config: LadderConfig, scale: real, level: nat, bid: real)
    requires Times(config.maxPerSide, scale) == 5.0 * bid && bid > 0.0
    ensures bid <= Dollars(config, scale, level) <= 2.5 * bid
  {
    var a := config.maxPerSide;
    assert a * 0.5 * scale == 0.5 * Times(a, scale);
    assert a * 0.3 * scale == 0.3 * Times(a, scale);
    assert a * 0.2 * scale == 0.2 * Times(a, scale);
  }

  lemma BidSpends(config: LadderConfig, rail: Rail, budget: real, scale: real, level: nat, t: Bids, unit: real)
    requires !t.done && BidAt(config, rail, level) >= 0.01 && budget - t.spent > 0.0
    requires 0.0 <= Dollars(config, scale, level) <= unit
    ensures var after := Bid(config, rail, budget, scale, level, t); !after.done && after.spent <= t.spent + unit
  {
    var bid, room := BidAt(config, rail, level), budget - t.spent;
    var quantity := BidQty(config, bid, room, scale, level);
    if quantity > 0 {
      QuotientCost(quantity as real, Min(Dollars(config, scale, level), room), bid);
    }
  }

  /** `unit` taken `n` times. */
  function Steps(n: nat, unit: real): real { if n == 0 then 0.0 else Steps(n - 1, unit) + unit }

  lemma {:induction false} StepsGrow(n: nat, m: nat, unit: real)
    requires n <= m && unit > 0.0
    ensures Steps(n, unit) <= Steps(m, unit)
  {
    if n < m {
      StepsGrow(n, m - 1, unit);
    }
  }

  // With a budget for every level, the ladder runs on and spends evenly.
  lemma {:induction false} LadderRunsOn(config: LadderConfig, rail: Rail, unit: real, budget: real, scale: real,
                                        n: nat, levels: nat)
    requires n <= levels && unit > 0.0 && budget == Steps(levels, unit)
    requires forall level: nat :: level < n ==>
               BidAt(config, rail, level) >= 0.01 && 0.0 <= Dollars(config, scale, level) <= unit
    ensures var t := BuyLadder(config, rail, budget, scale, n); !t.done && t.spent <= Steps(n, unit)
  {
    if n > 0 {
      LadderRunsOn(config, rail, unit, budget, scale, n - 1, levels);
      StepsGrow(n, levels, unit);
      BidSpends(config, rail, budget, scale, n - 1, BuyLadder(config, rail, budget, scale, n - 1), unit);
    }
  }

  predicate HasBid(orders: seq<Order>, side: Side, market: int, price: real) {
    exists order :: order in orders && order == AtPrice(side, market, price, order.quantity)
  }

  lemma BidIsPlaced(config: LadderConfig, rail: Rail, budget: real, scale: real, level: nat, t: Bids)
    requires var bid := BidAt(config, rail, level);
             !t.done && 0.01 <= bid <= budget - t.spent && bid <= Dollars(config, scale, level)
    ensures HasBid(Bid(config, rail, budget, scale, level, t).orders, rail.side, rail.market,
                   BidAt(config, rail, level))
  {
    var bid, room := BidAt(config, rail, level), budget - t.spent;
    AtLeastOne(Min(Dollars(config, scale, level), room), bid);
    var order := AtPrice(rail.side, rail.market, bid, BidQty(config, bid, room, scale, level));
    assert Bid(config, rail, budget, scale, level, t).orders == t.orders + [order];
    assert order in t.orders + [order] && order == AtPrice(rail.side, rail.market, bid, order.quantity);
  }

  lemma LastBid(config: LadderConfig, rail: Rail, budget: real, scale: real, levels: nat)
    requires levels >= 1
    requires forall level: nat :: level < levels ==> BidAt(config, rail, level) >= 0.01
    requires var top := BidAt(config, rail, levels - 1);
             Times(config.maxPerSide, scale) == 5.0 * top && budget == Steps(levels, 2.5 * top)
    ensures HasBid(BuyLadder(config, rail, budget, scale, levels).orders, rail.side, rail.market,
                   BidAt(config, rail, levels - 1))
  {
    var top := BidAt(config, rail, levels - 1);
    forall level: nat | level < levels
      ensures top <= Dollars(config, scale, level) <= 2.5 * top
    {
      LevelDollars(config, scale, level, top);
    }
    LadderRunsOn(config, rail, 2.5 * top, budget, scale, levels - 1, levels);
    BidIsPlaced(config, rail, budget, scale, levels - 1, BuyLadder(config, rail, budget, scale, levels - 1));
  }

  lemma AtLeastOne(dollars: real, price: real)
    requires dollars >= price > 0.0
    ensures Trunc(dollars / price) >= 1
  {
    assert Times(1.0, price) == price;
    CostQuotient(1.0, dollars, price);
  }

  /** For every middle, budget and size the bids of both sides stay apart exactly
      when the last level still lies below the middle. */
  lemma LadderBidsExactly(config: LadderConfig, market: int, spread: real)
    requires config.Levels() >= 1 && config.maxPerSide > 0.0 && 0.0 < spread <= 0.49
    ensures (forall yesMid, budget, scale :: 0.05 <= yesMid <= 0.95 ==>
               NoSelfTrade(BothLadders(config, market, spread, yesMid, budget, scale)))
       <==> OffsetAt(config, spread, config.Levels() - 1) > 0.0
  {
    if OffsetAt(config, spread, config.Levels() - 1) > 0.0 {
      forall yesMid, budget, scale | 0.05 <= yesMid <= 0.95
        ensures NoSelfTrade(BothLadders(config, market, spread, yesMid, budget, scale))
      {
        BothLaddersApart(config, market, spread, yesMid, budget, scale);
      }
    } else {
      var top := 0.5 - OffsetAt(config, spread, config.Levels() - 1);
      var scale, budget := 5.0 * top / config.maxPerSide, Steps(config.Levels(), 2.5 * top);
      assert Times(config.maxPerSide, scale) == 5.0 * top;
      LeaningLaddersCross(config, market, spread, budget, scale);
      assert !NoSelfTrade(BothLadders(config, market, spread, 0.5, budget, scale));
    }
  }

  lemma BothLaddersApart(config: LadderConfig, market: int, spread: real, yesMid: real, budget: real, scale: real)
    requires config.Levels() >= 1 && spread > 0.0 && OffsetAt(config, spread, config.Levels() - 1) > 0.0
    ensures NoSelfTrade(BothLadders(config, market, spread, yesMid, budget, scale))
  {
    forall level: nat | level < config.Levels()
      ensures OffsetAt(config, spread, level) > 0.0
    {
      OffsetBetween(config, spread, level, config.Levels() - 1);
    }
    BuyLadderApart(config, Rail(market, BuyYes, yesMid, spread), budget, scale, config.Levels(), yesMid);
    BuyLadderApart(config, Rail(market, BuyNo, 1.0 - yesMid, spread), budget, scale, config.Levels(), yesMid);
    ApartIsUncrossed(BothLadders(config, market, spread, yesMid, budget, scale), market, yesMid);
  }

  lemma LeaningLaddersCross(config: LadderConfig, market: int, spread: real, budget: real, scale: real)
    requires config.Levels() >= 1 && 0.0 < spread <= 0.49 && OffsetAt(config, spread, config.Levels() - 1) <= 0.0
    requires var top := 0.5 - OffsetAt(config, spread, config.Levels() - 1);
             Times(config.maxPerSide, scale) == 5.0 * top && budget == Steps(config.Levels(), 2.5 * top)
    ensures !NoSelfTrade(BothLadders(config, market, spread, 0.5, budget, scale))
  {
    var yes, no, levels := Rail(market, BuyYes, 0.5, spread), Rail(market, BuyNo, 0.5, spread), config.Levels();
    forall level: nat | level < levels
      ensures BidAt(config, yes, level) >= 0.01 && BidAt(config, no, level) >= 0.01
    {
      LeanInward(config, spread, level, levels - 1);
    }
    LastBid(config, yes, budget, scale, levels);
    LastBid(config, no, budget, scale, levels);
    var top := BidAt(config, yes, levels - 1);
    BidsMeet(BuyLadder(config, yes, budget, scale, levels).orders, BuyLadder(config, no, budget, scale, levels).orders,
             market, top);
  }

  lemma BidsMeet(yes: seq<Order>, no: seq<Order>, market: int, bid: real)
    requires HasBid(yes, BuyYes, market, bid) && HasBid(no, BuyNo, market, bid) && bid >= 0.5
    ensures !NoSelfTrade(yes + no)
  {
    var a :| a in yes && a == AtPrice(BuyYes, market, bid, a.quantity);
    var b :| b in no && b == AtPrice(BuyNo, market, bid, b.quantity);
    assert a in yes + no && b in yes + no && Crosses(a, b);
  }

  lemma LeanInward(config: LadderConfig, spread: real, level: nat, last: nat)
    requires level <= last && OffsetAt(config, spread, last) <= 0.0 < spread
    ensures OffsetAt(config, spread, level) <= spread
  {
    if config.levelSpacing > 0.0 {
      MulLe(0.0, last as real, config.levelSpacing);
    } else {
      MulLe(0.0, level as real, -config.levelSpacing);
    }
  }
}
