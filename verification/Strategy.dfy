/** Sizing: freshness decay, the Kelly and Flat targets, and the orders that move
    a position to its target (arena/live/strategy.py). `decay` stands for
    `0.5 ** x`. */
module Strategy {
  import opened Wrappers
  import opened Reals
  import opened Orders

  const RESOLVED_HIGH: real := 0.95
  const RESOLVED_LOW: real := 0.05

  predicate IsResolved(price: real) { price >= RESOLVED_HIGH || price <= RESOLVED_LOW }

  function Clamp01(x: real): real { Min(1.0, Max(0.0, x)) }

  // --------------------------------------------------------------- freshness

  datatype Freshness = Freshness(ttl: real, halfLife: real, hardExpiry: real) {
    predicate Valid() { ttl >= 0.0 && halfLife > 0.0 && hardExpiry >= ttl }
  }

  datatype FreshFairValue = FreshFairValue(raw: real, effective: Option<real>, age: real, factor: real)

  function EffectiveFairValue(raw: real, price: real, age: real, config: Freshness, decay: real -> real): FreshFairValue
    requires config.Valid()
  {
    var age := Max(0.0, age);
    var raw, market := Clamp01(raw), Clamp01(price);
    if age >= config.hardExpiry then FreshFairValue(raw, None, age, 0.0)
    else if age <= config.ttl then FreshFairValue(raw, Some(raw), age, 1.0)
    else
      var factor := decay((age - config.ttl) / config.halfLife);
      FreshFairValue(raw, Some(Clamp01(market + Times(raw - market, factor))), age, factor)
  }

  // ------------------------------------------------------------------- Kelly

  datatype Kelly = Kelly(fraction: real, minEdge: real, exitEdge: real, maxPositionFrac: real)

  /** `confidence` and `factor` shrink the bet. */
  function Shrink(confidence: Option<real>, factor: real): real {
    var shrink := Clamp01(factor);
    Min(1.0, if confidence.None? then shrink else Times(shrink, Clamp01(confidence.value)))
  }

  /** Shares of the side priced `own` when the other side is priced `other`. */
  function KellyShares(k: Kelly, edge: real, own: real, other: real, value: real, shrink: real): int
    requires own > 0.0 && other > 0.0
  {
    var bet := Times(Times(Times(edge / other, k.fraction), shrink), value);
    MaxInt(Trunc(Min(bet, Times(k.maxPositionFrac, value)) / own), 0)
  }

  function KellyTarget(k: Kelly, fairValue: real, price: real, value: real, yes: int, no: int,
                       confidence: Option<real>, factor: real): (int, int)
  {
    if IsResolved(price) then (0, 0)
    else
      var edge := fairValue - price;
      if Abs(edge) < k.exitEdge then (0, 0)
      else if Abs(edge) < k.minEdge then (yes, no)
      else if edge > 0.0 then (KellyShares(k, edge, price, 1.0 - price, value, Shrink(confidence, factor)), 0)
      else (0, KellyShares(k, Abs(edge), 1.0 - price, price, value, Shrink(confidence, factor)))
  }

  // -------------------------------------------------------------------- Flat

  datatype Flat = Flat(betDollars: real, minEdge: real, exitAdverseFrac: real)

  predicate AdverseYes(flat: Flat, entry: real, price: real) {
    entry > 0.0 && (entry - price) / entry >= flat.exitAdverseFrac
  }

  predicate AdverseNo(flat: Flat, entry: real, price: real) {
    entry < 1.0 && (price - entry) / (1.0 - entry) >= flat.exitAdverseFrac
  }

  function FlatShares(flat: Flat, own: real): int
    requires own > 0.0
  {
    MaxInt(Trunc(flat.betDollars / own), 0)
  }

  /** Must a held position be closed outright? */
  predicate MustExit(flat: Flat, entry: real, edge: real, price: real, yes: int, no: int) {
    || (yes > 0 && AdverseYes(flat, entry, price))
    || (no > 0 && AdverseNo(flat, entry, price))
    || (yes > 0 && edge < -flat.minEdge)
    || (no > 0 && edge > flat.minEdge)
  }

  /** The target, and the entry price remembered afterwards. */
  function FlatTarget(flat: Flat, stored: Option<real>, fairValue: real, price: real, yes: int, no: int)
    : ((int, int), Option<real>)
  {
    if IsResolved(price) then ((0, 0), None)
    else
      var edge := fairValue - price;
      var holding := yes > 0 || no > 0;
      var entry := if stored.Some? then stored.value else price;
      var kept := if holding then Some(entry) else None;
      if holding && MustExit(flat, entry, edge, price, yes, no) then ((0, 0), None)
      else if Abs(edge) < flat.minEdge then ((yes, no), kept)
      else if edge > 0.0 && yes > 0 then ((yes, 0), kept)
      else if edge < 0.0 && no > 0 then ((0, no), kept)
      else if edge > 0.0 then ((FlatShares(flat, price), 0), kept)
      else ((0, FlatShares(flat, 1.0 - price)), kept)
  }

  function EntryOf(entries: map<int, real>, market: int): Option<real> {
    if market in entries then Some(entries[market]) else None
  }

  function WithEntry(entries: map<int, real>, market: int, entry: Option<real>): map<int, real> {
    if entry.Some? then entries[market := entry.value] else entries - {market}
  }

  datatype Sizer = KellySizer(kelly: Kelly) | FlatSizer(flat: Flat)

  /** Either strategy's target, with the entry price remembered afterwards. */
  function SizerTarget(sizer: Sizer, stored: Option<real>, fairValue: real, price: real, value: real, yes: int, no: int,
                       confidence: Option<real>, factor: real): ((int, int), Option<real>)
  {
    match sizer
    case KellySizer(k) => (KellyTarget(k, fairValue, price, value, yes, no, confidence, factor), stored)
    case FlatSizer(flat) => FlatTarget(flat, stored, fairValue, price, yes, no)
  }

  /** The stateful strategy: entry prices are kept per market. */
  class FlatStrategy {
    const config: Flat
    var entryPrices: map<int, real>

    constructor (config: Flat)
      ensures this.config == config && entryPrices == map[]
    {
      this.config := config;
      entryPrices := map[];
    }

    method ForgetEntry(market: int)
      modifies this
      ensures entryPrices == old(entryPrices) - {market}
    {
      entryPrices := entryPrices - {market};
    }

    method Target(fairValue: real, price: real, yes: int, no: int, market: int) returns (target: (int, int))
      modifies this
      ensures var (expected, entry) := FlatTarget(config, EntryOf(old(entryPrices), market), fairValue, price, yes, no);
              target == expected && entryPrices == WithEntry(old(entryPrices), market, entry)
    {
      if IsResolved(price) {
        ForgetEntry(market);
        return (0, 0);
      }
      var edge := fairValue - price;
      var entry := price;
      if yes > 0 || no > 0 {
        if market in entryPrices {
          entry := entryPrices[market];
        } else {
          entryPrices := entryPrices[market := price];
        }
      } else {
        ForgetEntry(market);
      }
      if yes > 0 && entry > 0.0 && (entry - price) / entry >= config.exitAdverseFrac {
        ForgetEntry(market);
        return (0, 0);
      }
      if no > 0 && entry < 1.0 && (price - entry) / (1.0 - entry) >= config.exitAdverseFrac {
        ForgetEntry(market);
        return (0, 0);
      }
      if yes > 0 && edge < -config.minEdge {
        ForgetEntry(market);
        return (0, 0);
      }
      if no > 0 && edge > config.minEdge {
        ForgetEntry(market);
        return (0, 0);
      }
      if Abs(edge) < config.minEdge {
        return (yes, no);
      }
      if edge > 0.0 && yes > 0 {
        return (yes, 0);
      }
      if edge < 0.0 && no > 0 {
        return (0, no);
      }
      if edge > 0.0 {
        return (FlatShares(config, price), 0);
      }
      return (0, FlatShares(config, 1.0 - price));
    }
  }

  // ------------------------------------------------------------------ orders

  function ExitOrders(side: Side, market: int, price: real, target: int, current: int): seq<Order> {
    if target == 0 && current > 0 then [AtPrice(side, market, price, current)] else []
  }

  function TrimOrders(side: Side, market: int, price: real, target: int, current: int): seq<Order> {
    if target > 0 && current > target then [AtPrice(side, market, price, current - target)] else []
  }

  function Affordable(cash: real, price: real): int {
    if price > 0.0 then Trunc(cash / price) else 0
  }

  function BuyOrders(side: Side, market: int, price: real, target: int, current: int, cash: real): seq<Order> {
    if target > current && MinInt(target - current, Affordable(cash, price)) > 0
    then [AtPrice(side, market, price, MinInt(target - current, Affordable(cash, price)))]
    else []
  }

  /** Full exits, then trims, then buys; at most one of them arises per side. */
  function PositionOrders(market: int, targetYes: int, targetNo: int, yes: int, no: int,
                          fairValue: real, price: real, cash: real): seq<Order>
  {
    ExitOrders(SellYes, market, price, targetYes, yes)
    + ExitOrders(SellNo, market, 1.0 - price, targetNo, no)
    + TrimOrders(SellYes, market, price, targetYes, yes)
    + TrimOrders(SellNo, market, 1.0 - price, targetNo, no)
    + BuyOrders(BuyYes, market, fairValue, targetYes, yes, cash)
    + BuyOrders(BuyNo, market, 1.0 - fairValue, targetNo, no, cash)
  }
}
