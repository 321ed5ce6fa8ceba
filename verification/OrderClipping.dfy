/** How the simulator's LLM trader clips its orders to what it can afford and holds
    (arena/sim/llm_trader.py). */
module OrderClipping {
  import opened Reals
  import opened Orders

  /** What is left to sell and to spend while a list is clipped. */
  datatype Desk = Desk(yes: int, no: int, cash: real)

  function PortfolioValue(desk: Desk, yesNanos: int): real {
    var price := yesNanos as real / NANOS_PER_DOLLAR as real;
    desk.cash + Times(desk.yes as real, price) + Times(desk.no as real, 1.0 - price)
  }

  /** No single purchase may exceed a quarter of the portfolio. */
  function OrderCap(desk: Desk, yesNanos: int): real { PortfolioValue(desk, yesNanos) * 0.25 }

  function ClipPrice(order: Order): real { Max(0.01, Min(0.99, order.Limit())) }

  /** Capped by concentration, then by cash. */
  function BuyQty(quantity: int, price: real, cap: real, cash: real): int
    requires price > 0.0
  {
    var capped := MinInt(quantity, Trunc(cap / price));
    if Times(capped as real, price) > cash then Trunc(cash / price) else capped
  }

  function ClipQty(order: Order, desk: Desk, cap: real): int {
    match order.side
    case SellYes => MinInt(order.quantity, desk.yes)
    case SellNo => MinInt(order.quantity, desk.no)
    case BuyYes => BuyQty(order.quantity, ClipPrice(order), cap, desk.cash)
    case BuyNo => BuyQty(order.quantity, ClipPrice(order), cap, desk.cash)
  }

  function After(order: Order, desk: Desk, cap: real): Desk {
    var quantity := ClipQty(order, desk, cap);
    match order.side
    case SellYes => desk.(yes := desk.yes - quantity)
    case SellNo => desk.(no := desk.no - quantity)
    case BuyYes => desk.(cash := desk.cash - Times(quantity as real, ClipPrice(order)))
    case BuyNo => desk.(cash := desk.cash - Times(quantity as real, ClipPrice(order)))
  }

  function Clipped(market: int, order: Order, desk: Desk, cap: real): seq<Order> {
    var quantity := ClipQty(order, desk, cap);
    if quantity <= 0 then [] else [AtPrice(order.side, market, ClipPrice(order), quantity)]
  }

  function Clip(market: int, orders: seq<Order>, desk: Desk, cap: real): seq<Order>
    decreases |orders|
  {
    if orders == [] then []
    else Clipped(market, orders[0], desk, cap) + Clip(market, orders[1..], After(orders[0], desk, cap), cap)
  }

  /** The whole validation: the cap is a quarter of the portfolio at the start. */
  function Validated(market: int, orders: seq<Order>, desk: Desk, yesNanos: int): seq<Order> {
    Clip(market, orders, desk, OrderCap(desk, yesNanos))
  }

  /** One pass of the loop: the order as kept, if it is, and the desk it leaves. */
  method ClipOne(market: int, order: Order, desk: Desk, cap: real) returns (kept: seq<Order>, next: Desk)
    ensures kept == Clipped(market, order, desk, cap) && next == After(order, desk, cap)
  {
    var price := Max(0.01, Min(0.99, order.Limit()));
    var quantity := order.quantity;
    next, kept := desk, [];
    if order.side == SellYes {
      quantity := MinInt(quantity, next.yes);
      next := next.(yes := next.yes - quantity);
    } else if order.side == SellNo {
      quantity := MinInt(quantity, next.no);
      next := next.(no := next.no - quantity);
    } else {
      quantity := MinInt(quantity, Trunc(cap / price));
      if Times(quantity as real, price) > next.cash {
        quantity := Trunc(next.cash / price);
      }
      next := next.(cash := next.cash - Times(quantity as real, price));
    }
    if quantity > 0 {
      kept := [AtPrice(order.side, market, price, quantity)];
    }
  }

  /** The orders kept and the desk left after the first `n`. */
  function ClipFirst(market: int, orders: seq<Order>, desk: Desk, cap: real, n: nat): (seq<Order>, Desk)
    requires n <= |orders|
  {
    if n == 0 then ([], desk)
    else
      var (valid, now) := ClipFirst(market, orders, desk, cap, n - 1);
      (valid + Clipped(market, orders[n - 1], now, cap), After(orders[n - 1], now, cap))
  }

  lemma Regroup(valid: seq<Order>, first: seq<Order>, rest: seq<Order>)
    ensures valid + (first + rest) == (valid + first) + rest
  {
  }

  lemma FirstOf(orders: seq<Order>, n: nat)
    requires n < |orders|
    ensures orders[n..][0] == orders[n] && orders[n..][1..] == orders[n + 1..]
  {
  }

  lemma {:induction false} ClipSplits(market: int, orders: seq<Order>, desk: Desk, cap: real, n: nat)
    requires n <= |orders|
    ensures var (valid, now) := ClipFirst(market, orders, desk, cap, n);
            Clip(market, orders, desk, cap) == valid + Clip(market, orders[n..], now, cap)
  {
    if n == 0 {
      assert orders[0..] == orders;
    } else {
      var (valid, now) := ClipFirst(market, orders, desk, cap, n - 1);
      ClipSplits(market, orders, desk, cap, n - 1);
      var first := Clipped(market, orders[n - 1], now, cap);
      var rest := Clip(market, orders[n..], After(orders[n - 1], now, cap), cap);
      FirstOf(orders, n - 1);
      Regroup(valid, first, rest);
    }
  }

  lemma ClipAll(market: int, orders: seq<Order>, desk: Desk, cap: real)
    ensures Clip(market, orders, desk, cap) == ClipFirst(market, orders, desk, cap, |orders|).0
  {
    ClipSplits(market, orders, desk, cap, |orders|);
    assert orders[|orders|..] == [];
  }

  method ClipOrders(market: int, orders: seq<Order>, desk: Desk, cap: real) returns (valid: seq<Order>)
    ensures valid == Clip(market, orders, desk, cap)
  {
    var now, i := desk, 0;
    valid := [];
    while i < |orders|
      invariant 0 <= i <= |orders|
      invariant ClipFirst(market, orders, desk, cap, i) == (valid, now)
    {
      var kept, next := ClipOne(market, orders[i], now, cap);
      valid, now := valid + kept, next;
      i := i + 1;
    }
    ClipAll(market, orders, desk, cap);
  }

  // -------------------------------------------------------------- one order

  predicate Funded(desk: Desk) { desk.yes >= 0 && desk.no >= 0 && desk.cash >= 0.0 }

  predicate NonNegative(orders: seq<Order>) { forall order :: order in orders ==> order.quantity >= 0 }

  predicate Affords(n: int, quantity: int, price: real, cap: real, cash: real) {
    n <= quantity && Times(n as real, price) <= cap && Times(n as real, price) <= cash
  }

  /** The clipped purchase is the largest that fits the order, the cap and the cash. */
  lemma BuyQtyIsLargest(quantity: int, price: real, cap: real, cash: real)
    requires quantity >= 0 && price > 0.0 && cap >= 0.0 && cash >= 0.0
    ensures var q := BuyQty(quantity, price, cap, cash);
            && 0 <= q && Affords(q, quantity, price, cap, cash)
            && forall n :: Affords(n, quantity, price, cap, cash) ==> n <= q
  {
    QuotientSign(cap, price);
    QuotientSign(cash, price);
    var capped, q := MinInt(quantity, Trunc(cap / price)), BuyQty(quantity, price, cap, cash);
    QuotientCost(capped as real, cap, price);
    if Times(capped as real, price) > cash {
      QuotientCost(q as real, cash, price);
      if q > capped {
        TimesLt(capped as real, q as real, price);
        assert false;
      }
      TimesLe(q as real, capped as real, price);
    }
    forall n | Affords(n, quantity, price, cap, cash)
      ensures n <= q
    {
      CostQuotient(n as real, cap, price);
      CostQuotient(n as real, cash, price);
    }
  }

  lemma ClipQtyFits(order: Order, desk: Desk, cap: real)
    requires Funded(desk) && order.quantity >= 0 && cap >= 0.0
    ensures 0 <= ClipQty(order, desk, cap) <= order.quantity && Funded(After(order, desk, cap))
  {
    if order.side.IsBuy() {
      BuyQtyIsLargest(order.quantity, ClipPrice(order), cap, desk.cash);
    }
  }

  /** A clipped price is a whole number of nanos, so truncation leaves it alone. */
  lemma ClipPriceExact(market: int, order: Order, quantity: int)
    ensures var clipped := AtPrice(order.side, market, ClipPrice(order), quantity);
            && clipped.Limit() == ClipPrice(order) == ClipPrice(clipped)
            && 10_000_000 <= clipped.nanos <= 990_000_000
  {
    var nanos := MaxInt(10_000_000, MinInt(990_000_000, order.nanos));
    assert ClipPrice(order) * NANOS_PER_DOLLAR as real == nanos as real;
  }

  // ------------------------------------------------------------- whole lists

  predicate Modest(order: Order, market: int, cap: real) {
    && order.market == market && order.quantity > 0
    && 10_000_000 <= order.nanos <= 990_000_000
    && (order.side.IsBuy() ==> order.Cost() <= cap)
  }

  /** Sales within the holdings, purchases within the cash, every order modest. */
  predicate Safe(valid: seq<Order>, market: int, desk: Desk, cap: real) {
    && Sold(Of(valid, SellYes)) <= desk.yes
    && Sold(Of(valid, SellNo)) <= desk.no
    && TotalCost(valid) <= desk.cash
    && forall order :: order in valid ==> Modest(order, market, cap)
  }

  lemma ClippedIsModest(market: int, order: Order, desk: Desk, cap: real)
    requires Funded(desk) && order.quantity >= 0 && cap >= 0.0
    ensures var first := Clipped(market, order, desk, cap);
            && (forall x :: x in first ==> Modest(x, market, cap))
            && Sold(Of(first, SellYes)) == desk.yes - After(order, desk, cap).yes
            && Sold(Of(first, SellNo)) == desk.no - After(order, desk, cap).no
            && TotalCost(first) == desk.cash - After(order, desk, cap).cash
  {
    var quantity := ClipQty(order, desk, cap);
    ClipQtyFits(order, desk, cap);
    ClipPriceExact(market, order, quantity);
    if order.side.IsBuy() {
      BuyQtyIsLargest(order.quantity, ClipPrice(order), cap, desk.cash);
    }
    if quantity > 0 {
      var x := AtPrice(order.side, market, ClipPrice(order), quantity);
      assert Clipped(market, order, desk, cap) == [x];
      OneOrder(x);
    }
  }

  lemma OneOrder(x: Order)
    ensures Sold([x]) == x.quantity && TotalCost([x]) == x.Cost()
    ensures Of([x], x.side) == [x] && forall side :: side != x.side ==> Of([x], side) == []
  {
    assert [x][..0] == [];
    assert [x][1..] == [];
  }

  lemma JoinSafe(first: seq<Order>, rest: seq<Order>, market: int, desk: Desk, next: Desk, cap: real)
    requires Safe(rest, market, next, cap) && forall x :: x in first ==> Modest(x, market, cap)
    requires Sold(Of(first, SellYes)) == desk.yes - next.yes && Sold(Of(first, SellNo)) == desk.no - next.no
    requires TotalCost(first) == desk.cash - next.cash
    ensures Safe(first + rest, market, desk, cap)
  {
    OfConcat(first, rest, SellYes);
    SoldConcat(Of(first, SellYes), Of(rest, SellYes));
    OfConcat(first, rest, SellNo);
    SoldConcat(Of(first, SellNo), Of(rest, SellNo));
    TotalCostConcat(first, rest);
  }

  lemma {:induction false} ClipIsSafe(market: int, orders: seq<Order>, desk: Desk, cap: real)
    requires Funded(desk) && NonNegative(orders) && cap >= 0.0
    ensures Safe(Clip(market, orders, desk, cap), market, desk, cap)
    decreases |orders|
  {
    if orders != [] {
      var next := After(orders[0], desk, cap);
      ClipQtyFits(orders[0], desk, cap);
      ClipIsSafe(market, orders[1..], next, cap);
      ClippedIsModest(market, orders[0], desk, cap);
      JoinSafe(Clipped(market, orders[0], desk, cap), Clip(market, orders[1..], next, cap), market, desk, next, cap);
    }
  }

  // ------------------------------------------------------------- idempotence

  /** An order that was clipped once is left alone, and leaves the same desk. */
  lemma ClippedStays(market: int, order: Order, desk: Desk, cap: real)
    requires Funded(desk) && order.quantity >= 0 && cap >= 0.0
    requires ClipQty(order, desk, cap) > 0
    ensures var x := AtPrice(order.side, market, ClipPrice(order), ClipQty(order, desk, cap));
            Clipped(market, x, desk, cap) == [x] && After(x, desk, cap) == After(order, desk, cap)
  {
    var quantity := ClipQty(order, desk, cap);
    var x := AtPrice(order.side, market, ClipPrice(order), quantity);
    ClipPriceExact(market, order, quantity);
    if order.side.IsBuy() {
      BuyQtyIsLargest(order.quantity, ClipPrice(order), cap, desk.cash);
      BuyQtyIsLargest(quantity, ClipPrice(order), cap, desk.cash);
      assert Affords(quantity, quantity, ClipPrice(order), cap, desk.cash);
    }
    assert ClipQty(x, desk, cap) == quantity;
  }

  lemma DroppedLeavesDesk(order: Order, desk: Desk, cap: real)
    requires Funded(desk) && order.quantity >= 0 && cap >= 0.0 && ClipQty(order, desk, cap) <= 0
    ensures After(order, desk, cap) == desk
  {
    ClipQtyFits(order, desk, cap);
  }

  lemma {:induction false} ClipIsIdempotent(market: int, orders: seq<Order>, desk: Desk, cap: real)
    requires Funded(desk) && NonNegative(orders) && cap >= 0.0
    ensures Clip(market, Clip(market, orders, desk, cap), desk, cap) == Clip(market, orders, desk, cap)
    decreases |orders|
  {
    if orders != [] {
      var order, rest, next := orders[0], orders[1..], After(orders[0], desk, cap);
      ClipQtyFits(order, desk, cap);
      ClipIsIdempotent(market, rest, next, cap);
      var clippedRest := Clip(market, rest, next, cap);
      if ClipQty(order, desk, cap) > 0 {
        ClippedStays(market, order, desk, cap);
        var x := AtPrice(order.side, market, ClipPrice(order), ClipQty(order, desk, cap));
        assert ([x] + clippedRest)[1..] == clippedRest;
        assert Clip(market, [x] + clippedRest, desk, cap) == [x] + Clip(market, clippedRest, next, cap);
      } else {
        DroppedLeavesDesk(order, desk, cap);
        assert [] + clippedRest == clippedRest;
      }
    }
  }

  // ------------------------------------------------------------ chosen orders

  /** The orders that pass a test, in order. */
  function Kept(orders: seq<Order>, keep: Order -> bool): seq<Order> {
    if orders == [] then []
    else
      var last := orders[|orders| - 1];
      Kept(orders[..|orders| - 1], keep) + (if keep(last) then [last] else [])
  }

  lemma {:induction false} KeptAreOrders(orders: seq<Order>, keep: Order -> bool)
    ensures forall order :: order in Kept(orders, keep) <==> order in orders && keep(order)
  {
    if orders != [] {
      var front, last := orders[..|orders| - 1], orders[|orders| - 1];
      KeptAreOrders(front, keep);
      assert orders == front + [last];
    }
  }

  lemma Concatenated(a: seq<Order>, b: seq<Order>, side: Side)
    ensures Sold(Of(a + b, side)) == Sold(Of(a, side)) + Sold(Of(b, side))
  {
    OfConcat(a, b, side);
    SoldConcat(Of(a, side), Of(b, side));
  }

  lemma {:induction false} KeptSellLess(orders: seq<Order>, keep: Order -> bool, side: Side)
    requires NonNegative(orders)
    ensures Sold(Of(Kept(orders, keep), side)) <= Sold(Of(orders, side))
  {
    if orders != [] {
      var front, last := orders[..|orders| - 1], orders[|orders| - 1];
      KeptSellLess(front, keep, side);
      assert orders == front + [last];
      Concatenated(front, [last], side);
      Concatenated(Kept(front, keep), if keep(last) then [last] else [], side);
      OneOrder(last);
    }
  }

  lemma {:induction false} KeptCostLess(orders: seq<Order>, keep: Order -> bool)
    requires forall order :: order in orders ==> order.Cost() >= 0.0
    ensures TotalCost(Kept(orders, keep)) <= TotalCost(orders)
  {
    if orders != [] {
      var front, last := orders[..|orders| - 1], orders[|orders| - 1];
      KeptCostLess(front, keep);
      assert orders == front + [last];
      TotalCostConcat(front, [last]);
      TotalCostConcat(Kept(front, keep), if keep(last) then [last] else []);
      OneOrder(last);
    }
  }

  lemma ModestCosts(order: Order, market: int, cap: real)
    requires Modest(order, market, cap)
    ensures order.Cost() >= 0.0
  {
    TimesLe(0.0, order.quantity as real, order.Limit());
    TimesSmall(order.Limit());
  }

  /** Dropping orders from a safe list leaves a safe one. */
  lemma KeptIsSafe(valid: seq<Order>, keep: Order -> bool, market: int, desk: Desk, cap: real)
    requires Safe(valid, market, desk, cap)
    ensures Safe(Kept(valid, keep), market, desk, cap)
  {
    forall order | order in valid
      ensures order.Cost() >= 0.0
    {
      ModestCosts(order, market, cap);
    }
    KeptSellLess(valid, keep, SellYes);
    KeptSellLess(valid, keep, SellNo);
    KeptCostLess(valid, keep);
    KeptAreOrders(valid, keep);
  }

  /** The desk once the sales of `orders` are taken off the holdings. */
  function AfterSales(desk: Desk, orders: seq<Order>): Desk {
    desk.(yes := desk.yes - Sold(Of(orders, SellYes)), no := desk.no - Sold(Of(orders, SellNo)))
  }

  // ----------------------------------------------------------- the main result

  lemma CapNonNegative(desk: Desk, yesNanos: int)
    requires Funded(desk) && 0 <= yesNanos <= NANOS_PER_DOLLAR
    ensures OrderCap(desk, yesNanos) >= 0.0
  {
    var price := yesNanos as real / NANOS_PER_DOLLAR as real;
    TimesSmall(price);
    TimesSmall(1.0 - price);
    TimesLe(0.0, desk.yes as real, price);
    TimesLe(0.0, desk.no as real, 1.0 - price);
  }

  /** For every list of orders with non-negative quantities: clipped sales stay
      within each holding, clipped purchases within the cash, each purchase within
      a quarter of the portfolio, prices in [0.01, 0.99], and clipping the result
      again changes nothing. */
  lemma ValidationIsSafe(market: int, orders: seq<Order>, desk: Desk, yesNanos: int)
    requires Funded(desk) && NonNegative(orders) && 0 <= yesNanos <= NANOS_PER_DOLLAR
    ensures var valid := Validated(market, orders, desk, yesNanos);
            && Safe(valid, market, desk, OrderCap(desk, yesNanos))
            && Validated(market, valid, desk, yesNanos) == valid
            && Funded(AfterSales(desk, valid))
  {
    CapNonNegative(desk, yesNanos);
    var cap := OrderCap(desk, yesNanos);
    ClipIsSafe(market, orders, desk, cap);
    ClipIsIdempotent(market, orders, desk, cap);
  }

  /** The validation, with what it promises for every list an account that owes
      nothing can be asked to place. */
  method ValidateOrders(market: int, orders: seq<Order>, desk: Desk, yesNanos: int) returns (valid: seq<Order>)
    ensures valid == Validated(market, orders, desk, yesNanos)
    ensures Funded(desk) && NonNegative(orders) && 0 <= yesNanos <= NANOS_PER_DOLLAR ==>
              && Safe(valid, market, desk, OrderCap(desk, yesNanos))
              && Validated(market, valid, desk, yesNanos) == valid
  {
    valid := ClipOrders(market, orders, desk, OrderCap(desk, yesNanos));
    if Funded(desk) && NonNegative(orders) && 0 <= yesNanos <= NANOS_PER_DOLLAR {
      ValidationIsSafe(market, orders, desk, yesNanos);
    }
  }

  /** A negative quantity, which the parser never produces, would raise the stock
      and let a later sale exceed the holding. */
  lemma NegativeQuantityInflates(market: int)
    ensures var orders := [Order(SellYes, market, 500_000_000, -5), Order(SellYes, market, 500_000_000, 5)];
            Sold(Of(Validated(market, orders, Desk(0, 0, 0.0), 500_000_000), SellYes)) == 5
  {
    var orders := [Order(SellYes, market, 500_000_000, -5), Order(SellYes, market, 500_000_000, 5)];
    var desk := Desk(0, 0, 0.0);
    var cap := OrderCap(desk, 500_000_000);
    assert After(orders[0], desk, cap) == Desk(5, 0, 0.0);
    assert orders[1..] == [orders[1]] && orders[1..][1..] == [];
    var x := AtPrice(SellYes, market, ClipPrice(orders[1]), 5);
    assert Clip(market, orders[1..], Desk(5, 0, 0.0), cap) == [x] + Clip(market, [], Desk(0, 0, 0.0), cap);
    assert Validated(market, orders, desk, 500_000_000) == [x];
    OneOrder(x);
  }

  // --------------------------------------------------------------- the trader

  /** One order line of a reply: digits, so neither number is negative. */
  datatype Line = Line(side: Side, quantity: nat, price: real)

  /** The orders a reply asks for; a line for no shares is passed over. */
  function Parsed(market: int, lines: seq<Line>): (orders: seq<Order>)
    ensures forall order :: order in orders ==> order.quantity > 0 && order.market == market
  {
    if lines == [] then []
    else
      var last := lines[|lines| - 1];
      Parsed(market, lines[..|lines| - 1])
      + if last.quantity > 0 then [AtPrice(last.side, market, last.price, last.quantity)] else []
  }

  method ParseOrders(market: int, lines: seq<Line>) returns (orders: seq<Order>)
    ensures orders == Parsed(market, lines) && NonNegative(orders)
  {
    orders := [];
    for i := 0 to |lines|
      invariant orders == Parsed(market, lines[..i])
    {
      assert lines[..i + 1][..i] == lines[..i];
      if lines[i].quantity > 0 {
        orders := orders + [AtPrice(lines[i].side, market, lines[i].price, lines[i].quantity)];
      }
    }
    assert lines[..|lines|] == lines;
  }

  /** No bullish order below the market's price, no bearish one above it. */
  predicate Agrees(order: Order, fairValue: real, yesNanos: int) {
    var price := yesNanos as real / NANOS_PER_DOLLAR as real;
    && !((order.side == BuyYes || order.side == SellNo) && fairValue < price)
    && !((order.side == BuyNo || order.side == SellYes) && fairValue > price)
  }

  method KeepOrders(orders: seq<Order>, keep: Order -> bool) returns (kept: seq<Order>)
    ensures kept == Kept(orders, keep)
  {
    kept := [];
    for i := 0 to |orders|
      invariant kept == Kept(orders[..i], keep)
    {
      assert orders[..i + 1][..i] == orders[..i];
      if keep(orders[i]) {
        kept := kept + [orders[i]];
      }
    }
    assert orders[..|orders|] == orders;
  }

  /** What the trader places on a reply to news. */
  function Answered(market: int, lines: seq<Line>, fairValue: real, desk: Desk, yesNanos: int): seq<Order> {
    Kept(Validated(market, Parsed(market, lines), desk, yesNanos), order => Agrees(order, fairValue, yesNanos))
  }

  /** What it places on a reply about its holdings: sales only. */
  function Rebalanced(market: int, lines: seq<Line>, fairValue: real, desk: Desk, yesNanos: int): seq<Order> {
    var sales := Kept(Parsed(market, lines), (order: Order) => !order.side.IsBuy());
    Kept(Validated(market, sales, desk, yesNanos), order => Agrees(order, fairValue, yesNanos))
  }

  /** For every reply: what is placed is safe for the account as it stands. */
  lemma AnswerIsSafe(market: int, lines: seq<Line>, fairValue: real, desk: Desk, yesNanos: int)
    requires Funded(desk) && 0 <= yesNanos <= NANOS_PER_DOLLAR
    ensures Safe(Answered(market, lines, fairValue, desk, yesNanos), market, desk, OrderCap(desk, yesNanos))
  {
    var orders := Parsed(market, lines);
    ValidationIsSafe(market, orders, desk, yesNanos);
    KeptIsSafe(Validated(market, orders, desk, yesNanos), order => Agrees(order, fairValue, yesNanos), market, desk,
               OrderCap(desk, yesNanos));
  }

  lemma RebalanceIsSafe(market: int, lines: seq<Line>, fairValue: real, desk: Desk, yesNanos: int)
    requires Funded(desk) && 0 <= yesNanos <= NANOS_PER_DOLLAR
    ensures var orders := Rebalanced(market, lines, fairValue, desk, yesNanos);
            && Safe(orders, market, desk, OrderCap(desk, yesNanos))
            && Funded(AfterSales(desk, orders))
  {
    var selling := (order: Order) => !order.side.IsBuy();
    var sales := Kept(Parsed(market, lines), selling);
    KeptAreOrders(Parsed(market, lines), selling);
    ValidationIsSafe(market, sales, desk, yesNanos);
    KeptIsSafe(Validated(market, sales, desk, yesNanos), order => Agrees(order, fairValue, yesNanos), market, desk,
               OrderCap(desk, yesNanos));
  }

  /** A rebalance and then an answer before its sales are filled: together they sell
      no more of either outcome than was held before both. */
  lemma NeverSoldTwice(market: int, review: seq<Line>, reviewed: real, reply: seq<Line>, replied: real,
                       desk: Desk, before: int, now: int)
    requires Funded(desk) && 0 <= before <= NANOS_PER_DOLLAR && 0 <= now <= NANOS_PER_DOLLAR
    ensures var first := Rebalanced(market, review, reviewed, desk, before);
            var second := Answered(market, reply, replied, AfterSales(desk, first), now);
            && Sold(Of(first + second, SellYes)) <= desk.yes
            && Sold(Of(first + second, SellNo)) <= desk.no
  {
    var first := Rebalanced(market, review, reviewed, desk, before);
    RebalanceIsSafe(market, review, reviewed, desk, before);
    AnswerIsSafe(market, reply, replied, AfterSales(desk, first), now);
    var second := Answered(market, reply, replied, AfterSales(desk, first), now);
    Concatenated(first, second, SellYes);
    Concatenated(first, second, SellNo);
  }

  class LlmTrader {
    const market: int
    var desk: Desk

    constructor (market: int, desk: Desk)
      ensures this.market == market && this.desk == desk
    {
      this.market, this.desk := market, desk;
    }

    /** On news: parse, validate, drop what contradicts the fair value. */
    method OnBlock(lines: seq<Line>, fairValue: real, yesNanos: int) returns (orders: seq<Order>)
      ensures orders == Answered(market, lines, fairValue, desk, yesNanos)
      ensures Funded(desk) && 0 <= yesNanos <= NANOS_PER_DOLLAR ==>
                Safe(orders, market, desk, OrderCap(desk, yesNanos))
    {
      var asked := ParseOrders(market, lines);
      var valid := ValidateOrders(market, asked, desk, yesNanos);
      orders := KeepOrders(valid, order => Agrees(order, fairValue, yesNanos));
      if Funded(desk) && 0 <= yesNanos <= NANOS_PER_DOLLAR {
        AnswerIsSafe(market, lines, fairValue, desk, yesNanos);
      }
    }

    /** On a review: sales only, taken off the local holdings before they fill. */
    method Rebalance(lines: seq<Line>, fairValue: real, yesNanos: int) returns (orders: seq<Order>)
      modifies `desk
      ensures orders == Rebalanced(market, lines, fairValue, old(desk), yesNanos)
      ensures desk == AfterSales(old(desk), orders)
      ensures old(Funded(desk)) && 0 <= yesNanos <= NANOS_PER_DOLLAR ==> Funded(desk)
    {
      var asked := ParseOrders(market, lines);
      var sales := KeepOrders(asked, (order: Order) => !order.side.IsBuy());
      var valid := ValidateOrders(market, sales, desk, yesNanos);
      orders := KeepOrders(valid, order => Agrees(order, fairValue, yesNanos));
      if Funded(desk) && 0 <= yesNanos <= NANOS_PER_DOLLAR {
        RebalanceIsSafe(market, lines, fairValue, desk, yesNanos);
      }
      Deduct(orders);
    }

    method Deduct(orders: seq<Order>)
      modifies `desk
      ensures desk == AfterSales(old(desk), orders)
    {
      for i := 0 to |orders|
        invariant desk == AfterSales(old(desk), orders[..i])
      {
        assert orders[..i + 1] == orders[..i] + [orders[i]];
        Concatenated(orders[..i], [orders[i]], SellYes);
        Concatenated(orders[..i], [orders[i]], SellNo);
        OneOrder(orders[i]);
        if orders[i].side == SellYes {
          desk := desk.(yes := desk.yes - orders[i].quantity);
        } else if orders[i].side == SellNo {
          desk := desk.(no := desk.no - orders[i].quantity);
        }
      }
      assert orders[..|orders|] == orders;
    }
  }
}
