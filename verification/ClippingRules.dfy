/** What the clipping of the simulator's LLM trader leaves alone and how far it cuts
    (arena/sim/llm_trader.py): its fixed points are exactly the safe lists, each order
    is cut to the most that fits, and the cap is a quarter of the account's value. */
module ClippingRules {
  import opened Reals
  import opened Orders
  import opened OrderClipping

  // -------------------------------------------------------------- fixed points

  lemma {:induction false} SoldNonNegative(orders: seq<Order>, side: Side)
    requires NonNegative(orders)
    ensures Sold(Of(orders, side)) >= 0
    decreases |orders|
  {
    if orders != [] {
      assert orders == [orders[0]] + orders[1..];
      Concatenated([orders[0]], orders[1..], side);
      SoldNonNegative(orders[1..], side);
      OneOrder(orders[0]);
    }
  }

  lemma {:induction false} CostsNonNegative(orders: seq<Order>, market: int, cap: real)
    requires forall order :: order in orders ==> Modest(order, market, cap)
    ensures TotalCost(orders) >= 0.0
    decreases |orders|
  {
    if orders != [] {
      ModestCosts(orders[0], market, cap);
      CostsNonNegative(orders[1..], market, cap);
    }
  }

  lemma HeadIsCovered(head: Order, rest: seq<Order>, market: int, cap: real)
    requires forall order :: order in [head] + rest ==> Modest(order, market, cap)
    ensures head.quantity <= Sold(Of([head] + rest, head.side))
    ensures head.Cost() <= TotalCost([head] + rest)
  {
    assert forall order :: order in rest ==> order in [head] + rest && Modest(order, market, cap);
    Concatenated([head], rest, head.side);
    TotalCostConcat([head], rest);
    OneOrder(head);
    SoldNonNegative(rest, head.side);
    CostsNonNegative(rest, market, cap);
  }

  lemma HeadFits(orders: seq<Order>, market: int, desk: Desk, cap: real)
    requires orders != [] && Safe(orders, market, desk, cap)
    ensures var head := orders[0];
            match head.side
            case SellYes => head.quantity <= desk.yes
            case SellNo => head.quantity <= desk.no
            case BuyYes => head.Cost() <= cap && head.Cost() <= desk.cash
            case BuyNo => head.Cost() <= cap && head.Cost() <= desk.cash
  {
    assert Modest(orders[0], market, cap);
    assert orders == [orders[0]] + orders[1..];
    HeadIsCovered(orders[0], orders[1..], market, cap);
  }

  lemma LimitStays(head: Order, market: int, cap: real)
    requires Modest(head, market, cap)
    ensures ClipPrice(head) == head.Limit()
    ensures AtPrice(head.side, market, ClipPrice(head), head.quantity) == head
  {
    ClipPriceExact(market, head, head.quantity);
    assert head.Limit() * NANOS_PER_DOLLAR as real == head.nanos as real;
  }

  lemma HeadStays(orders: seq<Order>, market: int, desk: Desk, cap: real)
    requires orders != [] && Funded(desk) && cap >= 0.0 && Safe(orders, market, desk, cap)
    ensures ClipQty(orders[0], desk, cap) == orders[0].quantity
    ensures Clipped(market, orders[0], desk, cap) == [orders[0]]
  {
    var head := orders[0];
    HeadFits(orders, market, desk, cap);
    LimitStays(head, market, cap);
    if head.side.IsBuy() {
      BuyQtyIsLargest(head.quantity, ClipPrice(head), cap, desk.cash);
      assert Affords(head.quantity, head.quantity, ClipPrice(head), cap, desk.cash);
    }
  }

  lemma RestIsSafe(orders: seq<Order>, market: int, desk: Desk, cap: real)
    requires orders != [] && Funded(desk) && cap >= 0.0 && Safe(orders, market, desk, cap)
    ensures Safe(orders[1..], market, After(orders[0], desk, cap), cap)
  {
    var head, rest := orders[0], orders[1..];
    assert orders == [head] + rest;
    HeadStays(orders, market, desk, cap);
    ClippedIsModest(market, head, desk, cap);
    Concatenated([head], rest, SellYes);
    Concatenated([head], rest, SellNo);
    TotalCostConcat([head], rest);
  }

  lemma {:induction false} SafeStays(market: int, orders: seq<Order>, desk: Desk, cap: real)
    requires Funded(desk) && cap >= 0.0 && Safe(orders, market, desk, cap)
    ensures Clip(market, orders, desk, cap) == orders
    decreases |orders|
  {
    if orders != [] {
      HeadStays(orders, market, desk, cap);
      RestIsSafe(orders, market, desk, cap);
      ClipQtyFits(orders[0], desk, cap);
      SafeStays(market, orders[1..], After(orders[0], desk, cap), cap);
    }
  }

  /** Validation changes nothing exactly where nothing is unsafe: sales within each
      holding, purchases within the cash and each within the cap, prices from one to
      ninety-nine cents, whole positive quantities of this market. */
  lemma SafeListsAreKept(market: int, orders: seq<Order>, desk: Desk, yesNanos: int)
    requires Funded(desk) && NonNegative(orders) && 0 <= yesNanos <= NANOS_PER_DOLLAR
    ensures Validated(market, orders, desk, yesNanos) == orders
       <==> Safe(orders, market, desk, OrderCap(desk, yesNanos))
  {
    CapNonNegative(desk, yesNanos);
    ValidationIsSafe(market, orders, desk, yesNanos);
    if Safe(orders, market, desk, OrderCap(desk, yesNanos)) {
      SafeStays(market, orders, desk, OrderCap(desk, yesNanos));
    }
  }

  // ------------------------------------------------------------- every order

  /** `n` shares of the order, at a price, are held or paid for and within the cap. */
  predicate Fits(n: int, order: Order, price: real, desk: Desk, cap: real) {
    && n <= order.quantity
    && match order.side
       case SellYes => n <= desk.yes
       case SellNo => n <= desk.no
       case BuyYes => Times(n as real, price) <= Min(cap, desk.cash)
       case BuyNo => Times(n as real, price) <= Min(cap, desk.cash)
  }

  /** An order of an unsafe list is kept at the nearest price from one to ninety-nine
      cents, for the most shares the desk left by those before it can carry, and is
      dropped exactly where it cannot carry one. */
  lemma EachIsCutToFit(market: int, order: Order, desk: Desk, cap: real, price: real, other: real, n: int)
    requires Funded(desk) && order.quantity >= 0 && cap >= 0.0
    requires price == ClipPrice(order) && 0.01 <= other <= 0.99
    ensures 0.01 <= price <= 0.99 && Abs(price - order.Limit()) <= Abs(other - order.Limit())
    ensures var kept := Clipped(market, order, desk, cap);
            if kept == [] then n >= 1 ==> !Fits(n, order, price, desk, cap)
            else
              && |kept| == 1
              && kept[0].side == order.side && kept[0].market == market && kept[0].Limit() == price
              && kept[0].quantity >= 1 && Fits(kept[0].quantity, order, price, desk, cap)
              && (n > kept[0].quantity ==> !Fits(n, order, price, desk, cap))
  {
    var quantity := ClipQty(order, desk, cap);
    ClipPriceExact(market, order, quantity);
    if order.side.IsBuy() {
      BuyQtyIsLargest(order.quantity, price, cap, desk.cash);
      assert Affords(n, order.quantity, price, cap, desk.cash) <==> Fits(n, order, price, desk, cap);
    }
  }

  // --------------------------------------------------------------- the cap

  /** The cap is blind to trading at the mark, and of cash alone it is a quarter:
      together these say it is a quarter of the account's marked value. */
  lemma CapIsQuarterOfValue(desk: Desk, yesNanos: int, price: real, yes: int, no: int)
    requires price == yesNanos as real / 1_000_000_000.0
    ensures OrderCap(Desk(desk.yes - yes, desk.no - no,
                          desk.cash + Times(yes as real, price) + Times(no as real, 1.0 - price)), yesNanos)
         == OrderCap(desk, yesNanos)
    ensures OrderCap(Desk(0, 0, desk.cash), yesNanos) == desk.cash / 4.0
  {
    Distribute(desk.yes, yes, price);
    Distribute(desk.no, no, 1.0 - price);
    TimesSmall(price);
    TimesSmall(1.0 - price);
  }

  lemma Distribute(held: int, sold: int, price: real)
    ensures Times((held - sold) as real, price) == Times(held as real, price) - Times(sold as real, price)
  {
  }

  // ------------------------------------------------------------- the replies

  /** Raises the exposure to YES. */
  predicate Bullish(order: Order) { order.side.BuyYes? || order.side.SellNo? }

  /** Of the validated orders of a reply exactly those on the side of the fair value
      are placed; at a fair value equal to the price all of them are. */
  lemma AnswerTakesASide(market: int, lines: seq<Line>, fairValue: real, desk: Desk, yesNanos: int, order: Order)
    ensures var price := yesNanos as real / 1_000_000_000.0;
            order in Answered(market, lines, fairValue, desk, yesNanos)
            <==> && order in Validated(market, Parsed(market, lines), desk, yesNanos)
                 && (if Bullish(order) then fairValue >= price else fairValue <= price)
  {
    KeptAreOrders(Validated(market, Parsed(market, lines), desk, yesNanos),
                  order => Agrees(order, fairValue, yesNanos));
  }

  /** A reply's lines become its orders one by one and in order, at their own side,
      quantity and price in nanos; only lines for no shares fall away. */
  lemma {:induction false} LinesBecomeOrders(market: int, before: seq<Line>, line: Line, behind: seq<Line>)
    ensures var own := Parsed(market, [line]);
            && Parsed(market, before + [line] + behind) == Parsed(market, before) + own + Parsed(market, behind)
            && |own| == (if line.quantity == 0 then 0 else 1)
            && (line.quantity > 0 && line.price >= 0.0 ==>
                  && own[0].side == line.side && own[0].quantity == line.quantity
                  && own[0].Limit() <= line.price < own[0].Limit() + 0.000000001)
  {
    ParsedConcat(market, before, [line]);
    ParsedConcat(market, before + [line], behind);
    assert [line][..0] == [];
    if line.price >= 0.0 {
      AtPriceBounds(line.side, market, line.price, line.quantity);
    }
  }

  lemma {:induction false} ParsedConcat(market: int, a: seq<Line>, b: seq<Line>)
    ensures Parsed(market, a + b) == Parsed(market, a) + Parsed(market, b)
  {
    if b == [] {
      assert a + b == a;
    } else {
      assert (a + b)[..|a + b| - 1] == a + b[..|b| - 1];
      ParsedConcat(market, a, b[..|b| - 1]);
    }
  }
}
