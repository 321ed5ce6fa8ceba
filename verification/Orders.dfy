/** Limit orders as the client submits them: prices truncated to whole nanos
    (arena/sybil_client/types.py). */
module Orders {
  import opened Reals

  datatype Side = BuyYes | BuyNo | SellYes | SellNo {
    predicate IsBuy() { BuyYes? || BuyNo? }

    function Mirror(): Side {
      match this
      case BuyYes => BuyNo
      case BuyNo => BuyYes
      case SellYes => SellNo
      case SellNo => SellYes
    }
  }

  datatype Order = Order(side: Side, market: int, nanos: int, quantity: int) {
    function Limit(): real { nanos as real / NANOS_PER_DOLLAR as real }

    /** Limit cost of a buy; sells cost nothing. */
    function Cost(): real {
      if side.IsBuy() then Times(quantity as real, Limit()) else 0.0
    }

    function Mirror(): Order { this.(side := side.Mirror()) }
  }

  function AtPrice(side: Side, market: int, price: real, quantity: int): Order {
    Order(side, market, Trunc(price * NANOS_PER_DOLLAR as real), quantity)
  }

  // Truncation to nanos never raises a non-negative price, and lowers it by less
  // than one nano.
  lemma AtPriceBounds(side: Side, market: int, price: real, quantity: int)
    requires price >= 0.0
    ensures var order := AtPrice(side, market, price, quantity);
            && order.nanos >= 0
            && 0.0 <= order.Limit() <= price < order.Limit() + 1.0 / NANOS_PER_DOLLAR as real
  {
  }

  function TotalCost(orders: seq<Order>): real {
    if orders == [] then 0.0 else orders[0].Cost() + TotalCost(orders[1..])
  }

  lemma {:induction false} TotalCostConcat(a: seq<Order>, b: seq<Order>)
    ensures TotalCost(a + b) == TotalCost(a) + TotalCost(b)
  {
    if a == [] {
      assert a + b == b;
    } else {
      assert (a + b)[1..] == a[1..] + b;
      TotalCostConcat(a[1..], b);
    }
  }

  /** Total quantity. */
  function Sold(orders: seq<Order>): int {
    if orders == [] then 0 else Sold(orders[..|orders| - 1]) + orders[|orders| - 1].quantity
  }

  lemma {:induction false} SoldConcat(a: seq<Order>, b: seq<Order>)
    ensures Sold(a + b) == Sold(a) + Sold(b)
  {
    if b == [] {
      assert a + b == a;
    } else {
      assert (a + b)[..|a + b| - 1] == a + b[..|b| - 1];
      SoldConcat(a, b[..|b| - 1]);
    }
  }

  // --------------------------------------------------------- orders by side

  /** The orders of one side, in order. */
  function Of(orders: seq<Order>, side: Side): seq<Order> {
    if orders == [] then []
    else (if orders[0].side == side then [orders[0]] else []) + Of(orders[1..], side)
  }

  predicate OnlySide(orders: seq<Order>, side: Side) {
    forall order :: order in orders ==> order.side == side
  }

  lemma {:induction false} OfConcat(a: seq<Order>, b: seq<Order>, side: Side)
    ensures Of(a + b, side) == Of(a, side) + Of(b, side)
  {
    if a == [] {
      assert a + b == b;
    } else {
      var first := if a[0].side == side then [a[0]] else [];
      assert (a + b)[0] == a[0] && (a + b)[1..] == a[1..] + b;
      OfConcat(a[1..], b, side);
      assert first + (Of(a[1..], side) + Of(b, side)) == (first + Of(a[1..], side)) + Of(b, side);
    }
  }

  lemma {:induction false} OfOnlySide(orders: seq<Order>, own: Side, side: Side)
    requires OnlySide(orders, own)
    ensures Of(orders, side) == if side == own then orders else []
  {
    if orders != [] {
      OfOnlySide(orders[1..], own, side);
    }
  }

  // ------------------------------------------------------- mirrored orders

  function MirrorAll(orders: seq<Order>): seq<Order> {
    seq(|orders|, i requires 0 <= i < |orders| => orders[i].Mirror())
  }

  lemma MirrorConcat(a: seq<Order>, b: seq<Order>)
    ensures MirrorAll(a + b) == MirrorAll(a) + MirrorAll(b)
  {
  }

  lemma MirrorSingle(order: Order)
    ensures MirrorAll([order]) == [order.Mirror()]
  {
  }
}
