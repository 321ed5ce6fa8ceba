/** Exactly when a synthetic taker of arena/live/synthetic.py places an order, on
    which side, at which limit and for how many shares, stated without its sizing
    functions. */
module TakerRules {
  import opened Wrappers
  import opened Reals
  import opened Orders
  import opened SyntheticTraders
  import opened InventoryAware

  // ---------------------------------------------------------------- quantities

  /** `n` whole shares fit in the room, and in the money where that is bounded. */
  predicate Within(n: int, room: real, price: real, money: Option<real>) {
    n as real <= room && (money.Some? ==> Times(n as real, price) <= money.value)
  }

  /** As many shares as fit; none where not even one does. */
  ghost predicate Most(n: int, room: real, price: real, money: Option<real>) {
    && n >= 0
    && (n > 0 ==> Within(n, room, price, money))
    && forall m: int {:trigger Within(m, room, price, money)} :: m > 0 && Within(m, room, price, money) ==> m <= n
  }

  /** A purchase is bounded by the budget and by the cash. */
  function Purse(config: Config, cash: real): Option<real> { Some(Min(config.notionalBudget, cash)) }

  /** A sale is bounded by the budget only when there is one. */
  function Worth(config: Config): Option<real> {
    if config.notionalBudget <= 0.0 then None else Some(config.notionalBudget)
  }

  lemma BuyQtyIsMost(config: Config, price: real, room: real, cash: real)
    requires price > 0.0
    ensures Most(BuyQty(config.notionalBudget, price, room, cash), room, price, Purse(config, cash))
  {
    var n, money := BuyQty(config.notionalBudget, price, room, cash), Min(config.notionalBudget, cash);
    BuyQtyFits(config.notionalBudget, price, room, cash);
    forall m: int {:trigger Within(m, room, price, Some(money))} | m > 0 && Within(m, room, price, Some(money))
      ensures m <= n
    {
      TimesLt(0.0, m as real, price);
      TimesSmall(price);
      CostQuotient(m as real, money, price);
    }
  }

  lemma SellQtyIsMost(config: Config, price: real, held: real)
    requires price > 0.0
    ensures Most(SellQty(config.notionalBudget, price, held), held, price, Worth(config))
  {
    var n, budget := SellQty(config.notionalBudget, price, held), config.notionalBudget;
    if n > 0 && budget > 0.0 {
      QuotientCost(n as real, budget, price);
    }
    forall m: int {:trigger Within(m, held, price, Worth(config))} | m > 0 && Within(m, held, price, Worth(config))
      ensures m <= n
    {
      if budget > 0.0 {
        CostQuotient(m as real, budget, price);
      }
    }
  }

  lemma FewerFit(n: int, room: real, price: real, money: Option<real>)
    requires price >= 0.0 && n >= 1 && Within(n, room, price, money)
    ensures Within(1, room, price, money)
  {
    TimesLe(1.0, n as real, price);
  }

  // -------------------------------------------------------------------- prices

  predicate Tradable(price: real) { 0.01 <= price <= 0.99 }

  /** A wish outside one to ninety-nine cents trades at the nearest price inside. */
  lemma ClampIsNearest(wanted: real, other: real)
    requires Tradable(other)
    ensures Tradable(ClampPrice(wanted))
    ensures Abs(ClampPrice(wanted) - wanted) <= Abs(other - wanted)
    ensures Abs(ClampPrice(wanted) - wanted) == Abs(other - wanted) ==> other == ClampPrice(wanted)
  {
  }

  // -------------------------------------------------------------------- orders

  /** The order sent for a wish to trade `side` at `wanted` with this much room:
      there is one exactly when one share fits, on that side, at the nearest
      tradable price less than a nano above the limit, for as many as fit. */
  ghost predicate Placed(order: Option<Order>, side: Side, market: int, wanted: real, room: real,
                         money: Option<real>) {
    var price := ClampPrice(wanted);
    && (order.Some? <==> Within(1, room, price, money))
    && (order.Some? ==>
          && order.value.side == side
          && order.value.market == market
          && order.value.Limit() <= price < order.value.Limit() + 0.000000001
          && Most(order.value.quantity, room, price, money))
  }

  lemma MostIsPlaced(side: Side, market: int, wanted: real, room: real, money: Option<real>, n: int)
    requires Most(n, room, ClampPrice(wanted), money)
    ensures Placed(PriceIfAny(side, market, ClampPrice(wanted), n), side, market, wanted, room, money)
  {
    AtPriceBounds(side, market, ClampPrice(wanted), n);
    assert Within(1, room, ClampPrice(wanted), money) ==> 1 <= n;
    if n > 0 {
      FewerFit(n, room, ClampPrice(wanted), money);
    }
  }

  lemma PurchaseIsPlaced(config: Config, side: Side, market: int, wanted: real, room: real, cash: real)
    ensures Placed(PriceIfAny(side, market, ClampPrice(wanted),
                              BuyQty(config.notionalBudget, ClampPrice(wanted), room, cash)),
                   side, market, wanted, room, Purse(config, cash))
  {
    BuyQtyIsMost(config, ClampPrice(wanted), room, cash);
    MostIsPlaced(side, market, wanted, room, Purse(config, cash),
                 BuyQty(config.notionalBudget, ClampPrice(wanted), room, cash));
  }

  lemma SaleIsPlaced(config: Config, side: Side, market: int, wanted: real, held: real)
    ensures Placed(PriceIfAny(side, market, ClampPrice(wanted),
                              SellQty(config.notionalBudget, ClampPrice(wanted), held)),
                   side, market, wanted, held, Worth(config))
  {
    SellQtyIsMost(config, ClampPrice(wanted), held);
    MostIsPlaced(side, market, wanted, held, Worth(config),
                 SellQty(config.notionalBudget, ClampPrice(wanted), held));
  }

  // ----------------------------------------------------------- inventory-aware

  /** Beyond the limit the excess is sold a width below its own price, whatever the
      target. Within it, a target more than a width away is approached: the other
      side is sold off first, and only without it is the target's side bought, at
      the target. Everything else, and a limit of zero, places nothing. */
  lemma DirectionalOrderExactly(config: Config, market: int, current: real, target: real, yes: real, no: real,
                                cash: real)
    requires config.Valid() && yes >= 0.0 && no >= 0.0
    ensures var order := DirectionalOrder(config, market, current, target, yes, no, cash);
            var limit := config.maxInventory as real;
            if config.maxInventory == 0 then order.None?
            else if yes > no + limit then
              Placed(order, SellYes, market, current - config.quoteWidth, yes - limit, Worth(config))
            else if no > yes + limit then
              Placed(order, SellNo, market, 1.0 - current - config.quoteWidth, no - limit, Worth(config))
            else if target - current > config.quoteWidth then
              if no > 0.0 then Placed(order, SellNo, market, 1.0 - current - config.quoteWidth, no, Worth(config))
              else Placed(order, BuyYes, market, target, limit - yes, Purse(config, cash))
            else if current - target > config.quoteWidth then
              if yes > 0.0 then Placed(order, SellYes, market, current - config.quoteWidth, yes, Worth(config))
              else Placed(order, BuyNo, market, 1.0 - target, limit - no, Purse(config, cash))
            else order.None?
  {
    var limit := config.maxInventory as real;
    if yes > no + limit {
      SaleIsPlaced(config, SellYes, market, current - config.quoteWidth, yes - limit);
    } else if no > yes + limit {
      SaleIsPlaced(config, SellNo, market, 1.0 - current - config.quoteWidth, no - limit);
    } else if target - current > config.quoteWidth {
      SaleIsPlaced(config, SellNo, market, 1.0 - current - config.quoteWidth, no);
      PurchaseIsPlaced(config, BuyYes, market, target, limit - yes, cash);
    } else if current - target > config.quoteWidth {
      SaleIsPlaced(config, SellYes, market, current - config.quoteWidth, yes);
      PurchaseIsPlaced(config, BuyNo, market, 1.0 - target, limit - no, cash);
    }
  }

  function MirrorOption(order: Option<Order>): Option<Order> {
    if order.None? then None else Some(order.value.Mirror())
  }

  /** The outcomes are treated alike: exchanging them exchanges the order's side. */
  lemma DirectionalOrderMirrors(config: Config, market: int, current: real, target: real, yes: real, no: real,
                                cash: real)
    requires config.Valid() && yes >= 0.0 && no >= 0.0
    ensures DirectionalOrder(config, market, 1.0 - current, 1.0 - target, no, yes, cash)
         == MirrorOption(DirectionalOrder(config, market, current, target, yes, no, cash))
  {
    assert 1.0 - (1.0 - target) == target;
  }

  // ------------------------------------------------------------ crossing noise

  /** The actions a market offers: buying below the inventory limit with cash left,
      YES only while its group may not be completed, and selling what is held. */
  predicate May(config: Config, side: Side, yes: real, no: real, cash: real, allowBuyYes: bool) {
    match side
    case BuyYes => allowBuyYes && cash > 0.0 && yes < config.maxInventory as real
    case BuyNo => cash > 0.0 && no < config.maxInventory as real
    case SellYes => yes > 0.0
    case SellNo => no > 0.0
  }

  /** Each outcome's own price is crossed: bought above it, sold below it. */
  ghost predicate Crosses(config: Config, order: Option<Order>, side: Side, market: int, mid: real, yes: real, no: real,
                          cash: real) {
    var limit, edge := config.maxInventory as real, config.crossingEdge;
    match side
    case BuyYes => Placed(order, BuyYes, market, mid + edge, limit - yes, Purse(config, cash))
    case BuyNo => Placed(order, BuyNo, market, 1.0 - mid + edge, limit - no, Purse(config, cash))
    case SellYes => Placed(order, SellYes, market, mid - edge, yes, Worth(config))
    case SellNo => Placed(order, SellNo, market, 1.0 - mid - edge, no, Worth(config))
  }

  lemma SideCrosses(config: Config, side: Side, market: int, mid: real, yes: real, no: real, cash: real)
    ensures var price := CrossingPrice(config, side, mid);
            Crosses(config, PriceIfAny(side, market, price, CrossingQty(config, side, price, yes, no, cash)),
                    side, market, mid, yes, no, cash)
  {
    var limit, edge := config.maxInventory as real, config.crossingEdge;
    match side
    case BuyYes => PurchaseIsPlaced(config, BuyYes, market, mid + edge, limit - yes, cash);
    case BuyNo => PurchaseIsPlaced(config, BuyNo, market, 1.0 - mid + edge, limit - no, cash);
    case SellYes => SaleIsPlaced(config, SellYes, market, mid - edge, yes);
    case SellNo => SaleIsPlaced(config, SellNo, market, 1.0 - mid - edge, no);
  }

  /** Whatever is drawn, the order crosses on a side the market offers, and there is
      none only where nothing is offered or not one share fits. */
  lemma OneOrderCrosses(config: Config, market: int, mid: real, yes: real, no: real, cash: real, allowBuyYes: bool,
                        pick: nat)
    ensures var order := OneOrder(config, market, mid, yes, no, cash, allowBuyYes, pick);
            if exists side :: May(config, side, yes, no, cash, allowBuyYes)
            then exists side :: May(config, side, yes, no, cash, allowBuyYes)
                             && Crosses(config, order, side, market, mid, yes, no, cash)
            else order.None?
  {
    var actions := Actions(config, yes, no, cash, allowBuyYes);
    if actions == [] {
      forall side ensures !May(config, side, yes, no, cash, allowBuyYes) {
        if May(config, side, yes, no, cash, allowBuyYes) {
          var drawn := OfferedSide(config, side, yes, no, cash, allowBuyYes);
        }
      }
    } else {
      var side := actions[pick % |actions|];
      assert May(config, side, yes, no, cash, allowBuyYes);
      SideCrosses(config, side, market, mid, yes, no, cash);
    }
  }

  lemma OfferedSide(config: Config, side: Side, yes: real, no: real, cash: real, allowBuyYes: bool)
    returns (pick: nat)
    requires May(config, side, yes, no, cash, allowBuyYes)
    ensures pick < |Actions(config, yes, no, cash, allowBuyYes)| && pick < 4
    ensures Actions(config, yes, no, cash, allowBuyYes)[pick] == side
  {
    var actions := Actions(config, yes, no, cash, allowBuyYes);
    var buyYes := if May(config, BuyYes, yes, no, cash, allowBuyYes) then 1 else 0;
    var buyNo := if May(config, BuyNo, yes, no, cash, allowBuyYes) then 1 else 0;
    var sellYes := if yes > 0.0 then 1 else 0;
    pick := match side
      case BuyYes => 0
      case BuyNo => buyYes
      case SellYes => buyYes + buyNo
      case SellNo => buyYes + buyNo + sellYes;
  }

  lemma DrawnOrder(config: Config, market: int, mid: real, yes: real, no: real, cash: real, allowBuyYes: bool,
                   pick: nat, side: Side)
    requires var actions := Actions(config, yes, no, cash, allowBuyYes);
             pick < |actions| && actions[pick] == side
    ensures OneOrder(config, market, mid, yes, no, cash, allowBuyYes, pick)
         == PriceIfAny(side, market, CrossingPrice(config, side, mid),
                       CrossingQty(config, side, CrossingPrice(config, side, mid), yes, no, cash))
  {
    assert pick % |Actions(config, yes, no, cash, allowBuyYes)| == pick;
  }

  /** And every side the market offers is what some draw trades. */
  lemma EverySideArises(config: Config, side: Side, market: int, mid: real, yes: real, no: real, cash: real,
                        allowBuyYes: bool)
    returns (pick: nat)
    requires May(config, side, yes, no, cash, allowBuyYes)
    ensures pick < 4
    ensures Crosses(config, OneOrder(config, market, mid, yes, no, cash, allowBuyYes, pick), side, market, mid,
                    yes, no, cash)
  {
    pick := OfferedSide(config, side, yes, no, cash, allowBuyYes);
    DrawnOrder(config, market, mid, yes, no, cash, allowBuyYes, pick, side);
    SideCrosses(config, side, market, mid, yes, no, cash);
  }

  /** The middle starts from the external reference, without one from the last mark,
      without either from even odds, and moves by the draw while it stays tradable. */
  lemma MiddleFollowsReference(view: View, jitter: real, from: real)
    requires from == (if view.reference.Some? then view.reference.value
                      else if view.previous.Some? then view.previous.value
                      else 0.50)
    ensures Tradable(Mid(view, jitter))
    ensures Tradable(from) && Tradable(from + jitter) ==> Mid(view, jitter) == from + jitter
    ensures from <= 0.01 ==> Mid(view, 0.0) == 0.01
    ensures from >= 0.99 ==> Mid(view, 0.0) == 0.99
  {
  }

  // -------------------------------------------------------------------- fills

  function HeldOn(a: Account, side: Side, market: int): real {
    HeldIn(if side.BuyYes? || side.SellYes? then a.yes else a.no, market)
  }

  /** Two sides of one outcome. */
  predicate Paired(a: Side, b: Side) { (a.BuyYes? || a.SellYes?) == (b.BuyYes? || b.SellYes?) }

  /** A fill is an exchange: the shares change hands for their price, and nothing else
      in the account moves. */
  lemma FillIsExchange(a: Account, order: Order, fill: Fill, side: Side, market: int)
    ensures var after := Execute(a, order, fill);
            var own := HeldOn(after, order.side, order.market) - HeldOn(a, order.side, order.market);
            && own == (if order.side.IsBuy() then fill.quantity else -fill.quantity)
            && after.cash + Times(own, fill.price) == a.cash
            && (market != order.market || !Paired(side, order.side) ==>
                  HeldOn(after, side, market) == HeldOn(a, side, market))
  {
    TimesNegated(fill.quantity, fill.price);
  }
}
