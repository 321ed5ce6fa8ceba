/** The inventory-aware strategies of arena/live/synthetic.py: one order a block,
    moving one market towards a target price. Which market is drawn, its last
    mark and its target are inputs. */
module InventoryAware {
  import opened Wrappers
  import opened Reals
  import opened Orders
  import opened SyntheticTraders

  function PriceIfAny(side: Side, market: int, price: real, quantity: int): Option<Order> {
    if quantity <= 0 then None else Some(AtPrice(side, market, price, quantity))
  }

  function SellYesOrder(config: Config, market: int, current: real, held: real): Option<Order> {
    var price := ClampPrice(current - config.quoteWidth);
    PriceIfAny(SellYes, market, price, SellQty(config.notionalBudget, price, held))
  }

  function SellNoOrder(config: Config, market: int, current: real, held: real): Option<Order> {
    var price := ClampPrice((1.0 - current) - config.quoteWidth);
    PriceIfAny(SellNo, market, price, SellQty(config.notionalBudget, price, held))
  }

  function MoveYes(config: Config, market: int, target: real, current: real, yes: real, no: real,
                   cash: real): Option<Order> {
    if no > 0.0 then SellNoOrder(config, market, current, no)
    else
      var price := ClampPrice(target);
      PriceIfAny(BuyYes, market, price, BuyQty(config.notionalBudget, price, config.maxInventory as real - yes, cash))
  }

  function MoveNo(config: Config, market: int, target: real, current: real, yes: real, no: real,
                  cash: real): Option<Order> {
    if yes > 0.0 then SellYesOrder(config, market, current, yes)
    else
      var price := ClampPrice(1.0 - target);
      PriceIfAny(BuyNo, market, price, BuyQty(config.notionalBudget, price, config.maxInventory as real - no, cash))
  }

  function DirectionalOrder(config: Config, market: int, current: real, target: real, yes: real, no: real, cash: real)
    : Option<Order>
  {
    var limit := config.maxInventory as real;
    if config.maxInventory == 0 then None
    else if yes - no > limit && yes > 0.0 then SellYesOrder(config, market, current, yes - limit)
    else if yes - no < -limit && no > 0.0 then SellNoOrder(config, market, current, no - limit)
    else if target > current + config.quoteWidth then MoveYes(config, market, target, current, yes, no, cash)
    else if target < current - config.quoteWidth then MoveNo(config, market, target, current, yes, no, cash)
    else None
  }

  predicate Rising(config: Config, a: Account, market: int, current: real, target: real) {
    || target > current + config.quoteWidth
    || Position(a.yes, market) - Position(a.no, market) < -(config.maxInventory as real)
  }

  predicate Falling(config: Config, a: Account, market: int, current: real, target: real) {
    || target < current - config.quoteWidth
    || Position(a.yes, market) - Position(a.no, market) > config.maxInventory as real
  }

  /** What one order may do: it fits the account and is paid for, it never opens
      the second side of a market, and it raises the exposure to YES only towards
      a higher target or out of an excess of NO, and the other way round. */
  predicate Disciplined(config: Config, a: Account, market: int, current: real, target: real, order: Order) {
    var yes, no := Position(a.yes, market), Position(a.no, market);
    && order.market == market
    && Fits(a, config.maxInventory, order)
    && order.Cost() <= a.cash
    && (order.side.BuyYes? ==> no == 0.0)
    && (order.side.BuyNo? ==> yes == 0.0)
    && (if order.side.BuyYes? || order.side.SellNo? then Rising(config, a, market, current, target)
        else Falling(config, a, market, current, target))
  }

  lemma BuyIsPaid(config: Config, side: Side, market: int, price: real, held: real, cash: real)
    requires side.IsBuy() && MIN_PRICE <= price <= MAX_PRICE
    ensures var order := PriceIfAny(side, market, price,
                                    BuyQty(config.notionalBudget, price, config.maxInventory as real - held, cash));
            order.Some? ==>
              && order.value.side == side && order.value.market == market
              && order.value.quantity > 0 && order.value.nanos >= 0
              && held + order.value.quantity as real <= config.maxInventory as real
              && order.value.Cost() <= cash
  {
    var quantity := BuyQty(config.notionalBudget, price, config.maxInventory as real - held, cash);
    if quantity > 0 {
      AtPriceBounds(side, market, price, quantity);
      BuyQtyFits(config.notionalBudget, price, config.maxInventory as real - held, cash);
      TimesLimit(quantity as real, AtPrice(side, market, price, quantity).Limit(), price);
    }
  }

  lemma SaleIsCovered(config: Config, side: Side, market: int, price: real, held: real)
    requires !side.IsBuy() && MIN_PRICE <= price <= MAX_PRICE
    ensures var order := PriceIfAny(side, market, price, SellQty(config.notionalBudget, price, held));
            order.Some? ==>
              && order.value.side == side && order.value.market == market
              && order.value.quantity > 0 && order.value.nanos >= 0
              && order.value.quantity as real <= held
              && order.value.Cost() == 0.0
  {
    var quantity := SellQty(config.notionalBudget, price, held);
    if quantity > 0 {
      AtPriceBounds(side, market, price, quantity);
      SellQtyFits(config.notionalBudget, price, held);
    }
  }

  lemma SellYesIsDisciplined(config: Config, a: Account, market: int, current: real, target: real, held: real)
    requires Solvent(a) && held <= Position(a.yes, market) && Falling(config, a, market, current, target)
    ensures var order := SellYesOrder(config, market, current, held);
            order.Some? ==> Disciplined(config, a, market, current, target, order.value)
  {
    SaleIsCovered(config, SellYes, market, ClampPrice(current - config.quoteWidth), held);
  }

  lemma SellNoIsDisciplined(config: Config, a: Account, market: int, current: real, target: real, held: real)
    requires Solvent(a) && held <= Position(a.no, market) && Rising(config, a, market, current, target)
    ensures var order := SellNoOrder(config, market, current, held);
            order.Some? ==> Disciplined(config, a, market, current, target, order.value)
  {
    SaleIsCovered(config, SellNo, market, ClampPrice((1.0 - current) - config.quoteWidth), held);
  }

  lemma MoveYesIsDisciplined(config: Config, a: Account, market: int, current: real, target: real)
    requires Solvent(a) && target > current + config.quoteWidth
    ensures var order := MoveYes(config, market, target, current, Position(a.yes, market), Position(a.no, market),
                                 a.cash);
            order.Some? ==> Disciplined(config, a, market, current, target, order.value)
  {
    if Position(a.no, market) > 0.0 {
      SellNoIsDisciplined(config, a, market, current, target, Position(a.no, market));
    } else {
      BuyIsPaid(config, BuyYes, market, ClampPrice(target), Position(a.yes, market), a.cash);
    }
  }

  lemma MoveNoIsDisciplined(config: Config, a: Account, market: int, current: real, target: real)
    requires Solvent(a) && target < current - config.quoteWidth
    ensures var order := MoveNo(config, market, target, current, Position(a.yes, market), Position(a.no, market),
                                a.cash);
            order.Some? ==> Disciplined(config, a, market, current, target, order.value)
  {
    if Position(a.yes, market) > 0.0 {
      SellYesIsDisciplined(config, a, market, current, target, Position(a.yes, market));
    } else {
      BuyIsPaid(config, BuyNo, market, ClampPrice(1.0 - target), Position(a.no, market), a.cash);
    }
  }

  lemma DirectionalOrderIsDisciplined(config: Config, a: Account, market: int, current: real, target: real)
    requires Solvent(a)
    ensures var order := DirectionalOrder(config, market, current, target, Position(a.yes, market),
                                          Position(a.no, market), a.cash);
            order.Some? ==> Disciplined(config, a, market, current, target, order.value)
  {
    var yes, no, limit := Position(a.yes, market), Position(a.no, market), config.maxInventory as real;
    if yes - no > limit {
      SellYesIsDisciplined(config, a, market, current, target, yes - limit);
    } else if yes - no < -limit {
      SellNoIsDisciplined(config, a, market, current, target, no - limit);
    } else if target > current + config.quoteWidth {
      MoveYesIsDisciplined(config, a, market, current, target);
    } else if target < current - config.quoteWidth {
      MoveNoIsDisciplined(config, a, market, current, target);
    }
  }

  // ---------------------------------------------------------- runs of blocks

  /** The market drawn in a block, with its mark and target where it has them, and
      the fill its order would get. */
  datatype Block = Block(market: int, current: Option<real>, target: Option<real>, fill: Fill)

  function BlockOrder(config: Config, a: Account, b: Block): Option<Order> {
    if b.current.None? || b.target.None? then None
    else DirectionalOrder(config, b.market, b.current.value, b.target.value,
                          Position(a.yes, b.market), Position(a.no, b.market), a.cash)
  }

  function AfterBlock(config: Config, a: Account, b: Block): Account {
    var order := BlockOrder(config, a, b);
    if order.Some? && FillOk(order.value, b.fill) then Execute(a, order.value, b.fill) else a
  }

  function AfterBlocks(config: Config, a: Account, blocks: seq<Block>): Account
    decreases |blocks|
  {
    if blocks == [] then a else AfterBlocks(config, AfterBlock(config, a, blocks[0]), blocks[1..])
  }

  predicate OneSided(a: Account, market: int) {
    HeldIn(a.yes, market) == 0.0 || HeldIn(a.no, market) == 0.0
  }

  lemma BlockIsSafe(config: Config, a: Account, b: Block, market: int)
    requires Solvent(a)
    ensures Solvent(AfterBlock(config, a, b))
    ensures WithinLimit(a, AfterBlock(config, a, b), config.maxInventory)
    ensures OneSided(a, market) ==> OneSided(AfterBlock(config, a, b), market)
  {
    var order := BlockOrder(config, a, b);
    if order.Some? {
      DirectionalOrderIsDisciplined(config, a, b.market, b.current.value, b.target.value);
      if FillOk(order.value, b.fill) {
        ExecuteOne(a, config.maxInventory, order.value, b.fill);
        if OneSided(a, market) {
          StaysOneSided(config, a, b.market, b.current.value, b.target.value, order.value, b.fill, market);
        }
      }
    }
  }

  lemma StaysOneSided(config: Config, a: Account, drawn: int, current: real, target: real, order: Order, fill: Fill,
                      market: int)
    requires Solvent(a) && Disciplined(config, a, drawn, current, target, order) && FillOk(order, fill)
    requires OneSided(a, market)
    ensures OneSided(Execute(a, order, fill), market)
  {
  }

  /** Over every run of blocks, targets and partial fills, cash and holdings stay
      non-negative, no holding grows past the limit, and a market held on one side
      is never held on both. */
  lemma {:induction false} InventoryStaysSafe(config: Config, a: Account, blocks: seq<Block>, market: int)
    requires Solvent(a)
    ensures Solvent(AfterBlocks(config, a, blocks))
    ensures WithinLimit(a, AfterBlocks(config, a, blocks), config.maxInventory)
    ensures OneSided(a, market) ==> OneSided(AfterBlocks(config, a, blocks), market)
    decreases |blocks|
  {
    if blocks != [] {
      BlockIsSafe(config, a, blocks[0], market);
      InventoryStaysSafe(config, AfterBlock(config, a, blocks[0]), blocks[1..], market);
    }
  }
}
