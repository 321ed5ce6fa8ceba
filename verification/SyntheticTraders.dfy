/** The synthetic takers of arena/live/synthetic.py: crossing noise and the
    inventory-aware strategies. Random draws, prices and fills are inputs. */
module SyntheticTraders {
  import opened Wrappers
  import opened Reals
  import opened Orders

  const MIN_PRICE: real := 0.01
  const MAX_PRICE: real := 0.99

  datatype Config = Config(maxInventory: nat, quoteWidth: real, notionalBudget: real, crossingEdge: real) {
    predicate Valid() { quoteWidth >= 0.0 && notionalBudget >= 0.0 && crossingEdge >= 0.0 }
  }

  function ClampPrice(price: real): (p: real)
    ensures MIN_PRICE <= p <= MAX_PRICE
  {
    Min(MAX_PRICE, Max(MIN_PRICE, price))
  }

  function BuyQty(budget: real, price: real, room: real, cash: real): int {
    var dollars := Min(budget, cash);
    if dollars <= 0.0 || price <= 0.0 || room <= 0.0 then 0
    else MaxInt(0, Floor(Min(room, dollars / price)))
  }

  function SellQty(budget: real, price: real, held: real): int {
    if held <= 0.0 then 0
    else if budget <= 0.0 || price <= 0.0 then Floor(held)
    else MaxInt(0, Floor(Min(held, budget / price)))
  }

  lemma BuyQtyFits(budget: real, price: real, room: real, cash: real)
    requires price > 0.0
    ensures var q := BuyQty(budget, price, room, cash);
            && q >= 0
            && (q > 0 ==> q as real <= room && Times(q as real, price) <= cash && Times(q as real, price) <= budget)
  {
    var q := BuyQty(budget, price, room, cash);
    if q > 0 {
      QuotientCost(q as real, Min(budget, cash), price);
    }
  }

  lemma SellQtyFits(budget: real, price: real, held: real)
    ensures 0 <= SellQty(budget, price, held)
    ensures SellQty(budget, price, held) > 0 ==> SellQty(budget, price, held) as real <= held
  {
  }

  // ----------------------------------------------------------------- accounts

  /** Cash and share holdings; absent markets hold nothing. */
  datatype Account = Account(cash: real, yes: map<int, real>, no: map<int, real>)

  function HeldIn(holdings: map<int, real>, market: int): real {
    if market in holdings then holdings[market] else 0.0
  }

  /** The strategies read a negative holding as none. */
  function Position(holdings: map<int, real>, market: int): real { Max(0.0, HeldIn(holdings, market)) }

  /** A partial or complete execution. */
  datatype Fill = Fill(quantity: real, price: real)

  predicate FillOk(order: Order, fill: Fill) {
    && 0.0 <= fill.quantity <= order.quantity as real
    && 0.0 <= fill.price
    && (if order.side.IsBuy() then fill.price <= order.Limit() else fill.price >= order.Limit())
  }

  function Add(holdings: map<int, real>, market: int, amount: real): map<int, real> {
    holdings[market := HeldIn(holdings, market) + amount]
  }

  function Execute(a: Account, order: Order, fill: Fill): Account {
    var money := Times(fill.quantity, fill.price);
    match order.side
    case BuyYes => Account(a.cash - money, Add(a.yes, order.market, fill.quantity), a.no)
    case BuyNo => Account(a.cash - money, a.yes, Add(a.no, order.market, fill.quantity))
    case SellYes => Account(a.cash + money, Add(a.yes, order.market, -fill.quantity), a.no)
    case SellNo => Account(a.cash + money, a.yes, Add(a.no, order.market, -fill.quantity))
  }

  function ExecuteAll(a: Account, orders: seq<Order>, fills: seq<Fill>): Account
    requires |orders| == |fills|
    decreases |orders|
  {
    if orders == [] then a else ExecuteAll(Execute(a, orders[0], fills[0]), orders[1..], fills[1..])
  }

  predicate Solvent(a: Account) {
    && a.cash >= 0.0
    && (forall m :: m in a.yes ==> a.yes[m] >= 0.0)
    && (forall m :: m in a.no ==> a.no[m] >= 0.0)
  }

  /** A sale is covered by the holding, a purchase leaves it within the limit. */
  predicate Fits(a: Account, maxInventory: nat, order: Order) {
    && order.quantity > 0
    && order.nanos >= 0
    && var held := HeldIn(if order.side.BuyYes? || order.side.SellYes? then a.yes else a.no, order.market);
       if order.side.IsBuy() then held + order.quantity as real <= maxInventory as real
       else order.quantity as real <= held
  }

  predicate DistinctMarkets(orders: seq<Order>) {
    forall i, j :: 0 <= i < j < |orders| ==> orders[i].market != orders[j].market
  }

  /** One submission: one order per market, each fitting, all buys paid for. */
  predicate Safe(a: Account, maxInventory: nat, orders: seq<Order>) {
    && DistinctMarkets(orders)
    && (forall i :: 0 <= i < |orders| ==> Fits(a, maxInventory, orders[i]))
    && TotalCost(orders) <= a.cash
  }

  lemma ExecuteOne(a: Account, maxInventory: nat, order: Order, fill: Fill)
    requires Solvent(a.(cash := 0.0)) && Fits(a, maxInventory, order) && FillOk(order, fill)
    ensures var after := Execute(a, order, fill);
            && Solvent(after.(cash := 0.0))
            && after.cash >= a.cash - order.Cost()
            && (forall m :: HeldIn(after.yes, m) <= Max(HeldIn(a.yes, m), maxInventory as real))
            && (forall m :: HeldIn(after.no, m) <= Max(HeldIn(a.no, m), maxInventory as real))
            && (forall m :: m != order.market ==>
                  HeldIn(after.yes, m) == HeldIn(a.yes, m) && HeldIn(after.no, m) == HeldIn(a.no, m))
  {
    TimesBetween(fill.quantity, order.quantity as real, fill.price, order.Limit());
  }

  lemma TimesBetween(q: real, most: real, price: real, limit: real)
    requires 0.0 <= q <= most && 0.0 <= price
    ensures 0.0 <= Times(q, price)
    ensures price <= limit ==> Times(q, price) <= Times(most, limit)
  {
    MulLe(0.0, q, price);
    if price <= limit {
      MulLe(q, most, price);
      MulLe(price, limit, most);
    }
  }

  lemma CostNonNegative(orders: seq<Order>)
    requires forall i :: 0 <= i < |orders| ==> orders[i].quantity > 0 && orders[i].nanos >= 0
    ensures TotalCost(orders) >= 0.0
  {
    if orders != [] {
      TimesBetween(orders[0].quantity as real, orders[0].quantity as real, orders[0].Limit(), orders[0].Limit());
      CostNonNegative(orders[1..]);
    }
  }

  ghost predicate WithinLimit(before: Account, after: Account, maxInventory: nat) {
    forall m :: HeldIn(after.yes, m) <= Max(HeldIn(before.yes, m), maxInventory as real)
             && HeldIn(after.no, m) <= Max(HeldIn(before.no, m), maxInventory as real)
  }

  lemma StillFits(a: Account, mid: Account, maxInventory: nat, market: int, order: Order)
    requires Fits(a, maxInventory, order) && order.market != market
    requires forall m :: m != market ==> HeldIn(mid.yes, m) == HeldIn(a.yes, m) && HeldIn(mid.no, m) == HeldIn(a.no, m)
    ensures Fits(mid, maxInventory, order)
  {
  }

  /** However a safe submission is filled, at or better than its limits, the
      account stays solvent and no holding grows past the inventory limit. */
  lemma {:induction false} SafeSubmissionStaysSolvent(a: Account, maxInventory: nat,
                                                      orders: seq<Order>, fills: seq<Fill>)
    requires Solvent(a) && Safe(a, maxInventory, orders) && |fills| == |orders|
    requires forall i :: 0 <= i < |orders| ==> FillOk(orders[i], fills[i])
    ensures Solvent(ExecuteAll(a, orders, fills))
    ensures WithinLimit(a, ExecuteAll(a, orders, fills), maxInventory)
    decreases |orders|
  {
    if orders != [] {
      var mid, rest := Execute(a, orders[0], fills[0]), orders[1..];
      ExecuteOne(a, maxInventory, orders[0], fills[0]);
      CostNonNegative(rest);
      forall i | 0 <= i < |rest|
        ensures Fits(mid, maxInventory, rest[i])
      {
        StillFits(a, mid, maxInventory, orders[0].market, orders[i + 1]);
      }
      SafeSubmissionStaysSolvent(mid, maxInventory, rest, fills[1..]);
    }
  }

  // ----------------------------------------------------------- crossing noise

  /** A market with its fresh external reference and its previous mark, if any. */
  datatype View = View(id: int, reference: Option<real>, previous: Option<real>)

  /** The draws spent on one market: the jitter, and which action is chosen. */
  datatype Draw = Draw(jitter: real, pick: nat)

  function Anchor(view: View): real {
    if view.reference.Some? then ClampPrice(view.reference.value)
    else if view.previous.Some? then ClampPrice(view.previous.value)
    else 0.5
  }

  function Mid(view: View, jitter: real): real { ClampPrice(Anchor(view) + jitter) }

  function Actions(config: Config, yes: real, no: real, cash: real, allowBuyYes: bool): seq<Side> {
    (if allowBuyYes && yes < config.maxInventory as real && cash > 0.0 then [BuyYes] else [])
    + (if no < config.maxInventory as real && cash > 0.0 then [BuyNo] else [])
    + (if yes > 0.0 then [SellYes] else [])
    + (if no > 0.0 then [SellNo] else [])
  }

  function CrossingPrice(config: Config, side: Side, mid: real): real {
    match side
    case BuyYes => ClampPrice(mid + config.crossingEdge)
    case BuyNo => ClampPrice((1.0 - mid) + config.crossingEdge)
    case SellYes => ClampPrice(mid - config.crossingEdge)
    case SellNo => ClampPrice((1.0 - mid) - config.crossingEdge)
  }

  function CrossingQty(config: Config, side: Side, price: real, yes: real, no: real, cash: real): int {
    match side
    case BuyYes => BuyQty(config.notionalBudget, price, config.maxInventory as real - yes, cash)
    case BuyNo => BuyQty(config.notionalBudget, price, config.maxInventory as real - no, cash)
    case SellYes => SellQty(config.notionalBudget, price, yes)
    case SellNo => SellQty(config.notionalBudget, price, no)
  }

  function OneOrder(config: Config, market: int, mid: real, yes: real, no: real, cash: real, allowBuyYes: bool,
                    pick: nat)
    : Option<Order>
  {
    var actions := Actions(config, yes, no, cash, allowBuyYes);
    if actions == [] then None
    else
      var side := actions[pick % |actions|];
      var price := CrossingPrice(config, side, mid);
      var quantity := CrossingQty(config, side, price, yes, no, cash);
      if quantity > 0 then Some(AtPrice(side, market, price, quantity)) else None
  }

  lemma OneOrderFits(config: Config, a: Account, market: int, mid: real, cash: real, allowBuyYes: bool, pick: nat)
    requires Solvent(a) && cash >= 0.0
    ensures var order := OneOrder(config, market, mid, Position(a.yes, market), Position(a.no, market), cash,
                                  allowBuyYes, pick);
            order.Some? ==>
              && order.value.market == market
              && Fits(a, config.maxInventory, order.value)
              && 0.0 <= order.value.Cost() <= cash
              && (order.value.side.BuyYes? ==> allowBuyYes)
  {
    var yes, no := Position(a.yes, market), Position(a.no, market);
    var order := OneOrder(config, market, mid, yes, no, cash, allowBuyYes, pick);
    if order.Some? {
      var actions := Actions(config, yes, no, cash, allowBuyYes);
      var side := actions[pick % |actions|];
      var price := CrossingPrice(config, side, mid);
      var quantity := CrossingQty(config, side, price, yes, no, cash);
      AtPriceBounds(side, market, price, quantity);
      if side.IsBuy() {
        BuyQtyFits(config.notionalBudget, price, config.maxInventory as real - (if side.BuyYes? then yes else no),
                   cash);
        TimesLimit(quantity as real, order.value.Limit(), price);
      } else {
        SellQtyFits(config.notionalBudget, price, if side.SellYes? then yes else no);
      }
    }
  }

  // ------------------------------------------------------- the per-block loop

  type Group = set<int>

  /** Running cash, YES purchases counted per group, and the orders so far. */
  datatype Tally = Tally(cash: real, bought: map<Group, nat>, orders: seq<Order>)

  function BoughtIn(bought: map<Group, nat>, group: Group): nat {
    if group in bought then bought[group] else 0
  }

  predicate MayBuyYes(groups: map<int, Group>, bought: map<Group, nat>, market: int) {
    market !in groups || BoughtIn(bought, groups[market]) < |groups[market]| - 1
  }

  function Book(groups: map<int, Group>, t: Tally, market: int, order: Order): Tally {
    Tally(t.cash - order.Cost(),
          if order.side.BuyYes? && market in groups
          then t.bought[groups[market] := BoughtIn(t.bought, groups[market]) + 1] else t.bought,
          t.orders + [order])
  }

  function Choice(config: Config, groups: map<int, Group>, a: Account, t: Tally, view: View,
                  draw: Draw): Option<Order> {
    OneOrder(config, view.id, Mid(view, draw.jitter), Position(a.yes, view.id), Position(a.no, view.id),
             t.cash, MayBuyYes(groups, t.bought, view.id), draw.pick)
  }

  function Offer(config: Config, groups: map<int, Group>, a: Account, t: Tally, view: View, draw: Draw): Tally {
    var order := Choice(config, groups, a, t, view, draw);
    if order.None? then t else Book(groups, t, view.id, order.value)
  }

  /** After the first `n` chosen markets. */
  function Offers(config: Config, groups: map<int, Group>, a: Account,
                  chosen: seq<View>, draws: seq<Draw>, n: nat): Tally
    requires n <= |draws| == |chosen|
  {
    if n == 0 then Tally(a.cash, map[], [])
    else Offer(config, groups, a, Offers(config, groups, a, chosen, draws, n - 1), chosen[n - 1], draws[n - 1])
  }

  /** One market's pass of the loop. */
  method OfferOne(config: Config, groups: map<int, Group>, a: Account, t: Tally, view: View, draw: Draw)
    returns (after: Tally)
    ensures after == Offer(config, groups, a, t, view, draw)
  {
    var remaining, boughtByGroup, orders := t.cash, t.bought, t.orders;
    var order := Choice(config, groups, a, t, view, draw);
    if order.Some? {
      orders := orders + [order.value];
      if order.value.side.BuyYes? && view.id in groups {
        boughtByGroup := boughtByGroup[groups[view.id] := BoughtIn(boughtByGroup, groups[view.id]) + 1];
      }
      remaining := remaining - order.value.Cost();
    }
    after := Tally(remaining, boughtByGroup, orders);
  }

  method GenerateOrders(config: Config, groups: map<int, Group>, a: Account, chosen: seq<View>, draws: seq<Draw>)
    returns (orders: seq<Order>)
    requires |draws| == |chosen|
    ensures orders == Offers(config, groups, a, chosen, draws, |chosen|).orders
  {
    var t := Tally(a.cash, map[], []);
    for i := 0 to |chosen|
      invariant t == Offers(config, groups, a, chosen, draws, i)
    {
      t := OfferOne(config, groups, a, t, chosen[i], draws[i]);
    }
    orders := t.orders;
  }

  predicate DistinctViews(chosen: seq<View>) {
    forall i, j :: 0 <= i < j < |chosen| ==> chosen[i].id != chosen[j].id
  }

  /** No order yet for the markets from the `n`th on. */
  predicate NotYet(orders: seq<Order>, chosen: seq<View>, n: nat) {
    forall i, k :: 0 <= i < |orders| && n <= k < |chosen| ==> orders[i].market != chosen[k].id
  }

  /** The running account is that of a safe submission for the markets so far. */
  predicate SafeTally(config: Config, a: Account, chosen: seq<View>, t: Tally, n: nat) {
    && Safe(a, config.maxInventory, t.orders)
    && t.cash == a.cash - TotalCost(t.orders) && t.cash >= 0.0
    && NotYet(t.orders, chosen, n)
  }

  lemma BookIsSafe(config: Config, groups: map<int, Group>, a: Account, chosen: seq<View>, t: Tally, n: nat,
                   order: Order)
    requires n < |chosen| && DistinctViews(chosen) && SafeTally(config, a, chosen, t, n)
    requires order.market == chosen[n].id && Fits(a, config.maxInventory, order) && order.Cost() <= t.cash
    ensures SafeTally(config, a, chosen, Book(groups, t, chosen[n].id, order), n + 1)
  {
    TotalCostConcat(t.orders, [order]);
    assert TotalCost([order]) == order.Cost() by { assert [order][1..] == []; }
  }

  lemma OfferIsSafe(config: Config, groups: map<int, Group>, a: Account, chosen: seq<View>, t: Tally, draw: Draw,
                    n: nat)
    requires Solvent(a) && n < |chosen| && DistinctViews(chosen) && SafeTally(config, a, chosen, t, n)
    ensures SafeTally(config, a, chosen, Offer(config, groups, a, t, chosen[n], draw), n + 1)
  {
    var view := chosen[n];
    OneOrderFits(config, a, view.id, Mid(view, draw.jitter), t.cash, MayBuyYes(groups, t.bought, view.id), draw.pick);
    var order := Choice(config, groups, a, t, view, draw);
    if order.Some? {
      BookIsSafe(config, groups, a, chosen, t, n, order.value);
    }
  }

  /** What every offer keeps holds of all of them. */
  lemma {:induction false} OffersKeep(config: Config, groups: map<int, Group>, a: Account,
                                      chosen: seq<View>, draws: seq<Draw>, n: nat,
                                      p: (Tally, nat) -> bool)
    requires n <= |draws| == |chosen|
    requires p(Tally(a.cash, map[], []), 0)
    requires forall t, k: nat :: k < n && p(t, k) ==> p(Offer(config, groups, a, t, chosen[k], draws[k]), k + 1)
    ensures p(Offers(config, groups, a, chosen, draws, n), n)
  {
    if n > 0 {
      OffersKeep(config, groups, a, chosen, draws, n - 1, p);
    }
  }

  lemma OffersAreSafe(config: Config, groups: map<int, Group>, a: Account, chosen: seq<View>, draws: seq<Draw>, n: nat)
    requires Solvent(a) && DistinctViews(chosen) && n <= |draws| == |chosen|
    ensures SafeTally(config, a, chosen, Offers(config, groups, a, chosen, draws, n), n)
  {
    var p := (t: Tally, k: nat) => SafeTally(config, a, chosen, t, k);
    NoOffersAreSafe(config, a, chosen);
    forall t, k: nat | k < n && p(t, k)
      ensures p(Offer(config, groups, a, t, chosen[k], draws[k]), k + 1)
    {
      OfferIsSafe(config, groups, a, chosen, t, draws[k], k);
    }
    OffersKeep(config, groups, a, chosen, draws, n, p);
  }

  lemma NoOffersAreSafe(config: Config, a: Account, chosen: seq<View>)
    requires Solvent(a)
    ensures SafeTally(config, a, chosen, Tally(a.cash, map[], []), 0)
  {
  }

  // ------------------------------------------------------------------- groups

  function YesMarkets(orders: seq<Order>): set<int> {
    set i | 0 <= i < |orders| && orders[i].side.BuyYes? :: orders[i].market
  }

  predicate CountsFor(groups: map<int, Group>, order: Order, g: Group) {
    order.side.BuyYes? && order.market in groups && groups[order.market] == g
  }

  function YesBuys(orders: seq<Order>, groups: map<int, Group>, g: Group): nat {
    if orders == [] then 0
    else YesBuys(orders[..|orders| - 1], groups, g) + (if CountsFor(groups, orders[|orders| - 1], g) then 1 else 0)
  }

  lemma YesBuysAppend(orders: seq<Order>, order: Order, groups: map<int, Group>, g: Group)
    ensures YesBuys(orders + [order], groups, g)
            == YesBuys(orders, groups, g) + (if CountsFor(groups, order, g) then 1 else 0)
  {
    assert (orders + [order])[..|orders|] == orders;
  }

  /** The count kept for a group is that of its YES purchases, short of its size. */
  predicate Counted(groups: map<int, Group>, g: Group, t: Tally) {
    && BoughtIn(t.bought, g) == YesBuys(t.orders, groups, g)
    && (YesBuys(t.orders, groups, g) > 0 ==> YesBuys(t.orders, groups, g) < |g|)
  }

  lemma BookCounts(groups: map<int, Group>, g: Group, t: Tally, order: Order)
    requires Counted(groups, g, t)
    requires order.side.BuyYes? ==> MayBuyYes(groups, t.bought, order.market)
    ensures Counted(groups, g, Book(groups, t, order.market, order))
  {
    var after := Book(groups, t, order.market, order);
    YesBuysAppend(t.orders, order, groups, g);
    if CountsFor(groups, order, g) {
      assert BoughtIn(after.bought, g) == BoughtIn(t.bought, g) + 1;
    } else {
      assert BoughtIn(after.bought, g) == BoughtIn(t.bought, g);
    }
  }

  lemma OffersCount(config: Config, groups: map<int, Group>, a: Account, chosen: seq<View>, draws: seq<Draw>, n: nat,
                    g: Group)
    requires Solvent(a) && DistinctViews(chosen) && n <= |draws| == |chosen|
    ensures Counted(groups, g, Offers(config, groups, a, chosen, draws, n))
  {
    var p := (t: Tally, k: nat) => SafeTally(config, a, chosen, t, k) && Counted(groups, g, t);
    NoOffersAreSafe(config, a, chosen);
    forall t, k: nat | k < n && p(t, k)
      ensures p(Offer(config, groups, a, t, chosen[k], draws[k]), k + 1)
    {
      OfferIsSafe(config, groups, a, chosen, t, draws[k], k);
      OfferCounts(config, groups, a, t, chosen[k], draws[k], g);
    }
    OffersKeep(config, groups, a, chosen, draws, n, p);
  }

  lemma OfferCounts(config: Config, groups: map<int, Group>, a: Account, t: Tally, view: View, draw: Draw, g: Group)
    requires Solvent(a) && t.cash >= 0.0 && Counted(groups, g, t)
    ensures Counted(groups, g, Offer(config, groups, a, t, view, draw))
  {
    OneOrderFits(config, a, view.id, Mid(view, draw.jitter), t.cash, MayBuyYes(groups, t.bought, view.id), draw.pick);
    var order := Choice(config, groups, a, t, view, draw);
    if order.Some? {
      BookCounts(groups, g, t, order.value);
    }
  }

  /** The members of `g` that the strategy counts towards group `h`. */
  function Mapped(groups: map<int, Group>, g: Group, h: Group): set<int> {
    set m | m in g && m in groups && groups[m] == h
  }

  lemma {:induction false} YesBuysCover(orders: seq<Order>, groups: map<int, Group>, h: Group, members: set<int>)
    requires members <= YesMarkets(orders)
    requires forall m :: m in members ==> m in groups && groups[m] == h
    ensures |members| <= YesBuys(orders, groups, h)
  {
    if orders == [] {
      assert members == {};
    } else {
      var last, before := orders[|orders| - 1], orders[..|orders| - 1];
      if last.side.BuyYes? && last.market in members {
        var rest := members - {last.market};
        assert rest <= YesMarkets(before) by { CoverBefore(orders, rest, last.market); }
        YesBuysCover(before, groups, h, rest);
        assert members == rest + {last.market};
      } else {
        CoverBefore(orders, members, last.market);
        YesBuysCover(before, groups, h, members);
      }
    }
  }

  lemma CoverBefore(orders: seq<Order>, members: set<int>, market: int)
    requires orders != [] && members <= YesMarkets(orders)
    requires market == orders[|orders| - 1].market
    requires orders[|orders| - 1].side.BuyYes? ==> market !in members
    ensures members <= YesMarkets(orders[..|orders| - 1])
  {
    var before := orders[..|orders| - 1];
    forall m | m in members
      ensures m in YesMarkets(before)
    {
      var i :| 0 <= i < |orders| && orders[i].side.BuyYes? && orders[i].market == m;
      assert before[i] == orders[i];
    }
  }

  /** Some group that members of `g` are counted towards is no larger than their
      number. A group whose members are all counted towards it is capped; with
      overlapping groups, where the last one listed wins, this can fail. */
  predicate Capped(groups: map<int, Group>, g: Group) {
    exists m :: m in g && m in groups && |Mapped(groups, g, groups[m])| >= |groups[m]|
  }

  /** A submission never buys YES on every member of a capped group. */
  lemma GroupNeverComplete(config: Config, groups: map<int, Group>, a: Account,
                           chosen: seq<View>, draws: seq<Draw>, g: Group)
    requires Solvent(a) && DistinctViews(chosen) && |draws| == |chosen|
    requires Capped(groups, g)
    ensures !(g <= YesMarkets(Offers(config, groups, a, chosen, draws, |chosen|).orders))
  {
    var orders := Offers(config, groups, a, chosen, draws, |chosen|).orders;
    var m :| m in g && m in groups && |Mapped(groups, g, groups[m])| >= |groups[m]|;
    var h := groups[m];
    OffersCount(config, groups, a, chosen, draws, |chosen|, h);
    assert m in Mapped(groups, g, h);
    if g <= YesMarkets(orders) {
      YesBuysCover(orders, groups, h, Mapped(groups, g, h));
    }
  }

  /** A group is capped when all its members are counted towards it. */
  lemma OwnGroupIsCapped(groups: map<int, Group>, g: Group, member: int)
    requires member in g && forall m :: m in g ==> m in groups && groups[m] == g
    ensures Capped(groups, g)
  {
    forall m
      ensures m in Mapped(groups, g, g) <==> m in g
    {
    }
    assert Mapped(groups, g, groups[member]) == g;
  }

  lemma {:induction false} YesBuysWithin(orders: seq<Order>, groups: map<int, Group>, h: Group, members: set<int>)
    requires DistinctMarkets(orders)
    requires forall i :: 0 <= i < |orders| && CountsFor(groups, orders[i], h) ==> orders[i].market in members
    ensures YesBuys(orders, groups, h) <= |members|
  {
    if orders != [] {
      var last, before := orders[|orders| - 1], orders[..|orders| - 1];
      if CountsFor(groups, last, h) {
        YesBuysWithin(before, groups, h, members - {last.market});
        assert members == members - {last.market} + {last.market};
      } else {
        YesBuysWithin(before, groups, h, members);
      }
    }
  }

  const EAGER := Config(1, 0.0, 1.0, 0.0)

  lemma EagerBuysYes(market: int, cash: real)
    requires cash >= 1.0
    ensures var order := OneOrder(EAGER, market, Mid(View(market, None, None), 0.0), 0.0, 0.0, cash, true, 0);
            order.Some? && order.value.side.BuyYes? && order.value.market == market && order.value.Cost() <= 1.0
  {
    assert Mid(View(market, None, None), 0.0) == 0.5;
    assert Min(1.0, 1.0 / 0.5) == 1.0;
    AtPriceBounds(BuyYes, market, 0.5, 1);
  }

  lemma EagerOffer(groups: map<int, Group>, a: Account, t: Tally, market: int)
    requires a.yes == map[] && a.no == map[] && t.cash >= 1.0
    requires MayBuyYes(groups, t.bought, market)
    ensures var after := Offer(EAGER, groups, a, t, View(market, None, None), Draw(0.0, 0));
            && |after.orders| == |t.orders| + 1 && after.orders[..|t.orders|] == t.orders
            && after.orders[|t.orders|].side.BuyYes? && after.orders[|t.orders|].market == market
            && after.cash >= t.cash - 1.0
  {
    EagerBuysYes(market, t.cash);
  }

  predicate Distinct(ids: seq<int>) { forall i, j :: 0 <= i < j < |ids| ==> ids[i] != ids[j] }

  predicate AllBought(orders: seq<Order>, ids: seq<int>, n: nat)
    requires n <= |ids|
  {
    |orders| == n && forall i :: 0 <= i < n ==> orders[i].side.BuyYes? && orders[i].market == ids[i]
  }

  /** YES bought on the first `n`, with cash left for the rest. */
  predicate Buying(t: Tally, ids: seq<int>, n: nat)
    requires n <= |ids|
  {
    AllBought(t.orders, ids, n) && t.cash >= (|ids| - n) as real
  }

  lemma EagerMayBuy(groups: map<int, Group>, g: Group, ids: seq<int>, t: Tally, n: nat)
    requires !Capped(groups, g) && n < |ids| && Distinct(ids) && forall i :: 0 <= i < |ids| ==> ids[i] in g
    requires AllBought(t.orders, ids, n) && (ids[n] in groups ==> Counted(groups, groups[ids[n]], t))
    ensures MayBuyYes(groups, t.bought, ids[n])
  {
    var market := ids[n];
    if market in groups {
      var h := groups[market];
      YesBuysWithin(t.orders, groups, h, Mapped(groups, g, h) - {market});
      assert Mapped(groups, g, h) == Mapped(groups, g, h) - {market} + {market};
      assert |Mapped(groups, g, h)| < |h|;
    }
  }

  ghost predicate Eager(groups: map<int, Group>, t: Tally, ids: seq<int>, n: nat) {
    n <= |ids| && Buying(t, ids, n) && forall h :: Counted(groups, h, t)
  }

  lemma EagerStep(groups: map<int, Group>, g: Group, ids: seq<int>, a: Account, t: Tally, n: nat)
    requires !Capped(groups, g) && n < |ids| && Distinct(ids) && forall i :: 0 <= i < |ids| ==> ids[i] in g
    requires Solvent(a) && a.yes == map[] && a.no == map[] && Eager(groups, t, ids, n)
    ensures Eager(groups, Offer(EAGER, groups, a, t, View(ids[n], None, None), Draw(0.0, 0)), ids, n + 1)
  {
    var view, draw := View(ids[n], None, None), Draw(0.0, 0);
    var after := Offer(EAGER, groups, a, t, view, draw);
    EagerMayBuy(groups, g, ids, t, n);
    EagerOffer(groups, a, t, ids[n]);
    assert Buying(after, ids, n + 1);
    forall h
      ensures Counted(groups, h, after)
    {
      OfferCounts(EAGER, groups, a, t, view, draw, h);
    }
  }

  lemma {:induction false} EagerBuysAll(groups: map<int, Group>, g: Group, ids: seq<int>, a: Account,
                                        chosen: seq<View>, draws: seq<Draw>)
    requires !Capped(groups, g) && Distinct(ids) && forall i :: 0 <= i < |ids| ==> ids[i] in g
    requires |ids| == |chosen| == |draws|
    requires forall i :: 0 <= i < |ids| ==> chosen[i] == View(ids[i], None, None) && draws[i] == Draw(0.0, 0)
    requires Solvent(a) && a.yes == map[] && a.no == map[] && a.cash == |ids| as real
    ensures Eager(groups, Offers(EAGER, groups, a, chosen, draws, |ids|), ids, |ids|)
  {
    forall t, k: nat | k < |ids| && Eager(groups, t, ids, k)
      ensures Eager(groups, Offer(EAGER, groups, a, t, chosen[k], draws[k]), ids, k + 1)
    {
      EagerStep(groups, g, ids, a, t, k);
    }
    OffersKeep(EAGER, groups, a, chosen, draws, |ids|, (t: Tally, k: nat) => Eager(groups, t, ids, k));
  }

  /** The cap is exact: for a group that is not capped, some solvent account and
      some draws make one submission buy YES on every member, in any order. */
  lemma UncappedGroupCompletes(groups: map<int, Group>, g: Group, ids: seq<int>)
    returns (config: Config, a: Account, chosen: seq<View>, draws: seq<Draw>)
    requires !Capped(groups, g)
    requires (forall m :: m in g <==> m in ids) && Distinct(ids)
    ensures config.Valid() && Solvent(a) && DistinctViews(chosen) && |draws| == |chosen|
    ensures g <= YesMarkets(Offers(config, groups, a, chosen, draws, |chosen|).orders)
  {
    config, a := EAGER, Account(|ids| as real, map[], map[]);
    chosen := seq(|ids|, i requires 0 <= i < |ids| => View(ids[i], None, None));
    draws := seq(|ids|, i => Draw(0.0, 0));
    assert forall i :: 0 <= i < |ids| ==> ids[i] in ids && ids[i] in g;
    EagerBuysAll(groups, g, ids, a, chosen, draws);
    var orders := Offers(config, groups, a, chosen, draws, |chosen|).orders;
    forall m | m in g
      ensures m in YesMarkets(orders)
    {
      var i :| 0 <= i < |ids| && ids[i] == m;
      assert orders[i].market == m;
    }
  }

  /** Two groups that share market 2, which is counted towards the second:
      nothing stops a purchase of YES on both members of the first. */
  lemma OverlapEscapesTheCap()
    ensures !Capped(map[1 := {1, 2}, 2 := {2, 3}, 3 := {2, 3}], {1, 2})
  {
    var groups: map<int, Group> := map[1 := {1, 2}, 2 := {2, 3}, 3 := {2, 3}];
    assert Mapped(groups, {1, 2}, {1, 2}) == {1} by { assert 3 in {2, 3} && 3 !in {1, 2}; }
    assert Mapped(groups, {1, 2}, {2, 3}) == {2} by { assert 3 in {2, 3} && 3 !in {1, 2}; }
  }

  // ---------------------------------------------------------- runs of blocks

  datatype Block = Block(chosen: seq<View>, draws: seq<Draw>, fills: seq<Fill>)

  predicate BlockOk(config: Config, groups: map<int, Group>, a: Account, b: Block) {
    && |b.draws| == |b.chosen| && DistinctViews(b.chosen)
    && var orders := Offers(config, groups, a, b.chosen, b.draws, |b.chosen|).orders;
       |b.fills| == |orders| && forall i :: 0 <= i < |orders| ==> FillOk(orders[i], b.fills[i])
  }

  function AfterBlock(config: Config, groups: map<int, Group>, a: Account, b: Block): Account
    requires BlockOk(config, groups, a, b)
  {
    ExecuteAll(a, Offers(config, groups, a, b.chosen, b.draws, |b.chosen|).orders, b.fills)
  }

  predicate BlocksOk(config: Config, groups: map<int, Group>, a: Account, blocks: seq<Block>)
    decreases |blocks|
  {
    blocks == [] ||
    (&& BlockOk(config, groups, a, blocks[0])
     && BlocksOk(config, groups, AfterBlock(config, groups, a, blocks[0]), blocks[1..]))
  }

  function AfterBlocks(config: Config, groups: map<int, Group>, a: Account, blocks: seq<Block>): Account
    requires BlocksOk(config, groups, a, blocks)
    decreases |blocks|
  {
    if blocks == [] then a else AfterBlocks(config, groups, AfterBlock(config, groups, a, blocks[0]), blocks[1..])
  }

  /** Over every run of blocks, draws and partial fills at or better than limit,
      cash and holdings stay non-negative and no holding grows past the limit. */
  lemma {:induction false} CrossingNoiseStaysSafe(config: Config, groups: map<int, Group>, a: Account,
                                                  blocks: seq<Block>)
    requires Solvent(a) && BlocksOk(config, groups, a, blocks)
    ensures Solvent(AfterBlocks(config, groups, a, blocks))
    ensures WithinLimit(a, AfterBlocks(config, groups, a, blocks), config.maxInventory)
    decreases |blocks|
  {
    if blocks != [] {
      var b := blocks[0];
      OffersAreSafe(config, groups, a, b.chosen, b.draws, |b.chosen|);
      SafeSubmissionStaysSolvent(a, config.maxInventory,
                                 Offers(config, groups, a, b.chosen, b.draws, |b.chosen|).orders, b.fills);
      CrossingNoiseStaysSafe(config, groups, AfterBlock(config, groups, a, b), blocks[1..]);
    }
  }
}
