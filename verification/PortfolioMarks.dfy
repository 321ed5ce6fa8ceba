/** What a portfolio is worth to the cash floor: shares count at what they trade for,
    so trading at those prices moves no value, and a pair of both outcomes is a dollar. */
module PortfolioMarks {
  import opened Reals
  import opened Orders
  import opened Rebalance

  /** What one share of an outcome trades for. */
  function SharePrice(price: int -> real, market: int, outcome: Outcome): real {
    if outcome == Yes then price(market) else 1.0 - price(market)
  }

  lemma MarkOf(price: int -> real, p: Position)
    requires price(p.market) > 0.0
    ensures Mark(price, p) == Times(p.quantity as real, SharePrice(price, p.market, p.outcome))
  {
    TimesSmall(SharePrice(price, p.market, p.outcome));
  }

  lemma MarkMoves(price: int -> real, p: Position, n: int)
    requires price(p.market) > 0.0
    ensures Mark(price, p.(quantity := p.quantity + n))
         == Mark(price, p) + Times(n as real, SharePrice(price, p.market, p.outcome))
  {
    var own := SharePrice(price, p.market, p.outcome);
    MarkOf(price, p);
    MarkOf(price, p.(quantity := p.quantity + n));
    assert (p.quantity + n) as real * own == p.quantity as real * own + n as real * own;
  }

  lemma {:induction false} MarksMove(price: int -> real, positions: seq<Position>, i: nat, n: int)
    requires i < |positions| && price(positions[i].market) > 0.0
    ensures var p := positions[i];
            Marks(price, positions[i := p.(quantity := p.quantity + n)])
            == Marks(price, positions) + Times(n as real, SharePrice(price, p.market, p.outcome))
  {
    var p := positions[i];
    var moved := positions[i := p.(quantity := p.quantity + n)];
    if i == 0 {
      assert moved[1..] == positions[1..];
      MarkMoves(price, p, n);
    } else {
      assert moved[1..] == positions[1..][i - 1 := p.(quantity := p.quantity + n)];
      MarksMove(price, positions[1..], i - 1, n);
    }
  }

  lemma {:induction false} MarksConcat(price: int -> real, a: seq<Position>, b: seq<Position>)
    ensures Marks(price, a + b) == Marks(price, a) + Marks(price, b)
  {
    if a == [] {
      assert a + b == b;
    } else {
      assert (a + b)[1..] == a[1..] + b;
      MarksConcat(price, a[1..], b);
    }
  }

  lemma OneMark(price: int -> real, p: Position)
    ensures Marks(price, [p]) == Mark(price, p)
  {
    assert [p][1..] == [];
  }

  /** Cash for shares of a position at what they trade for, or shares for cash with a
      negative `n`. */
  function Exchanged(s: Scene, i: nat, n: int): Scene
    requires i < |s.positions|
  {
    var p := s.positions[i];
    s.(balance := s.balance - Times(n as real, SharePrice(s.price, p.market, p.outcome)),
       positions := s.positions[i := p.(quantity := p.quantity + n)])
  }

  /** Buying or selling at the marks leaves the value of the portfolio alone. */
  lemma ExchangeKeepsValue(s: Scene, i: nat, n: int)
    requires i < |s.positions| && s.price(s.positions[i].market) > 0.0
    ensures PortfolioValue(Exchanged(s, i, n)) == PortfolioValue(s)
  {
    MarksMove(s.price, s.positions, i, n);
  }

  /** And so does opening a position at its mark. */
  lemma OpeningKeepsValue(s: Scene, p: Position)
    requires s.price(p.market) > 0.0
    ensures var paid := Times(p.quantity as real, SharePrice(s.price, p.market, p.outcome));
            PortfolioValue(s.(balance := s.balance - paid, positions := s.positions + [p])) == PortfolioValue(s)
  {
    MarksConcat(s.price, s.positions, [p]);
    OneMark(s.price, p);
    MarkOf(s.price, p);
  }

  /** A YES and a NO share of one market together are worth a dollar, at every price. */
  lemma PairsAreDollars(s: Scene, market: int, n: int)
    requires s.price(market) > 0.0
    ensures PortfolioValue(s.(positions := s.positions + [Position(market, Yes, n), Position(market, No, n)]))
         == PortfolioValue(s.(balance := s.balance + n as real))
  {
    var yes, no := Position(market, Yes, n), Position(market, No, n);
    MarksConcat(s.price, s.positions, [yes, no]);
    assert [yes] + [no] == [yes, no];
    MarksConcat(s.price, [yes], [no]);
    OneMark(s.price, yes);
    OneMark(s.price, no);
    MarkOf(s.price, yes);
    MarkOf(s.price, no);
    SplitDollar(n as real, s.price(market));
  }

  lemma SplitDollar(n: real, price: real)
    ensures Times(n, price) + Times(n, 1.0 - price) == n
  {
  }

  /** A market without a price adds nothing. */
  lemma UnpricedIsWorthless(s: Scene, p: Position)
    requires s.price(p.market) <= 0.0
    ensures PortfolioValue(s.(positions := s.positions + [p])) == PortfolioValue(s)
  {
    MarksConcat(s.price, s.positions, [p]);
    OneMark(s.price, p);
  }

  /** Cash counts for what it is, down to one cent in all. */
  lemma CashCounts(s: Scene)
    requires s.positions == []
    ensures PortfolioValue(s) == if s.balance < 0.01 then 0.01 else s.balance
  {
  }

  /** So a rebalance that starts from cash alone keeps a fifth of it. */
  lemma FifthIsKept(s: Scene, start: Desk, markets: seq<int>)
    requires s.config.Valid() && s.positions == [] && s.balance >= 0.01
    requires start.cash == s.balance && start.orders == []
    ensures TotalCost(Fold(s, start, markets).orders) <= 0.8 * s.balance
  {
    CashFloor(s, start, markets);
  }

  // ------------------------------------------------------------- closing out

  /** Closing a market offers exactly what is held, each outcome once. */
  lemma ClosingSellsHoldings(s: Scene, market: int)
    requires NonNegative(s.positions)
    ensures var orders := ClosingOrders(s, market);
            && Quantity(orders, SellYes, market) == Held(s.positions, market, Yes)
            && Quantity(orders, SellNo, market) == Held(s.positions, market, No)
            && Quantity(orders, BuyYes, market) == 0 == Quantity(orders, BuyNo, market)
            && forall order :: order in orders ==>
                 && order.market == market && order.quantity > 0
                 && order == AtPrice(order.side, market,
                                     SharePrice(s.price, market, if order.side.SellYes? then Yes else No),
                                     order.quantity)
  {
    var yes, no := Held(s.positions, market, Yes), Held(s.positions, market, No);
    HeldNonNegative(s.positions, market, Yes);
    HeldNonNegative(s.positions, market, No);
    var a := if yes > 0 then [AtPrice(SellYes, market, s.price(market), yes)] else [];
    var b := if no > 0 then [AtPrice(SellNo, market, 1.0 - s.price(market), no)] else [];
    forall side: Side
      ensures Quantity(ClosingOrders(s, market), side, market) == Part(side, SellYes, yes) + Part(side, SellNo, no)
    {
      QuantityConcat(a, b, side, market);
      QuantityOfOne(AtPrice(SellYes, market, s.price(market), yes), side, market);
      QuantityOfOne(AtPrice(SellNo, market, 1.0 - s.price(market), no), side, market);
    }
  }
}
