/** How often Flat trades when nothing changes: price and fair value are fixed,
    every order is filled, and each rebalance may find any amount of cash. */
module FlatChurn {
  import opened Wrappers
  import opened Reals
  import opened Orders
  import opened Strategy

  datatype Scene = Scene(flat: Flat, market: int, fairValue: real, price: real) {
    function Edge(): real { fairValue - price }

    /** The price and the limit of the side the edge favours; a zero edge counts
        for NO. */
    function OwnPrice(): real { if Edge() > 0.0 then price else 1.0 - price }
    function OwnLimit(): real { if Edge() > 0.0 then fairValue else 1.0 - fairValue }
  }

  datatype Book = Book(yes: nat, no: nat, entry: Option<real>)

  function Fill(order: Order, yes: int, no: int): (int, int) {
    match order.side
    case BuyYes => (yes + order.quantity, no)
    case BuyNo => (yes, no + order.quantity)
    case SellYes => (yes - order.quantity, no)
    case SellNo => (yes, no - order.quantity)
  }

  function FillAll(orders: seq<Order>, yes: int, no: int): (int, int) {
    if orders == [] then (yes, no)
    else var (y, n) := Fill(orders[0], yes, no); FillAll(orders[1..], y, n)
  }

  function RoundOrders(s: Scene, b: Book, cash: real): seq<Order> {
    var ((targetYes, targetNo), _) := FlatTarget(s.flat, b.entry, s.fairValue, s.price, b.yes, b.no);
    PositionOrders(s.market, targetYes, targetNo, b.yes, b.no, s.fairValue, s.price, cash)
  }

  // What a filled side holds afterwards, without the order lists.
  function Bought(target: int, current: nat, cash: real, limit: real): nat {
    if target > current then MaxInt(MinInt(target - current, Affordable(cash, limit)), 0) else 0
  }

  function After(target: nat, current: nat, cash: real, limit: real): nat {
    if target < current then target else current + Bought(target, current, cash, limit)
  }

  /** One rebalance with everything filled (`RoundFillsOrders`). */
  function Round(s: Scene, b: Book, cash: real): Book {
    var ((targetYes, targetNo), entry) := FlatTarget(s.flat, b.entry, s.fairValue, s.price, b.yes, b.no);
    Book(After(targetYes, b.yes, cash, s.fairValue), After(targetNo, b.no, cash, 1.0 - s.fairValue), entry)
  }

  /** In how many of the rebalances orders are emitted. */
  function Trades(s: Scene, b: Book, cashes: seq<real>): nat
    decreases |cashes|
  {
    if cashes == [] then 0
    else (if RoundOrders(s, b, cashes[0]) == [] then 0 else 1) + Trades(s, Round(s, b, cashes[0]), cashes[1..])
  }

  // ------------------------------------------------- what one rebalance does

  lemma FillAllConcat(a: seq<Order>, b: seq<Order>, yes: int, no: int)
    ensures FillAll(a + b, yes, no) == var (y, n) := FillAll(a, yes, no); FillAll(b, y, n)
  {
    if a == [] {
      assert a + b == b;
    } else {
      assert (a + b)[1..] == a[1..] + b;
      var (y, n) := Fill(a[0], yes, no);
      FillAllConcat(a[1..], b, y, n);
    }
  }

  lemma FillSingle(order: Order, yes: int, no: int)
    ensures FillAll([order], yes, no) == Fill(order, yes, no)
  {
    assert [order][1..] == [];
  }

  // Any list of at most one order per step fills as its orders do in turn.
  lemma FillPositionOrders(market: int, ty: nat, tn: nat, yes: nat, no: nat, fairValue: real, price: real, cash: real)
    ensures FillAll(PositionOrders(market, ty, tn, yes, no, fairValue, price, cash), yes, no)
         == (After(ty, yes, cash, fairValue), After(tn, no, cash, 1.0 - fairValue))
  {
    var a := ExitOrders(SellYes, market, price, ty, yes);
    var b := ExitOrders(SellNo, market, 1.0 - price, tn, no);
    var c := TrimOrders(SellYes, market, price, ty, yes);
    var d := TrimOrders(SellNo, market, 1.0 - price, tn, no);
    var e := BuyOrders(BuyYes, market, fairValue, ty, yes, cash);
    var f := BuyOrders(BuyNo, market, 1.0 - fairValue, tn, no, cash);
    FillSix(a, b, c, d, e, f, yes, no);
  }

  lemma NoPositionOrders(market: int, ty: nat, tn: nat, yes: nat, no: nat, fairValue: real, price: real, cash: real)
    ensures PositionOrders(market, ty, tn, yes, no, fairValue, price, cash) == [] <==>
            ty >= yes && tn >= no && Bought(ty, yes, cash, fairValue) == 0 && Bought(tn, no, cash, 1.0 - fairValue) == 0
  {
    SixEmpty(ExitOrders(SellYes, market, price, ty, yes), ExitOrders(SellNo, market, 1.0 - price, tn, no),
             TrimOrders(SellYes, market, price, ty, yes), TrimOrders(SellNo, market, 1.0 - price, tn, no),
             BuyOrders(BuyYes, market, fairValue, ty, yes, cash),
             BuyOrders(BuyNo, market, 1.0 - fairValue, tn, no, cash));
  }

  lemma SixEmpty(a: seq<Order>, b: seq<Order>, c: seq<Order>, d: seq<Order>, e: seq<Order>, f: seq<Order>)
    ensures a + b + c + d + e + f == [] <==> a == [] && b == [] && c == [] && d == [] && e == [] && f == []
  {
    assert |a + b + c + d + e + f| == |a| + |b| + |c| + |d| + |e| + |f|;
  }

  function Step(orders: seq<Order>, held: (int, int)): (int, int) {
    if orders == [] then held else Fill(orders[0], held.0, held.1)
  }

  lemma FillSix(a: seq<Order>, b: seq<Order>, c: seq<Order>, d: seq<Order>, e: seq<Order>, f: seq<Order>, yes: int,
                no: int)
    requires |a| <= 1 && |b| <= 1 && |c| <= 1 && |d| <= 1 && |e| <= 1 && |f| <= 1
    ensures FillAll(a + b + c + d + e + f, yes, no) == Step(f, Step(e, Step(d, Step(c, Step(b, Step(a, (yes, no)))))))
  {
    FillLast(a + b + c + d + e, f, yes, no);
    FillLast(a + b + c + d, e, yes, no);
    FillLast(a + b + c, d, yes, no);
    FillLast(a + b, c, yes, no);
    FillLast(a, b, yes, no);
    FillLast([], a, yes, no);
    assert [] + a == a;
  }

  lemma FillLast(a: seq<Order>, b: seq<Order>, yes: int, no: int)
    requires |b| <= 1
    ensures FillAll(a + b, yes, no) == Step(b, FillAll(a, yes, no))
  {
    FillAllConcat(a, b, yes, no);
    if |b| == 1 {
      var (y, n) := FillAll(a, yes, no);
      FillSingle(b[0], y, n);
      assert b == [b[0]];
    }
  }

  lemma RoundFillsOrders(s: Scene, b: Book, cash: real)
    ensures FillAll(RoundOrders(s, b, cash), b.yes, b.no) == (Round(s, b, cash).yes, Round(s, b, cash).no)
    ensures RoundOrders(s, b, cash) == [] <==> Round(s, b, cash).yes == b.yes && Round(s, b, cash).no == b.no
  {
    var ((targetYes, targetNo), _) := FlatTarget(s.flat, b.entry, s.fairValue, s.price, b.yes, b.no);
    FillPositionOrders(s.market, targetYes, targetNo, b.yes, b.no, s.fairValue, s.price, cash);
    NoPositionOrders(s.market, targetYes, targetNo, b.yes, b.no, s.fairValue, s.price, cash);
  }

  // ----------------------------------------------------- how much is left to do

  function Entry(s: Scene, b: Book): real { if b.entry.Some? then b.entry.value else s.price }

  predicate Quiet(s: Scene) { Abs(s.Edge()) < s.flat.minEdge }

  /** The shares a new position is worth, none when nothing is to be opened. */
  function Shares(s: Scene): nat {
    if IsResolved(s.price) || Quiet(s) then 0 else FlatShares(s.flat, s.OwnPrice())
  }

  /** A position is opened that the exit rules close again at once: the stop-loss
      fraction is not positive, or the edge counts as turned against it. */
  predicate Restless(s: Scene) {
    Shares(s) > 0 && (s.flat.exitAdverseFrac <= 0.0 || Abs(s.Edge()) < -s.flat.minEdge)
  }

  /** The edge sits exactly on the threshold and favours the side not held; the
      entry price remembered from the other side already counts as a loss on
      the side about to be bought. */
  predicate Stale(s: Scene, b: Book) {
    && Shares(s) > 0
    && var entry := Entry(s, b);
       || (b.yes == 0 && b.no > 0 && 0.0 < s.Edge() == s.flat.minEdge
           && !AdverseNo(s.flat, entry, s.price) && AdverseYes(s.flat, entry, s.price))
       || (b.no == 0 && b.yes > 0 && 0.0 >= s.Edge() == -s.flat.minEdge
           && !AdverseYes(s.flat, entry, s.price) && AdverseNo(s.flat, entry, s.price))
  }

  /** Rebalances that trade once flat. A zero edge that is let through tops the
      position up, share by share if cash is short. */
  function FlatRank(s: Scene): nat {
    if s.Edge() == 0.0 then Shares(s) else MinInt(Shares(s), 1)
  }

  /** A book that a zero edge moves to NO. */
  function ZeroEdgeRank(s: Scene, b: Book): nat {
    var shares := Shares(s);
    if shares == 0 then 1
    else if b.no == 0 then (if Stale(s, b) then 2 else 1) + shares
    else (if b.yes > 0 || b.no > shares then 1 else 0) + (if b.no < shares then shares - b.no else 0)
  }

  /** The most rebalances that can still trade. */
  function Rank(s: Scene, b: Book): nat {
    if b.yes == 0 && b.no == 0 then FlatRank(s)
    else if IsResolved(s.price) then 1
    else if MustExit(s.flat, Entry(s, b), s.Edge(), s.price, b.yes, b.no) then 1 + FlatRank(s)
    else if Quiet(s) then 0
    else if s.Edge() == 0.0 then ZeroEdgeRank(s, b)
    else if (if s.Edge() > 0.0 then b.yes > 0 else b.no > 0) then (if b.yes > 0 && b.no > 0 then 1 else 0)
    else if Stale(s, b) then 3
    else 1 + FlatRank(s)
  }

  function Traded(s: Scene, b: Book, cash: real): nat { if RoundOrders(s, b, cash) == [] then 0 else 1 }

  lemma AtOwnPrice(s: Scene)
    requires !IsResolved(s.price)
    ensures AdverseYes(s.flat, s.price, s.price) == AdverseNo(s.flat, s.price, s.price)
            == (s.flat.exitAdverseFrac <= 0.0)
  {
    assert (s.price - s.price) / s.price == 0.0;
    assert (s.price - s.price) / (1.0 - s.price) == 0.0;
  }

  lemma FlatBookLowersRank(s: Scene, b: Book, cash: real)
    requires !Restless(s) && b.yes == 0 && b.no == 0
    ensures Rank(s, Round(s, b, cash)) + Traded(s, b, cash) <= Rank(s, b)
  {
    RoundFillsOrders(s, b, cash);
    if !IsResolved(s.price) {
      AtOwnPrice(s);
    }
  }

  lemma ZeroEdgeLowersRank(s: Scene, b: Book, cash: real)
    requires !Restless(s) && (b.yes > 0 || b.no > 0) && !IsResolved(s.price) && !Quiet(s) && s.Edge() == 0.0
    requires !MustExit(s.flat, Entry(s, b), s.Edge(), s.price, b.yes, b.no)
    ensures Rank(s, Round(s, b, cash)) + Traded(s, b, cash) <= Rank(s, b)
  {
    RoundFillsOrders(s, b, cash);
    var after := Round(s, b, cash);
    assert after == Book(0, After(Shares(s), b.no, cash, s.OwnLimit()), Some(Entry(s, b)));
  }

  lemma HeldBookLowersRank(s: Scene, b: Book, cash: real)
    requires !Restless(s) && (b.yes > 0 || b.no > 0)
    ensures Rank(s, Round(s, b, cash)) + Traded(s, b, cash) <= Rank(s, b)
  {
    RoundFillsOrders(s, b, cash);
    var entry := Entry(s, b);
    var after := Round(s, b, cash);
    if IsResolved(s.price) {
    } else if MustExit(s.flat, entry, s.Edge(), s.price, b.yes, b.no) {
      assert after == Book(0, 0, None);
    } else if Quiet(s) {
      assert after == Book(b.yes, b.no, Some(entry));
    } else if s.Edge() == 0.0 {
      ZeroEdgeLowersRank(s, b, cash);
    } else if s.Edge() > 0.0 && b.yes > 0 {
      assert after == Book(b.yes, 0, Some(entry));
    } else if s.Edge() < 0.0 && b.no > 0 {
      assert after == Book(0, b.no, Some(entry));
    } else {
      assert after.entry == Some(entry);
    }
  }

  lemma {:induction false} TradesWithinRank(s: Scene, b: Book, cashes: seq<real>)
    requires !Restless(s)
    ensures Trades(s, b, cashes) <= Rank(s, b)
    decreases |cashes|
  {
    if cashes != [] {
      if b.yes == 0 && b.no == 0 {
        FlatBookLowersRank(s, b, cashes[0]);
      } else {
        HeldBookLowersRank(s, b, cashes[0]);
      }
      TradesWithinRank(s, Round(s, b, cashes[0]), cashes[1..]);
    }
  }

  // ------------------------------------------------- and it can all be spent

  lemma OneShare(limit: real)
    requires limit > 0.0
    ensures Affordable(limit, limit) == 1 && Affordable(0.0, limit) == 0
  {
    assert limit / limit == 1.0 && 0.0 / limit == 0.0;
  }

  /** The cash that keeps a book busy longest: one share's limit when a position is
      to be opened, added to or entered at a stale price, and otherwise none. */
  function BusyCash(s: Scene, b: Book): real {
    if (b.yes == 0 && (b.no == 0 || s.Edge() == 0.0)) || Stale(s, b) then s.OwnLimit() else 0.0
  }

  lemma BusyFlat(s: Scene, b: Book)
    requires !Restless(s) && b.yes == 0 && b.no == 0 && Rank(s, b) > 0
    ensures Rank(s, Round(s, b, BusyCash(s, b))) == Rank(s, b) - 1 && Traded(s, b, BusyCash(s, b)) == 1
  {
    RoundFillsOrders(s, b, BusyCash(s, b));
    OneShare(s.OwnLimit());
    AtOwnPrice(s);
  }

  lemma BusyHeld(s: Scene, b: Book)
    requires !Restless(s) && (b.yes > 0 || b.no > 0) && Rank(s, b) > 0
    ensures Rank(s, Round(s, b, BusyCash(s, b))) == Rank(s, b) - 1 && Traded(s, b, BusyCash(s, b)) == 1
  {
    var cash, entry := BusyCash(s, b), Entry(s, b);
    var after := Round(s, b, cash);
    RoundFillsOrders(s, b, cash);
    if IsResolved(s.price) || MustExit(s.flat, entry, s.Edge(), s.price, b.yes, b.no) {
      assert after == Book(0, 0, None);
    } else {
      OneShare(s.OwnLimit());
    }
  }

  lemma {:induction false} BusyCashes(s: Scene, b: Book) returns (cashes: seq<real>)
    requires !Restless(s)
    ensures Trades(s, b, cashes) == Rank(s, b)
    decreases Rank(s, b)
  {
    if Rank(s, b) == 0 {
      cashes := [];
    } else {
      var cash := BusyCash(s, b);
      if b.yes == 0 && b.no == 0 { BusyFlat(s, b); } else { BusyHeld(s, b); }
      var rest := BusyCashes(s, Round(s, b, cash));
      cashes := [cash] + rest;
      assert cashes[1..] == rest;
    }
  }

  // ------------------------------------------------------------ main results

  /** The rank is exact: no sequence of cash amounts, however long, makes Flat
      trade in more rebalances, and some sequence makes it trade in that many. */
  lemma MostTrades(s: Scene, b: Book)
    requires !Restless(s)
    ensures forall cashes :: Trades(s, b, cashes) <= Rank(s, b)
    ensures exists cashes :: Trades(s, b, cashes) == Rank(s, b)
  {
    forall cashes
      ensures Trades(s, b, cashes) <= Rank(s, b)
    {
      TradesWithinRank(s, b, cashes);
    }
    var cashes := BusyCashes(s, b);
  }

  const FLAT_BOOK := Book(0, 0, None)

  function OneHeld(s: Scene): Book { if s.Edge() > 0.0 then Book(1, 0, None) else Book(0, 1, None) }

  lemma RestlessRounds(s: Scene)
    requires Restless(s)
    ensures Round(s, FLAT_BOOK, s.OwnLimit()) == OneHeld(s) && Traded(s, FLAT_BOOK, s.OwnLimit()) == 1
    ensures Round(s, OneHeld(s), s.OwnLimit()) == FLAT_BOOK && Traded(s, OneHeld(s), s.OwnLimit()) == 1
  {
    OneShare(s.OwnLimit());
    AtOwnPrice(s);
    RoundFillsOrders(s, FLAT_BOOK, s.OwnLimit());
    RoundFillsOrders(s, OneHeld(s), s.OwnLimit());
  }

  /** A restless Flat opens and closes one share in every rebalance, without end. */
  lemma {:induction false} ChurnsForEver(s: Scene, b: Book, cashes: seq<real>)
    requires Restless(s) && (b == FLAT_BOOK || b == OneHeld(s))
    requires forall i :: 0 <= i < |cashes| ==> cashes[i] == s.OwnLimit()
    ensures Trades(s, b, cashes) == |cashes|
    decreases |cashes|
  {
    if cashes != [] {
      RestlessRounds(s);
      ChurnsForEver(s, Round(s, b, cashes[0]), cashes[1..]);
    }
  }

  lemma RestlessIsUnbounded(s: Scene, n: nat)
    requires Restless(s)
    ensures exists cashes :: Trades(s, FLAT_BOOK, cashes) == n
  {
    var cashes := seq(n, i => s.OwnLimit());
    ChurnsForEver(s, FLAT_BOOK, cashes);
  }

  /** A zero edge is let through and tops a position up in more steps than three. */
  predicate TopsUp(s: Scene) {
    s.Edge() == 0.0 && (Shares(s) > 2 || (Shares(s) == 2 && s.flat.exitAdverseFrac < 1.0))
  }

  /** A book whose rank exceeds three when a zero edge tops up. */
  function ToppedUp(s: Scene): Book {
    Book(1, 0, if Shares(s) == 2 && 0.0 < s.flat.exitAdverseFrac < 1.0
               then Some(-s.flat.exitAdverseFrac / (1.0 - s.flat.exitAdverseFrac)) else None)
  }

  lemma FarEntryIsAdverse(frac: real, price: real)
    requires 0.0 < frac < 1.0 && price > 0.0
    ensures var entry := -frac / (1.0 - frac); entry < 0.0 && (price - entry) / (1.0 - entry) >= frac
  {
    var entry, rest := -frac / (1.0 - frac), 1.0 - frac;
    assert entry * rest == -frac;
    QuotientSign(frac, rest);
    assert entry == -(frac / rest);
    var gap := (price - entry) / (1.0 - entry);
    assert gap * (1.0 - entry) == price - entry;
    assert frac * (1.0 - entry) == frac - entry * frac == -entry;
    if gap < frac {
      MulLt(gap, frac, 1.0 - entry);
    }
  }

  lemma TopsUpFourTimes(s: Scene)
    requires !Restless(s) && TopsUp(s)
    ensures Rank(s, ToppedUp(s)) > 3
  {
    AtOwnPrice(s);
    if Shares(s) == 2 {
      FarEntryIsAdverse(s.flat.exitAdverseFrac, s.price);
    }
  }

  lemma RankAtMostThree(s: Scene, b: Book)
    requires !Restless(s) && !TopsUp(s)
    ensures Rank(s, b) <= 3
  {
    if Stale(s, b) && s.Edge() == 0.0 {
      StaleNeedsSmallStop(s, b);
    }
  }

  lemma StaleNeedsSmallStop(s: Scene, b: Book)
    requires Stale(s, b) && s.Edge() == 0.0
    ensures s.flat.exitAdverseFrac < 1.0
  {
    var entry := Entry(s, b);
    assert AdverseNo(s.flat, entry, s.price);
    BelowOneDollar(s.price - entry, 1.0 - entry);
  }

  lemma BelowOneDollar(x: real, y: real)
    requires x < y && y > 0.0
    ensures x / y < 1.0
  {
    assert (x / y) * y == x;
    if x / y >= 1.0 {
      MulLe(1.0, x / y, y);
    }
  }

  /** For every configuration: from every book and with any cash at each rebalance
      Flat trades in at most three rebalances, however many follow, exactly when
      it is neither restless nor topping up a zero edge. */
  lemma FlatSettles(s: Scene)
    ensures (forall b, cashes :: Trades(s, b, cashes) <= 3) <==> !Restless(s) && !TopsUp(s)
  {
    if Restless(s) {
      RestlessIsUnbounded(s, 4);
      var cashes :| Trades(s, FLAT_BOOK, cashes) == 4;
      assert Trades(s, FLAT_BOOK, cashes) > 3;
    } else if TopsUp(s) {
      TopsUpFourTimes(s);
      MostTrades(s, ToppedUp(s));
      var cashes :| Trades(s, ToppedUp(s), cashes) == Rank(s, ToppedUp(s));
      assert Trades(s, ToppedUp(s), cashes) > 3;
    } else {
      forall b, cashes
        ensures Trades(s, b, cashes) <= 3
      {
        RankAtMostThree(s, b);
        MostTrades(s, b);
      }
    }
  }

  /** And with an edge either way, in at most two exactly when the book is not stale. */
  lemma TwiceUnlessStale(s: Scene, b: Book)
    requires !Restless(s) && s.Edge() != 0.0
    ensures (forall cashes :: Trades(s, b, cashes) <= 2) <==> !Stale(s, b)
  {
    MostTrades(s, b);
    assert Rank(s, b) <= 2 <==> !Stale(s, b);
    if Stale(s, b) {
      var cashes :| Trades(s, b, cashes) == Rank(s, b);
      assert Trades(s, b, cashes) > 2;
    }
  }

  /** A positive threshold and a positive stop-loss fraction rule both out. */
  lemma ConfiguredFlatSettles(s: Scene)
    requires s.flat.minEdge > 0.0 && s.flat.exitAdverseFrac > 0.0
    ensures !Restless(s) && !TopsUp(s)
  {
  }

  /** With the default parameters: NO bought when YES stood at 90 cents, YES now
      at 50 cents, and a fair value exactly three cents above. */
  lemma DefaultFlatCanTradeThrice(market: int)
    ensures var s := Scene(Flat(20.0, 0.03, 0.30), market, 0.53, 0.5);
            !Restless(s) && exists cashes :: Trades(s, Book(0, 10, Some(0.9)), cashes) == 3
  {
    var s, b := Scene(Flat(20.0, 0.03, 0.30), market, 0.53, 0.5), Book(0, 10, Some(0.9));
    assert FlatShares(s.flat, 0.5) == 40;
    assert Stale(s, b);
    MostTrades(s, b);
  }

  /** A stop-loss fraction of zero is restless at any edge worth trading. */
  lemma ZeroStopIsRestless(market: int)
    ensures Restless(Scene(Flat(20.0, 0.03, 0.0), market, 0.6, 0.5))
  {
    assert FlatShares(Flat(20.0, 0.03, 0.0), 0.5) == 40;
  }
}
