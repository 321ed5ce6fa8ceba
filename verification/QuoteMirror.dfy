/** The four makers treat YES and NO alike: exchanging the holdings and turning every
    price around, seen or remembered, exchanges YES and NO in their orders. */
module QuoteMirror {
  import opened Wrappers
  import opened Reals
  import opened Orders
  import opened Quotes
  import opened MarketMakers
  import opened QuoteSkew

  function TurnAll(prices: seq<real>): (turned: seq<real>)
    ensures |turned| == |prices| && forall i :: 0 <= i < |prices| ==> turned[i] == 1.0 - prices[i]
  {
    seq(|prices|, i requires 0 <= i < |prices| => 1.0 - prices[i])
  }

  function Turned(memory: Memory): Memory {
    Memory(map m | m in memory.history :: TurnAll(memory.history[m]),
           map m | m in memory.anchor :: 1.0 - memory.anchor[m],
           map m | m in memory.fast :: 1.0 - memory.fast[m])
  }

  function Swapped(sight: Sight): Sight {
    Sight(sight.market, NANOS_PER_DOLLAR - sight.yesNanos, sight.no, sight.yes)
  }

  // ---------------------------------------------------------- prices seen

  lemma MidTurns(sight: Sight)
    ensures MidOf(Swapped(sight)) == 1.0 - MidOf(sight)
  {
  }

  lemma ClampTurns(x: real, lo: real)
    requires lo <= 0.5
    ensures Clamp(1.0 - x, lo, 1.0 - lo) == 1.0 - Clamp(x, lo, 1.0 - lo)
  {
  }

  lemma RecordedTurns(maker: Maker, sight: Sight)
    ensures Recorded(maker, Swapped(sight)) == 1.0 - Recorded(maker, sight)
  {
    MidTurns(sight);
  }

  lemma ReferenceTurns(maker: Maker, memory: Memory, sight: Sight)
    ensures Reference(maker, Turned(memory), Swapped(sight)) == 1.0 - Reference(maker, memory, sight)
  {
    MidTurns(sight);
    RecordedTurns(maker, sight);
  }

  // ------------------------------------------------------------ the middle

  lemma RatioLeanTurns(tanh: real -> real, limit: int, skew: real, net: int)
    requires IsOdd(tanh) && limit != 0
    ensures Times(tanh((-net) as real / limit as real), skew) == -Times(tanh(net as real / limit as real), skew)
  {
    var x, y := net as real / limit as real, (-net) as real / limit as real;
    assert x + y == 0.0;
    assert tanh(x) + tanh(y) == 0.0;
    TimesNegated(tanh(x), skew);
  }

  lemma BalancedLeanTurns(tanh: real -> real, skew: real, maxSkew: real, net: int)
    requires IsOdd(tanh) && maxSkew > 0.0
    ensures Times(maxSkew, tanh(Times((-net) as real, skew) * 0.01 / maxSkew))
         == -Times(maxSkew, tanh(Times(net as real, skew) * 0.01 / maxSkew))
  {
    TimesNegated(net as real, skew);
    var x, y := Times(net as real, skew) * 0.01 / maxSkew, Times((-net) as real, skew) * 0.01 / maxSkew;
    assert x + y == 0.0;
    assert tanh(x) + tanh(y) == 0.0;
    TimesCommutes(maxSkew, tanh(x));
    TimesCommutes(maxSkew, tanh(y));
    TimesNegated(tanh(x), maxSkew);
  }

  lemma LeanTurns(maker: Maker, tanh: real -> real, reference: real, net: int)
    requires IsOdd(tanh)
    ensures Lean(maker, tanh, 1.0 - reference, -net) == -Lean(maker, tanh, reference, net)
  {
    match maker
    case AnchorMaker(_, _, limit, skew, _, _) =>
      if limit != 0 { RatioLeanTurns(tanh, limit, skew, net); }
    case FlashMaker(_, _, _, skew) => TimesNegated((-net) as real, skew);
    case BalancedMaker(_, _, limit, skew, _, _, _, _, _, _, _) =>
      var maxSkew := Min(reference, 1.0 - reference) * 0.2;
      assert Min(1.0 - reference, 1.0 - (1.0 - reference)) == Min(reference, 1.0 - reference);
      if maxSkew >= 0.005 && limit != 0 { BalancedLeanTurns(tanh, skew, maxSkew, net); }
    case FastAnchorMaker(_, _, limit, skew, _, _, _, _) =>
      if limit > 0 { RatioLeanTurns(tanh, limit, skew, net); }
  }

  lemma MiddleTurns(maker: Maker, tanh: real -> real, memory: Memory, sight: Sight)
    requires IsOdd(tanh)
    ensures QuoteMid(maker, tanh, Turned(memory), Swapped(sight)) == 1.0 - QuoteMid(maker, tanh, memory, sight)
  {
    var reference, net := Reference(maker, memory, sight), sight.yes - sight.no;
    ReferenceTurns(maker, memory, sight);
    LeanTurns(maker, tanh, reference, net);
    ClampTurns(reference + Lean(maker, tanh, reference, net), Lowest(maker));
  }

  // ------------------------------------------------------------- volatility

  lemma {:induction false} ExtremesTurn(prices: seq<real>)
    requires prices != []
    ensures MaxOf(TurnAll(prices)) == 1.0 - MinOf(prices) && MinOf(TurnAll(prices)) == 1.0 - MaxOf(prices)
  {
    if |prices| > 1 {
      assert TurnAll(prices)[1..] == TurnAll(prices[1..]);
      ExtremesTurn(prices[1..]);
    }
  }

  lemma RecentTurns(history: seq<real>, count: nat)
    ensures Recent(TurnAll(history), count) == TurnAll(Recent(history, count))
  {
  }

  lemma SpanTurns(history: seq<real>, count: nat)
    requires history != []
    ensures SpanOf(Recent(TurnAll(history), count)) == SpanOf(Recent(history, count))
  {
    RecentTurns(history, count);
    ExtremesTurn(Recent(history, count));
  }

  lemma BackTurns(history: seq<real>, k: nat)
    requires 1 <= k <= |history|
    ensures Back(TurnAll(history), k) == 1.0 - Back(history, k)
  {
  }

  lemma VolTurns(maker: Maker, history: seq<real>)
    requires !maker.FlashMaker?
    ensures VolMultiplier(maker, TurnAll(history)) == VolMultiplier(maker, history)
  {
    if |history| >= 2 {
      SpanTurns(history, maker.volLookback);
      BackTurns(history, 1);
      BackTurns(history, 2);
      assert Abs(Back(TurnAll(history), 1) - Back(TurnAll(history), 2)) == Abs(Back(history, 1) - Back(history, 2));
    }
  }

  lemma HistoryTurns(memory: Memory, market: int)
    ensures HistoryOf(Turned(memory), market) == TurnAll(HistoryOf(memory, market))
  {
    if market !in memory.history {
      assert TurnAll([]) == [];
    }
  }

  lemma EdgeRoomTurns(mid: real)
    ensures EdgeRoom(1.0 - mid) == EdgeRoom(mid)
  {
  }

  // -------------------------------------------------------------- ladders

  function MirrorRail(rail: Rail): Rail { rail.(side := rail.side.Mirror()) }

  lemma MirrorAppend(orders: seq<Order>, order: Order)
    ensures MirrorAll(orders + [order]) == MirrorAll(orders) + [order.Mirror()]
  {
  }

  lemma {:induction false} BuyLadderMirrors(config: LadderConfig, rail: Rail, budget: real, scale: real, n: nat)
    ensures var t := BuyLadder(config, rail, budget, scale, n);
            BuyLadder(config, MirrorRail(rail), budget, scale, n) == t.(orders := MirrorAll(t.orders))
  {
    if n > 0 {
      BuyLadderMirrors(config, rail, budget, scale, n - 1);
      BidMirrors(config, rail, budget, scale, n - 1, BuyLadder(config, rail, budget, scale, n - 1));
    }
  }

  lemma BidMirrors(config: LadderConfig, rail: Rail, budget: real, scale: real, level: nat, t: Bids)
    ensures var after := Bid(config, rail, budget, scale, level, t);
            Bid(config, MirrorRail(rail), budget, scale, level, t.(orders := MirrorAll(t.orders)))
            == after.(orders := MirrorAll(after.orders))
  {
    var bid := BidAt(config, rail, level);
    if !t.done && bid >= 0.01 && budget - t.spent > 0.0 {
      var quantity := BidQty(config, bid, budget - t.spent, scale, level);
      MirrorAppend(t.orders, AtPrice(rail.side, rail.market, bid, quantity));
    }
  }

  lemma {:induction false} SellLadderMirrors(config: LadderConfig, rail: Rail, held: int, n: nat)
    ensures var t := SellLadder(config, rail, held, n);
            SellLadder(config, MirrorRail(rail), held, n) == t.(orders := MirrorAll(t.orders))
  {
    if n > 0 {
      SellLadderMirrors(config, rail, held, n - 1);
      AskMirrors(config, rail, held, n - 1, SellLadder(config, rail, held, n - 1));
    }
  }

  lemma AskMirrors(config: LadderConfig, rail: Rail, held: int, level: nat, t: Asks)
    ensures var after := Ask(config, rail, held, level, t);
            Ask(config, MirrorRail(rail), held, level, t.(orders := MirrorAll(t.orders)))
            == after.(orders := MirrorAll(after.orders))
  {
    var ask := AskAt(config, rail, level);
    if !t.done && ask <= 0.99 && t.remaining > 0 {
      MirrorAppend(t.orders, AtPrice(rail.side, rail.market, ask, AskQty(held, t.remaining, level)));
    }
  }

  lemma BiddingMirrors(config: LadderConfig, sight: Sight, side: Side, mid: real, spread: real, budget: real,
                       scale: real)
    ensures Bidding(config, Swapped(sight), side.Mirror(), 1.0 - mid, spread, budget, scale)
         == MirrorAll(Bidding(config, sight, side, mid, spread, budget, scale))
  {
    var rail := YesRail(sight, side, mid, spread);
    assert YesRail(Swapped(sight), side.Mirror(), 1.0 - mid, spread) == MirrorRail(rail);
    BuyLadderMirrors(config, rail, budget, scale, config.Levels());
  }

  lemma AskingMirrors(config: LadderConfig, sight: Sight, side: Side, mid: real, spread: real, held: int)
    ensures Asking(config, Swapped(sight), side.Mirror(), 1.0 - mid, spread, held)
         == MirrorAll(Asking(config, sight, side, mid, spread, held))
  {
    var rail := YesRail(sight, side, mid, spread);
    assert YesRail(Swapped(sight), side.Mirror(), 1.0 - mid, spread) == MirrorRail(rail);
    SellLadderMirrors(config, rail, held, config.Levels());
  }

  // --------------------------------------------------------- whole markets

  /** A relation between the orders here and there that the lemmas below need only know
      by these rules. */
  type Relation = (seq<Order>, seq<Order>) -> bool

  /** Marks the lists that are joined. */
  predicate Beside(a: seq<Order>, b: seq<Order>, a': seq<Order>, b': seq<Order>) { |a| + |b| + |a'| + |b'| >= 0 }

  ghost predicate Rules(p: Relation) {
    && (forall orders {:trigger MirrorAll(orders)} :: p(orders, MirrorAll(orders)))
    && (forall a, b, a', b' {:trigger Beside(a, b, a', b')} ::
          Beside(a, b, a', b') && p(a, a') && p(b, b') ==> p(a + b, a' + b') && p(a + b, b' + a'))
  }

  lemma Nothing(p: Relation)
    requires Rules(p)
    ensures p([], [])
  {
    assert MirrorAll([]) == [];
  }

  lemma One(p: Relation, order: Order)
    requires Rules(p)
    ensures p([order], [order.Mirror()])
  {
    MirrorSingle(order);
  }

  lemma Join(p: Relation, a: seq<Order>, b: seq<Order>, a': seq<Order>, b': seq<Order>)
    requires Rules(p) && p(a, a') && p(b, b')
    ensures p(a + b, a' + b') && p(a + b, b' + a')
  {
    assert Beside(a, b, a', b');
  }

  lemma BidOrderMirrors(side: Side, market: int, bid: real, dollars: real)
    requires bid > 0.0
    ensures BidOrder(side.Mirror(), market, bid, dollars) == BidOrder(side, market, bid, dollars).Mirror()
  {
  }

  lemma AnchorBidSwaps(p: Relation, maker: Maker, side: Side, market: int, bid: real, held: int)
    requires Rules(p)
    requires maker.AnchorMaker?
    ensures p(AnchorBid(maker, side, market, bid, held), AnchorBid(maker, side.Mirror(), market, bid, held))
  {
    Nothing(p);
    if bid >= 0.01 {
      BidOrderMirrors(side, market, bid, maker.baseSize);
      One(p, BidOrder(side, market, bid, maker.baseSize));
    }
  }

  lemma AnchorQuotesAre(maker: Maker, mid: real, vol: real, sight: Sight, yesBid: real, noBid: real)
    requires maker.AnchorMaker?
    requires var spread := Min(Times(maker.halfSpread, vol), EdgeRoom(mid));
             yesBid == mid - spread && noBid == (1.0 - mid) - spread
    ensures AnchorQuotes(maker, mid, vol, sight)
         == AnchorBid(maker, BuyYes, sight.market, yesBid, sight.yes)
          + AnchorBid(maker, BuyNo, sight.market, noBid, sight.no)
  {
  }

  lemma AnchorMirrors(p: Relation, maker: Maker, mid: real, vol: real, sight: Sight)
    requires Rules(p)
    requires maker.AnchorMaker?
    ensures p(AnchorQuotes(maker, mid, vol, sight), AnchorQuotes(maker, 1.0 - mid, vol, Swapped(sight)))
  {
    EdgeRoomTurns(mid);
    var spread := Min(Times(maker.halfSpread, vol), EdgeRoom(mid));
    var yesBid, noBid, m := mid - spread, (1.0 - mid) - spread, sight.market;
    AnchorQuotesAre(maker, mid, vol, sight, yesBid, noBid);
    AnchorQuotesAre(maker, 1.0 - mid, vol, Swapped(sight), noBid, yesBid);
    AnchorBidSwaps(p, maker, BuyYes, m, yesBid, sight.yes);
    AnchorBidSwaps(p, maker, BuyNo, m, noBid, sight.no);
    Join(p, AnchorBid(maker, BuyYes, m, yesBid, sight.yes), AnchorBid(maker, BuyNo, m, noBid, sight.no),
              AnchorBid(maker, BuyNo, m, yesBid, sight.yes), AnchorBid(maker, BuyYes, m, noBid, sight.no));
  }

  lemma FlashOrderSwaps(p: Relation, maker: Maker, side: Side, market: int, mid: real, level: nat)
    requires Rules(p)
    requires maker.FlashMaker?
    ensures p([FlashOrder(maker, side, market, mid, level)], [FlashOrder(maker, side.Mirror(), market, mid, level)])
  {
    BidOrderMirrors(side, market, FlashBid(mid, FlashOffset(maker, level)), maker.dollarsPerLevel);
    One(p, FlashOrder(maker, side, market, mid, level));
  }

  lemma FlashQuotesAre(maker: Maker, mid: real, sight: Sight, n: nat, noMid: real)
    requires maker.FlashMaker? && 0.05 <= mid <= 0.95 && n > 0 && noMid == 1.0 - mid
    ensures FlashQuotes(maker, mid, sight, n)
         == FlashQuotes(maker, mid, sight, n - 1)
            + ([FlashOrder(maker, BuyYes, sight.market, mid, n)] + [FlashOrder(maker, BuyNo, sight.market, noMid, n)])
  {
    var before := FlashQuotes(maker, mid, sight, n - 1);
    var yes := [FlashOrder(maker, BuyYes, sight.market, mid, n)];
    var no := [FlashOrder(maker, BuyNo, sight.market, noMid, n)];
    assert before + yes + no == before + (yes + no);
  }

  lemma {:induction false} FlashMirrors(p: Relation, maker: Maker, mid: real, sight: Sight, n: nat)
    requires Rules(p)
    requires maker.FlashMaker? && 0.05 <= mid <= 0.95
    ensures p(FlashQuotes(maker, mid, sight, n), FlashQuotes(maker, 1.0 - mid, Swapped(sight), n))
  {
    if n == 0 {
      Nothing(p);
    } else {
      var other, m := 1.0 - mid, sight.market;
      FlashMirrors(p, maker, mid, sight, n - 1);
      FlashQuotesAre(maker, mid, sight, n, other);
      FlashQuotesAre(maker, other, Swapped(sight), n, mid);
      var yes, no := [FlashOrder(maker, BuyYes, m, mid, n)], [FlashOrder(maker, BuyNo, m, other, n)];
      var yes', no' := [FlashOrder(maker, BuyYes, m, other, n)], [FlashOrder(maker, BuyNo, m, mid, n)];
      FlashOrderSwaps(p, maker, BuyYes, m, mid, n);
      FlashOrderSwaps(p, maker, BuyNo, m, other, n);
      Join(p, yes, no, no', yes');
      Join(p, FlashQuotes(maker, mid, sight, n - 1), yes + no,
                FlashQuotes(maker, other, Swapped(sight), n - 1), yes' + no');
    }
  }

  lemma BiddingSwaps(p: Relation, config: LadderConfig, sight: Sight, side: Side, mid: real, spread: real,
                     budget: real, scale: real)
    requires Rules(p)
    ensures p(Bidding(config, sight, side, mid, spread, budget, scale),
                  Bidding(config, Swapped(sight), side.Mirror(), 1.0 - mid, spread, budget, scale))
  {
    BiddingMirrors(config, sight, side, mid, spread, budget, scale);
  }

  lemma AskingSwaps(p: Relation, config: LadderConfig, sight: Sight, side: Side, mid: real, spread: real, held: int)
    requires Rules(p)
    ensures p(Asking(config, sight, side, mid, spread, held),
                  Asking(config, Swapped(sight), side.Mirror(), 1.0 - mid, spread, held))
  {
    AskingMirrors(config, sight, side, mid, spread, held);
  }

  lemma ExcessSwaps(p: Relation, maker: Maker, sight: Sight, side: Side, mid: real, spread: real, held: int)
    requires Rules(p)
    requires maker.FastAnchorMaker? && (held > maker.sellStart ==> maker.maxPosition != 0)
    ensures p(ExcessAsks(maker, sight, side, mid, spread, held),
                  ExcessAsks(maker, Swapped(sight), side.Mirror(), 1.0 - mid, spread, held))
  {
    Nothing(p);
    if held > maker.sellStart {
      AskingSwaps(p, maker.ladder, sight, side, mid, spread, ExcessQty(maker, held));
    }
  }

  lemma SwapsFour(p: Relation, a: seq<Order>, b: seq<Order>, c: seq<Order>, d: seq<Order>,
                  a': seq<Order>, b': seq<Order>, c': seq<Order>, d': seq<Order>)
    requires Rules(p)
    requires p(a, a') && p(b, b') && p(c, c') && p(d, d')
    ensures p(a + b + c + d, b' + a' + d' + c')
  {
    Join(p, a, b, a', b');
    Join(p, c, d, c', d');
    Join(p, a + b, c + d, b' + a', d' + c');
    assert a + b + c + d == (a + b) + (c + d) && b' + a' + d' + c' == (b' + a') + (d' + c');
  }

  /** Mirrored, or the same failure. */
  predicate Mirrors(p: Relation, here: Result<seq<Order>, Error>, there: Result<seq<Order>, Error>) {
    if here.Err? then there == here else there.Ok? && p(here.value, there.value)
  }

  lemma FastAnchorSides(p: Relation, maker: Maker, mid: real, sight: Sight, spread: real, budget: real, scale: real)
    requires Rules(p)
    requires maker.FastAnchorMaker?
    requires sight.yes > maker.sellStart || sight.no > maker.sellStart ==> maker.maxPosition != 0
    ensures var other := Swapped(sight);
            p(Bidding(maker.ladder, sight, BuyYes, mid, spread, budget, scale)
                  + Bidding(maker.ladder, sight, BuyNo, mid, spread, budget, scale)
                  + ExcessAsks(maker, sight, SellYes, mid, spread, sight.yes)
                  + ExcessAsks(maker, sight, SellNo, mid, spread, sight.no),
                  Bidding(maker.ladder, other, BuyYes, 1.0 - mid, spread, budget, scale)
                  + Bidding(maker.ladder, other, BuyNo, 1.0 - mid, spread, budget, scale)
                  + ExcessAsks(maker, other, SellYes, 1.0 - mid, spread, sight.no)
                  + ExcessAsks(maker, other, SellNo, 1.0 - mid, spread, sight.yes))
  {
    var other := Swapped(sight);
    BiddingSwaps(p, maker.ladder, sight, BuyYes, mid, spread, budget, scale);
    BiddingSwaps(p, maker.ladder, sight, BuyNo, mid, spread, budget, scale);
    ExcessSwaps(p, maker, sight, SellYes, mid, spread, sight.yes);
    ExcessSwaps(p, maker, sight, SellNo, mid, spread, sight.no);
    SwapsFour(p, Bidding(maker.ladder, sight, BuyYes, mid, spread, budget, scale),
              Bidding(maker.ladder, sight, BuyNo, mid, spread, budget, scale),
              ExcessAsks(maker, sight, SellYes, mid, spread, sight.yes),
              ExcessAsks(maker, sight, SellNo, mid, spread, sight.no),
              Bidding(maker.ladder, other, BuyNo, 1.0 - mid, spread, budget, scale),
              Bidding(maker.ladder, other, BuyYes, 1.0 - mid, spread, budget, scale),
              ExcessAsks(maker, other, SellNo, 1.0 - mid, spread, sight.yes),
              ExcessAsks(maker, other, SellYes, 1.0 - mid, spread, sight.no));
  }

  lemma FastAnchorMirrors(p: Relation, maker: Maker, mid: real, vol: real, sight: Sight, balance: real)
    requires Rules(p)
    requires maker.FastAnchorMaker?
    ensures Mirrors(p, FastAnchorQuotes(maker, mid, vol, sight, balance),
                    FastAnchorQuotes(maker, 1.0 - mid, vol, Swapped(sight), balance))
  {
    EdgeRoomTurns(mid);
    Nothing(p);
    var spread := Min(Times(maker.halfSpread, vol), EdgeRoom(mid));
    if FastAnchorQuotes(maker, mid, vol, sight, balance).Ok? && spread >= 0.005 {
      assert vol != 0.0;
      var scale, budget := BuyDampen(maker.maxPosition, sight.yes + sight.no), SideBudget(maker.ladder, vol, balance);
      FastAnchorSides(p, maker, mid, sight, spread, budget, scale);
    }
  }

  // ------------------------------------------------------- the balanced maker

  lemma SkipTurns(history: seq<real>, raw: real, anchor: real)
    ensures ShouldSkip(TurnAll(history), 1.0 - raw, 1.0 - anchor) == ShouldSkip(history, raw, anchor)
  {
    if |history| >= 2 {
      BackTurns(history, 1);
      BackTurns(history, 2);
    }
    if |history| >= 4 {
      BackTurns(history, 3);
      BackTurns(history, 4);
    }
    assert Abs((1.0 - raw) - (1.0 - anchor)) == Abs(raw - anchor);
  }

  lemma DeviationTurns(threshold: real, raw: real, anchor: real, side: Side)
    requires threshold != 0.0 && side.IsBuy()
    ensures DeviationScale(threshold, 1.0 - raw, 1.0 - anchor, side.Mirror())
         == DeviationScale(threshold, raw, anchor, side)
  {
    assert Abs((1.0 - raw) - (1.0 - anchor)) == Abs(raw - anchor);
    assert 0.0 / threshold == 0.0;
  }

  lemma DividesTurns(maker: Maker, sight: Sight)
    requires maker.BalancedMaker?
    ensures Divides(maker, Swapped(sight)) == Divides(maker, sight)
    ensures PairPenalty(maker, Swapped(sight)) == PairPenalty(maker, sight)
  {
  }

  lemma InventoryTurns(maker: Maker, sight: Sight, side: Side)
    requires maker.BalancedMaker? && Divides(maker, sight) && side.IsBuy()
    ensures Divides(maker, Swapped(sight))
    ensures InventoryScale(maker, Swapped(sight), side.Mirror()) == InventoryScale(maker, sight, side)
  {
  }

  lemma FractionsTurn(maker: Maker, sight: Sight)
    requires maker.BalancedMaker? && Divides(maker, sight)
    ensures Divides(maker, Swapped(sight))
    ensures NetSell(maker, Swapped(sight)) == NetSell(maker, sight)
    ensures MatchedSell(maker, Swapped(sight)) == MatchedSell(maker, sight)
    ensures UnwindQty(maker, Swapped(sight)) == UnwindQty(maker, sight)
  {
  }

  lemma BalancedBidsSwap(p: Relation, maker: Maker, memory: Memory, raw: real, vol: real, sight: Sight, side: Side,
                         mid: real, spread: real, balance: real)
    requires Rules(p)
    requires maker.BalancedMaker? && Divides(maker, sight) && vol != 0.0 && side.IsBuy()
    ensures Divides(maker, Swapped(sight))
    ensures p(BalancedBids(maker, memory, raw, vol, sight, side, mid, spread, balance),
                  BalancedBids(maker, Turned(memory), 1.0 - raw, vol, Swapped(sight), side.Mirror(), 1.0 - mid, spread,
                               balance))
  {
    var anchor, m := AnchorOf(memory, sight.market), sight.market;
    Nothing(p);
    InventoryTurns(maker, sight, side);
    DeviationTurns(maker.deviationThreshold, raw, anchor, side);
    HistoryTurns(memory, m);
    SkipTurns(HistoryOf(memory, m), raw, anchor);
    assert AnchorOf(Turned(memory), m) == 1.0 - anchor;
    BiddingSwaps(p, maker.ladder, sight, side, mid, spread, SideBudget(maker.ladder, vol, balance),
                 BalancedScale(maker, memory, raw, sight, side));
  }

  lemma NetAsksSwap(p: Relation, maker: Maker, memory: Memory, raw: real, sight: Sight, mid: real, spread: real)
    requires Rules(p)
    requires maker.BalancedMaker? && Divides(maker, sight)
    ensures Divides(maker, Swapped(sight))
    ensures p(NetAsks(maker, memory, raw, sight, mid, spread),
                  NetAsks(maker, Turned(memory), 1.0 - raw, Swapped(sight), 1.0 - mid, spread))
  {
    Nothing(p);
    FractionsTurn(maker, sight);
    assert AnchorOf(Turned(memory), sight.market) == 1.0 - AnchorOf(memory, sight.market);
    AskingSwaps(p, maker.ladder, sight, SellYes, mid, spread, FractionQty(sight.yes, NetSell(maker, sight)));
    AskingSwaps(p, maker.ladder, sight, SellNo, mid, spread, FractionQty(sight.no, NetSell(maker, sight)));
  }

  lemma UnwindAsksSwap(p: Relation, maker: Maker, memory: Memory, raw: real, sight: Sight, side: Side, mid: real,
                       spread: real)
    requires Rules(p)
    requires maker.BalancedMaker? && Divides(maker, sight) && !side.IsBuy()
    ensures Divides(maker, Swapped(sight))
    ensures p(UnwindAsks(maker, memory, raw, sight, side, mid, spread),
                  UnwindAsks(maker, Turned(memory), 1.0 - raw, Swapped(sight), side.Mirror(), 1.0 - mid, spread))
  {
    Nothing(p);
    FractionsTurn(maker, sight);
    assert AnchorOf(Turned(memory), sight.market) == 1.0 - AnchorOf(memory, sight.market);
    AskingSwaps(p, maker.ladder, sight, side, mid, spread, UnwindQty(maker, sight));
  }

  lemma SwapsFive(p: Relation, a: seq<Order>, b: seq<Order>, c: seq<Order>, d: seq<Order>, e: seq<Order>,
                  a': seq<Order>, b': seq<Order>, c': seq<Order>, d': seq<Order>, e': seq<Order>)
    requires Rules(p)
    requires p(a, a') && p(b, b') && p(c, c') && p(d, d') && p(e, e')
    ensures p(a + b + c + d + e, b' + a' + c' + e' + d')
  {
    Join(p, a, b, a', b');
    Join(p, a + b, c, b' + a', c');
    Join(p, d, e, d', e');
    Join(p, a + b + c, d + e, b' + a' + c', e' + d');
    assert a + b + c + d + e == (a + b + c) + (d + e) && b' + a' + c' + e' + d' == (b' + a' + c') + (e' + d');
  }

  lemma BalancedSides(p: Relation, maker: Maker, memory: Memory, raw: real, vol: real, sight: Sight, mid: real,
                      spread: real, balance: real)
    requires Rules(p)
    requires maker.BalancedMaker? && Divides(maker, sight) && Divides(maker, Swapped(sight)) && vol != 0.0
    ensures var there, other := Turned(memory), Swapped(sight);
            p(BalancedBids(maker, memory, raw, vol, sight, BuyYes, mid, spread, balance)
                  + BalancedBids(maker, memory, raw, vol, sight, BuyNo, mid, spread, balance)
                  + NetAsks(maker, memory, raw, sight, mid, spread)
                  + UnwindAsks(maker, memory, raw, sight, SellYes, mid, spread)
                  + UnwindAsks(maker, memory, raw, sight, SellNo, mid, spread),
                  BalancedBids(maker, there, 1.0 - raw, vol, other, BuyYes, 1.0 - mid, spread, balance)
                  + BalancedBids(maker, there, 1.0 - raw, vol, other, BuyNo, 1.0 - mid, spread, balance)
                  + NetAsks(maker, there, 1.0 - raw, other, 1.0 - mid, spread)
                  + UnwindAsks(maker, there, 1.0 - raw, other, SellYes, 1.0 - mid, spread)
                  + UnwindAsks(maker, there, 1.0 - raw, other, SellNo, 1.0 - mid, spread))
  {
    var there, other := Turned(memory), Swapped(sight);
    BalancedBidsSwap(p, maker, memory, raw, vol, sight, BuyYes, mid, spread, balance);
    BalancedBidsSwap(p, maker, memory, raw, vol, sight, BuyNo, mid, spread, balance);
    NetAsksSwap(p, maker, memory, raw, sight, mid, spread);
    UnwindAsksSwap(p, maker, memory, raw, sight, SellYes, mid, spread);
    UnwindAsksSwap(p, maker, memory, raw, sight, SellNo, mid, spread);
    SwapsFive(p, BalancedBids(maker, memory, raw, vol, sight, BuyYes, mid, spread, balance),
              BalancedBids(maker, memory, raw, vol, sight, BuyNo, mid, spread, balance),
              NetAsks(maker, memory, raw, sight, mid, spread),
              UnwindAsks(maker, memory, raw, sight, SellYes, mid, spread),
              UnwindAsks(maker, memory, raw, sight, SellNo, mid, spread),
              BalancedBids(maker, there, 1.0 - raw, vol, other, BuyNo, 1.0 - mid, spread, balance),
              BalancedBids(maker, there, 1.0 - raw, vol, other, BuyYes, 1.0 - mid, spread, balance),
              NetAsks(maker, there, 1.0 - raw, other, 1.0 - mid, spread),
              UnwindAsks(maker, there, 1.0 - raw, other, SellNo, 1.0 - mid, spread),
              UnwindAsks(maker, there, 1.0 - raw, other, SellYes, 1.0 - mid, spread));
  }

  /** What a balanced quote consists of. */
  lemma BalancedQuotesAre(maker: Maker, memory: Memory, mid: real, vol: real, sight: Sight, balance: real, raw: real,
                          spread: real)
    requires maker.BalancedMaker? && raw == Recorded(maker, sight)
    requires spread == Min(Times(Times(maker.halfSpread, vol), PairPenalty(maker, sight)), EdgeRoom(mid))
    ensures spread >= 0.005 ==> vol != 0.0
    ensures var quotes := BalancedQuotes(maker, memory, mid, vol, sight, balance);
            if spread < 0.005 then quotes == Ok([])
            else if !Divides(maker, sight) then quotes == Err(ZeroDivision)
            else quotes == Ok(BalancedBids(maker, memory, raw, vol, sight, BuyYes, mid, spread, balance)
                              + BalancedBids(maker, memory, raw, vol, sight, BuyNo, mid, spread, balance)
                              + NetAsks(maker, memory, raw, sight, mid, spread)
                              + UnwindAsks(maker, memory, raw, sight, SellYes, mid, spread)
                              + UnwindAsks(maker, memory, raw, sight, SellNo, mid, spread))
  {
  }

  lemma SameSpread(maker: Maker, vol: real, mid: real, sight: Sight)
    requires maker.BalancedMaker?
    ensures Min(Times(Times(maker.halfSpread, vol), PairPenalty(maker, Swapped(sight))), EdgeRoom(1.0 - mid))
         == Min(Times(Times(maker.halfSpread, vol), PairPenalty(maker, sight)), EdgeRoom(mid))
  {
    EdgeRoomTurns(mid);
  }

  lemma BalancedMirrors(p: Relation, maker: Maker, memory: Memory, mid: real, vol: real, sight: Sight, balance: real)
    requires Rules(p)
    requires maker.BalancedMaker?
    ensures Mirrors(p, BalancedQuotes(maker, memory, mid, vol, sight, balance),
                    BalancedQuotes(maker, Turned(memory), 1.0 - mid, vol, Swapped(sight), balance))
  {
    var raw := Recorded(maker, sight);
    RecordedTurns(maker, sight);
    DividesTurns(maker, sight);
    Nothing(p);
    var spread := Min(Times(Times(maker.halfSpread, vol), PairPenalty(maker, sight)), EdgeRoom(mid));
    SameSpread(maker, vol, mid, sight);
    BalancedQuotesAre(maker, memory, mid, vol, sight, balance, raw, spread);
    BalancedQuotesAre(maker, Turned(memory), 1.0 - mid, vol, Swapped(sight), balance, 1.0 - raw, spread);
    if spread >= 0.005 && Divides(maker, sight) {
      BalancedSides(p, maker, memory, raw, vol, sight, mid, spread, balance);
    }
  }

  // ----------------------------------------------------------- main results

  /** The same orders with YES and NO exchanged, in any order. */
  ghost predicate Swaps(here: seq<Order>, there: seq<Order>) { multiset(there) == multiset(MirrorAll(here)) }

  lemma SwapsJoin(a: seq<Order>, b: seq<Order>, a': seq<Order>, b': seq<Order>)
    requires Swaps(a, a') && Swaps(b, b')
    ensures Swaps(a + b, a' + b') && Swaps(a + b, b' + a')
  {
    MirrorConcat(a, b);
  }

  lemma SwapsObeys(p: Relation)
    requires forall a, b :: p(a, b) == Swaps(a, b)
    ensures Rules(p)
  {
    forall orders {:trigger MirrorAll(orders)}
      ensures p(orders, MirrorAll(orders))
    {
      assert Swaps(orders, MirrorAll(orders));
    }
    forall a, b, a', b' {:trigger Beside(a, b, a', b')} | Beside(a, b, a', b') && p(a, a') && p(b, b')
      ensures p(a + b, a' + b') && p(a + b, b' + a')
    {
      assert Swaps(a, a') && Swaps(b, b');
      SwapsJoin(a, b, a', b');
    }
  }

  lemma MarketTurns(p: Relation, maker: Maker, tanh: real -> real, memory: Memory, sight: Sight, balance: real)
    requires Rules(p) && IsOdd(tanh)
    ensures Mirrors(p, MarketQuotes(maker, tanh, memory, sight, balance),
                    MarketQuotes(maker, tanh, Turned(memory), Swapped(sight), balance))
  {
    var mid := QuoteMid(maker, tanh, memory, sight);
    MiddleTurns(maker, tanh, memory, sight);
    if maker.FlashMaker? {
      FlashMirrors(p, maker, mid, sight, MaxInt(0, maker.numLevels));
    } else {
      var vol := VolOf(maker, memory, sight);
      HistoryTurns(memory, sight.market);
      VolTurns(maker, HistoryOf(memory, sight.market));
      if maker.AnchorMaker? {
        AnchorMirrors(p, maker, mid, vol, sight);
      } else if maker.BalancedMaker? {
        BalancedMirrors(p, maker, memory, mid, vol, sight, balance);
      } else {
        FastAnchorMirrors(p, maker, mid, vol, sight, balance);
      }
    }
  }

  /** For every maker, memory and market: with the prices turned around and the holdings
      exchanged, the orders are the same with YES and NO exchanged, or the same
      failure. */
  lemma MarketMirrors(maker: Maker, tanh: real -> real, memory: Memory, sight: Sight, balance: real)
    requires IsOdd(tanh)
    ensures var here := MarketQuotes(maker, tanh, memory, sight, balance);
            var there := MarketQuotes(maker, tanh, Turned(memory), Swapped(sight), balance);
            if here.Err? then there == here else there.Ok? && Swaps(here.value, there.value)
  {
    var p := (a: seq<Order>, b: seq<Order>) => Swaps(a, b);
    SwapsObeys(p);
    MarketTurns(p, maker, tanh, memory, sight, balance);
  }
}
