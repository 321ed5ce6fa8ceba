/** Which markets a rebalance (arena/live/trader.py) looks at, which of them it closes,
    and with what it sizes the others. */
module RebalanceRules {
  import opened Wrappers
  import opened Reals
  import opened Orders
  import opened Strategy
  import opened Rebalance

  // ----------------------------------------------------------------- holdings

  predicate At(p: Position, market: int, outcome: Outcome) { p.market == market && p.outcome == outcome }

  /** At most one position for each outcome of a market, as the keys of a dictionary. */
  predicate Keyed(positions: seq<Position>) {
    forall i, j :: 0 <= i < j < |positions| ==> !At(positions[i], positions[j].market, positions[j].outcome)
  }

  /** What is held is the quantity of that position. */
  lemma {:induction false} HeldIsItsPosition(positions: seq<Position>, i: nat)
    requires i < |positions| && Keyed(positions)
    ensures Held(positions, positions[i].market, positions[i].outcome) == positions[i].quantity
    decreases |positions|
  {
    if i > 0 {
      var rest := positions[1..];
      forall a, b | 0 <= a < b < |rest|
        ensures !At(rest[a], rest[b].market, rest[b].outcome)
      {
        assert !At(positions[a + 1], positions[b + 1].market, positions[b + 1].outcome);
      }
      assert !At(positions[0], positions[i].market, positions[i].outcome);
      HeldIsItsPosition(rest, i - 1);
    }
  }

  /** And nothing where there is none. */
  lemma {:induction false} NoPositionHoldsNothing(positions: seq<Position>, market: int, outcome: Outcome)
    requires forall i :: 0 <= i < |positions| ==> !At(positions[i], market, outcome)
    ensures Held(positions, market, outcome) == 0
    decreases |positions|
  {
    if positions != [] {
      assert !At(positions[0], market, outcome);
      NoPositionHoldsNothing(positions[1..], market, outcome);
    }
  }

  /** A market is looked at exactly when it has a fair value or something is held in it. */
  lemma ChecksExactly(estimates: map<int, Estimate>, positions: seq<Position>, market: int)
    ensures market in MarketsToCheck(estimates, positions)
       <==> || market in estimates
            || exists i :: 0 <= i < |positions| && positions[i].market == market && positions[i].quantity > 0
  {
    if i :| 0 <= i < |positions| && positions[i].market == market && positions[i].quantity > 0 {
      assert positions[i] in positions;
    }
  }

  // ------------------------------------------------------------------ closing

  /** No fair value, one past its hard expiry, or a market that has resolved or trades
      as good as resolved. */
  predicate Closes(s: Scene, desk: Desk, market: int) {
    || market !in desk.estimates
    || Max(0.0, s.now - desk.estimates[market].stamp) >= s.config.hardExpiry
    || market in s.resolved
    || s.price(market) >= 0.95 || s.price(market) <= 0.05
  }

  lemma FreshExactly(s: Scene, desk: Desk, market: int)
    requires s.config.Valid() && market in desk.estimates
    ensures Fresh(s, desk, market)
         == Some(EffectiveFairValue(desk.estimates[market].fairValue, s.price(market),
                                    s.now - desk.estimates[market].stamp, s.config, s.decay))
  {
  }

  lemma NothingHeld(s: Scene, market: int)
    ensures ClosingOrders(s, market) == []
       <==> Held(s.positions, market, Yes) <= 0 && Held(s.positions, market, No) <= 0
  {
  }

  lemma SalesAreFree(s: Scene, market: int)
    ensures TotalCost(ClosingOrders(s, market)) == 0.0
  {
    var yes, no := Held(s.positions, market, Yes), Held(s.positions, market, No);
    var a := if yes > 0 then [AtPrice(SellYes, market, s.price(market), yes)] else [];
    var b := if no > 0 then [AtPrice(SellNo, market, 1.0 - s.price(market), no)] else [];
    TotalCostConcat(a, b);
    assert TotalCost(a) == 0.0 && TotalCost(b) == 0.0;
  }

  /** A market that closes gets the orders that sell what is held and nothing else; its
      estimate is forgotten exactly when nothing was left to sell. */
  lemma ClosedExactly(s: Scene, desk: Desk, market: int)
    requires s.config.Valid() && s.price(market) > 0.0 && Closes(s, desk, market)
    ensures var bare := Held(s.positions, market, Yes) <= 0 && Held(s.positions, market, No) <= 0;
            StepDesk(s, desk, market)
            == desk.(orders := desk.orders + ClosingOrders(s, market),
                     estimates := if bare then desk.estimates - {market} else desk.estimates)
  {
    if market in desk.estimates {
      FreshExactly(s, desk, market);
    }
    NothingHeld(s, market);
    SalesAreFree(s, market);
    StepCloses(s, desk, market);
  }

  /** Any other is sized at its own age and confidence, from the portfolio value and
      the cash above a fifth of it. */
  lemma SizedExactly(s: Scene, desk: Desk, market: int, view: FreshFairValue, available: real)
    requires s.config.Valid() && s.price(market) > 0.0 && !Closes(s, desk, market)
    requires var e := desk.estimates[market];
             view == EffectiveFairValue(e.fairValue, s.price(market), s.now - e.stamp, s.config, s.decay)
    requires available == Max(0.0, desk.cash - 0.20 * PortfolioValue(s))
    ensures view.effective.Some?
    ensures var (target, entry) := SizerTarget(s.sizer, EntryOf(desk.entries, market), view.effective.value,
                                               s.price(market), PortfolioValue(s), Held(s.positions, market, Yes),
                                               Held(s.positions, market, No), desk.estimates[market].confidence,
                                               view.factor);
            var orders := PositionOrders(market, target.0, target.1, Held(s.positions, market, Yes),
                                         Held(s.positions, market, No), view.effective.value, s.price(market),
                                         available);
            StepDesk(s, desk, market)
            == Desk(desk.cash - TotalCost(orders), desk.orders + orders, WithEntry(desk.entries, market, entry),
                    desk.estimates)
  {
    FreshExactly(s, desk, market);
    StepSizes(s, desk, market, view.effective.value, view.factor, PortfolioValue(s));
  }

  /** And one without a price is passed over. */
  lemma UnpricedIsPassedOver(s: Scene, desk: Desk, market: int)
    requires s.config.Valid()
    ensures s.price(market) <= 0.0 ==> StepDesk(s, desk, market) == desk
  {
  }
}
