/** Batches are formed at a usable reference price that was asked for at that moment,
    and never at a price made up for want of one. */
module ReferencePrices {
  import opened Wrappers
  import opened Doubles
  import opened NewsFeed
  import opened PairedRuns

  /** Above zero and at most one dollar. */
  predicate Usable(price: Option<Double>) { price.Some? && 0.0 < price.value.Value() <= 1.0 }

  /** What a drain does with no batch active: with a usable price and articles pending
      it freezes all of them at that price and hands them over; otherwise it leaves
      everything as it was and hands over nothing. */
  lemma DrainWithoutBatch(state: MarketState, arm: Arm, price: Option<Double>)
    requires state.active.None?
    ensures var (after, handed) := DrainStep(state, arm, price);
            if Usable(price) && state.pending != [] then
              var batch := PairedNewsBatch(state.pending, price.value);
              after == MarketState([], Some(ActiveBatch(batch, {}, {arm}))) && handed == Some(batch)
            else after == state && handed == None
  {
    if price.Some? {
      UnitPriceIsUnit(price.value);
    }
    assert {} + {arm} == {arm};
  }

  /** With one active, the price asked for and the queue play no part. */
  lemma DrainWithBatch(state: MarketState, arm: Arm, price: Option<Double>)
    requires state.active.Some?
    ensures var (after, handed) := DrainStep(state, arm, price);
            && (after, handed) == DrainStep(state, arm, None)
            && after.pending == state.pending
            && (handed.Some? ==> handed.value == state.active.value.batch)
            && after.active.Some? && after.active.value.batch == state.active.value.batch
  {
  }

  /** In the run model: a step forms a batch exactly when it is a drain with a usable
      price while articles are pending and none is active. */
  predicate Forms(m: Market, action: Action) {
    action.Drain? && m.state.active.None? && m.state.pending != [] && Usable(action.price)
  }

  lemma FormsExactly(setup: Setup, m: Market, action: Action)
    ensures StepMarket(setup, m, action).formed
            == if Forms(m, action) then m.formed + [PairedNewsBatch(m.state.pending, action.price.value)] else m.formed
  {
    if action.Drain? && action.price.Some? {
      UnitPriceIsUnit(action.price.value);
    }
  }

  function FormedBy(setup: Setup, events: seq<Event>, market: int): seq<PairedNewsBatch> {
    MarketOf(setup, Run(setup, events), market).formed
  }

  /** The `j`th event is the drain that formed the `k`th batch: with no batch active, at
      the batch's price, from a queue that holds its articles. */
  predicate FormedAt(setup: Setup, events: seq<Event>, market: int, j: nat, k: nat, batch: PairedNewsBatch)
    requires j < |events|
  {
    var before := MarketOf(setup, Run(setup, events[..j]), market);
    && events[j].market == market && events[j].action.Drain?
    && |before.formed| == k && before.state.active.None?
    && events[j].action.price == Some(batch.referencePrice) && Usable(Some(batch.referencePrice))
    && batch.articles == before.state.pending != []
  }

  lemma FormedLast(setup: Setup, events: seq<Event>, market: int, k: nat)
    requires k < |FormedBy(setup, events, market)|
    requires events != [] && k >= |FormedBy(setup, events[..|events| - 1], market)|
    ensures FormedAt(setup, events, market, |events| - 1, k, FormedBy(setup, events, market)[k])
  {
    var n := |events| - 1;
    FormsExactly(setup, MarketOf(setup, Run(setup, events[..n]), market), events[n].action);
  }

  lemma FormedEarlier(setup: Setup, events: seq<Event>, n: nat, market: int, j: nat, k: nat, batch: PairedNewsBatch)
    requires j < n <= |events| && FormedAt(setup, events[..n], market, j, k, batch)
    ensures FormedAt(setup, events, market, j, k, batch)
  {
    assert events[..n][..j] == events[..j];
  }

  lemma StaysFormed(setup: Setup, events: seq<Event>, n: nat, market: int, k: nat)
    requires n <= |events| && k < |FormedBy(setup, events[..n], market)| && k < |FormedBy(setup, events, market)|
    ensures FormedBy(setup, events, market)[k] == FormedBy(setup, events[..n], market)[k]
  {
    FormedBatchesAreFrozen(setup, events, market, n);
  }

  lemma NothingFormedYet(setup: Setup, market: int)
    ensures FormedBy(setup, [], market) == []
  {
  }

  /** Over every run, each formed batch goes back to one such drain of its market. */
  lemma {:induction false} FormedByItsDrain(setup: Setup, events: seq<Event>, market: int, k: nat) returns (j: nat)
    requires k < |FormedBy(setup, events, market)|
    ensures j < |events| && FormedAt(setup, events, market, j, k, FormedBy(setup, events, market)[k])
    decreases |events|
  {
    NothingFormedYet(setup, market);
    var n := |events| - 1;
    if k < |FormedBy(setup, events[..n], market)| {
      j := FormedByItsDrain(setup, events[..n], market, k);
      StaysFormed(setup, events, n, market, k);
      FormedEarlier(setup, events, n, market, j, k, FormedBy(setup, events, market)[k]);
    } else {
      FormedLast(setup, events, market, k);
      j := n;
    }
  }

  /** And conversely every such drain of a run forms one. */
  lemma DrainForms(setup: Setup, events: seq<Event>, market: int, arm: Arm, price: Option<Double>)
    ensures var m := MarketOf(setup, Run(setup, events), market);
            var formed := FormedBy(setup, events + [Event(market, Drain(arm, price))], market);
            if m.state.active.None? && m.state.pending != [] && Usable(price)
            then formed == m.formed + [PairedNewsBatch(m.state.pending, price.value)]
            else formed == m.formed
  {
    var event := Event(market, Drain(arm, price));
    assert (events + [event])[..|events|] == events;
    FormsExactly(setup, MarketOf(setup, Run(setup, events), market), event.action);
  }
}
