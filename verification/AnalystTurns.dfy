/** The two analysts' turns on the batch barrier (arena/live/analyst.py): a drain,
    and for a batch it was handed one acknowledgement or one retry. Every
    interleaving of such turns keeps the barrier's discipline. */
module AnalystTurns {
  import opened Wrappers
  import opened Doubles
  import opened NewsFeed
  import opened PairedRuns

  /** Where an analyst stands in its loop: between batches, holding one, or past the
      acknowledgement but still inside the guarded call. */
  datatype Phase = Idle | Holding(market: int) | Acknowledged(market: int)

  predicate ActsIn(action: Action, arm: Arm) {
    match action
    case Deliver(_) => false
    case Drain(other, _) => other == arm
    case Ack(other) => other == arm
    case Retry(other) => other == arm
  }

  function Handed(m: Market, arm: Arm, price: Option<Double>): Option<PairedNewsBatch> {
    DrainStep(m.state, arm, price).1
  }

  function NextPhase(setup: Setup, world: World, event: Event, phase: Phase): Phase {
    match event.action
    case Deliver(_) => phase
    case Drain(arm, price) =>
      if Handed(MarketOf(setup, world, event.market), arm, price).Some? then Holding(event.market) else Idle
    case Ack(_) => Acknowledged(event.market)
    case Retry(_) => Idle
  }

  function PhaseOf(setup: Setup, events: seq<Event>, arm: Arm): Phase {
    if events == [] then Idle
    else
      var before, last := events[..|events| - 1], events[|events| - 1];
      var phase := PhaseOf(setup, before, arm);
      if ActsIn(last.action, arm) then NextPhase(setup, Run(setup, before), last, phase) else phase
  }

  /** What an analyst may do next. A turn that an exception ends leaves its batch
      behind, so a drain is possible at any time; a retry also follows an
      acknowledgement when the rest of the guarded call fails. */
  predicate MayDo(setup: Setup, events: seq<Event>, event: Event) {
    match event.action
    case Deliver(_) => true
    case Drain(arm, _) => arm in setup.Arms()
    case Ack(arm) => arm in setup.Arms() && PhaseOf(setup, events, arm) == Holding(event.market)
    case Retry(arm) =>
      && arm in setup.Arms()
      && (PhaseOf(setup, events, arm) == Holding(event.market)
          || PhaseOf(setup, events, arm) == Acknowledged(event.market))
  }

  /** Any interleaving of deliveries and the two analysts' steps. */
  predicate Turns(setup: Setup, events: seq<Event>) {
    events == [] ||
    (Turns(setup, events[..|events| - 1]) && MayDo(setup, events[..|events| - 1], events[|events| - 1]))
  }

  /** No turn is broken off: an analyst settles a batch before it drains again. */
  predicate Settled(setup: Setup, events: seq<Event>) {
    events == [] ||
    var before, last := events[..|events| - 1], events[|events| - 1];
    && Settled(setup, before)
    && (last.action.Drain? ==> !PhaseOf(setup, before, last.action.arm).Holding?)
  }

  predicate Holds(m: Market, arm: Arm) { arm in m.ledgers && m.ledgers[arm].holding.Some? }

  /** When an arm holds a batch after a step, in terms of before. */
  predicate HoldsAfter(m: Market, action: Action, arm: Arm) {
    match action
    case Deliver(_) => Holds(m, arm)
    case Drain(other, price) => Holds(m, arm) || (other == arm && Handed(m, arm, price).Some?)
    case Ack(other) => other != arm && Holds(m, arm)
    case Retry(other) => other != arm && Holds(m, arm)
  }

  lemma LeaseHolds(m: Market, other: Arm, arm: Arm)
    requires (m.state.active.Some? ==> m.formed != []) && other in m.ledgers
    ensures Holds(LeaseMarket(m, other), arm)
       <==> Holds(m, arm) || (other == arm && LeaseStep(m.state, arm).1.Some?)
  {
  }

  lemma DrainHolds(setup: Setup, m: Market, other: Arm, price: Option<Double>, arm: Arm)
    requires ActiveOk(setup, m) && other in m.ledgers
    ensures Holds(StepMarket(setup, m, Drain(other, price)), arm) <==> HoldsAfter(m, Drain(other, price), arm)
  {
    LeaseHolds(OpenMarket(m, price), other, arm);
  }

  lemma StepHolds(setup: Setup, m: Market, action: Action, arm: Arm)
    requires ActiveOk(setup, m) && m.ledgers.Keys == setup.Arms() && Legal(setup, m, action) && arm in setup.Arms()
    ensures Holds(StepMarket(setup, m, action), arm) <==> HoldsAfter(m, action, arm)
  {
    if action.Drain? {
      DrainHolds(setup, m, action.arm, action.price, arm);
    }
  }

  lemma RunHolds(setup: Setup, events: seq<Event>, arm: Arm, market: int)
    requires events != [] && LegalRun(setup, events) && arm in setup.Arms()
    ensures var before, last := events[..|events| - 1], events[|events| - 1];
            var m := MarketOf(setup, Run(setup, before), market);
            Holds(MarketOf(setup, Run(setup, events), market), arm)
            == (if last.market == market then HoldsAfter(m, last.action, arm) else Holds(m, arm))
  {
    var before, last := events[..|events| - 1], events[|events| - 1];
    RunsAreGood(setup, before, market);
    if last.market == market {
      StepHolds(setup, MarketOf(setup, Run(setup, before), market), last.action, arm);
    }
  }

  lemma FreshHoldsNothing(setup: Setup, arm: Arm)
    ensures !Holds(Fresh(setup), arm)
  {
  }

  /** An analyst in the middle of a turn does hold its batch, so every interleaving
      of turns is a legal run of the barrier. */
  lemma {:induction false} TurnsAreLegal(setup: Setup, events: seq<Event>)
    requires Turns(setup, events)
    ensures LegalRun(setup, events)
    ensures forall arm :: arm in setup.Arms() && PhaseOf(setup, events, arm).Holding? ==>
              Holds(MarketOf(setup, Run(setup, events), PhaseOf(setup, events, arm).market), arm)
  {
    if events != [] {
      var before := events[..|events| - 1];
      TurnsAreLegal(setup, before);
      assert LegalRun(setup, events);
      forall arm | arm in setup.Arms() && PhaseOf(setup, events, arm).Holding?
        ensures Holds(MarketOf(setup, Run(setup, events), PhaseOf(setup, events, arm).market), arm)
      {
        RunHolds(setup, events, arm, PhaseOf(setup, events, arm).market);
      }
    }
  }

  /** Where no turn is broken off, an arm holds a batch exactly while its analyst is
      in that batch's turn. */
  lemma {:induction false} HoldsOnlyInTurn(setup: Setup, events: seq<Event>, arm: Arm, market: int)
    requires Turns(setup, events) && Settled(setup, events) && arm in setup.Arms()
    ensures Holds(MarketOf(setup, Run(setup, events), market), arm) <==> PhaseOf(setup, events, arm) == Holding(market)
  {
    if events == [] {
      FreshHoldsNothing(setup, arm);
    } else {
      TurnsAreLegal(setup, events);
      HoldsOnlyInTurn(setup, events[..|events| - 1], arm, market);
      RunHolds(setup, events, arm, market);
    }
  }

  /** So nothing is withheld: an analyst between turns that drains a market is handed
      the active batch there, unless it has acknowledged that batch already. */
  lemma DrainHandsTheActiveBatch(setup: Setup, events: seq<Event>, arm: Arm, market: int, price: Option<Double>)
    requires Turns(setup, events) && Settled(setup, events) && arm in setup.Arms()
    requires !PhaseOf(setup, events, arm).Holding?
    ensures var m := MarketOf(setup, Run(setup, events), market);
            var active := ActivateStep(m.state, price).active;
            Handed(m, arm, price)
            == (if active.Some? && arm !in active.value.acknowledged then Some(active.value.batch) else None)
  {
    var m := MarketOf(setup, Run(setup, events), market);
    TurnsAreLegal(setup, events);
    RunsAreGood(setup, events, market);
    HoldsOnlyInTurn(setup, events, arm, market);
    assert LedgerOk(m, arm, m.ledgers[arm]);
  }

  /** A batch is handed to an analyst only with articles, so a turn that was handed
      one never passes it over as empty. */
  lemma HandedHasArticles(setup: Setup, events: seq<Event>, arm: Arm, market: int, price: Option<Double>)
    requires Turns(setup, events) && arm in setup.Arms()
    ensures var handed := Handed(MarketOf(setup, Run(setup, events), market), arm, price);
            handed.Some? ==> handed.value.articles != [] && IsUnitPrice(handed.value.referencePrice)
  {
    TurnsAreLegal(setup, events);
    RunsAreGood(setup, events, market);
    var m := MarketOf(setup, Run(setup, events), market);
    if m.state.active.Some? {
      assert BatchOk(setup, m, |m.formed| - 1);
    }
  }
}
