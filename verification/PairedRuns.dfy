/** Every interleaving of deliveries and the two arms' drain, ack and retry
    calls on the batch barrier. The history fields record what an outside
    observer sees: what was delivered, which batches were formed and when, and
    what each arm was handed and acknowledged. */
module PairedRuns {
  import opened Wrappers
  import opened DropQueues
  import opened Doubles
  import opened NewsFeed

  datatype Action =
    | Deliver(article: LiveArticle)
    | Drain(arm: Arm, price: Option<Double>)
    | Ack(arm: Arm)
    | Retry(arm: Arm)

  datatype Event = Event(market: int, action: Action)

  /** The two arms over one subscription. */
  datatype Setup = Setup(control: Arm, stage1: Arm, maxQueue: nat) {
    function Arms(): set<Arm> { {control, stage1} }
  }

  /** A batch as an arm was handed it, with its place among the batches formed. */
  datatype Receipt = Receipt(index: nat, batch: PairedNewsBatch)

  datatype Ledger = Ledger(holding: Option<Receipt>, received: seq<Receipt>, acked: seq<Receipt>)

  /** `cuts[k]` is how many articles had been delivered when batch `k` was formed. */
  datatype Market = Market(
    state: MarketState,
    delivered: seq<LiveArticle>,
    formed: seq<PairedNewsBatch>,
    cuts: seq<nat>,
    ledgers: map<Arm, Ledger>)

  // -------------------------------------------------------------------- runs

  function Fresh(setup: Setup): Market {
    Market(MarketState([], None), [], [], [], map arm | arm in setup.Arms() :: Ledger(None, [], []))
  }

  /** Arms are known to the barrier, and acknowledge only what they hold. */
  predicate Legal(setup: Setup, m: Market, action: Action) {
    match action
    case Deliver(_) => true
    case Drain(arm, _) => arm in setup.Arms()
    case Ack(arm) => arm in setup.Arms() && arm in m.ledgers && m.ledgers[arm].holding.Some?
    case Retry(arm) => arm in setup.Arms()
  }

  /** The first half of a drain: form a batch when none is active. */
  function OpenMarket(m: Market, price: Option<Double>): Market {
    var state := ActivateStep(m.state, price);
    if m.state.active.None? && state.active.Some? then
      Market(state, m.delivered, m.formed + [state.active.value.batch], m.cuts + [|m.delivered|], m.ledgers)
    else m.(state := state)
  }

  /** The second half: note what the arm is handed. */
  function LeaseMarket(m: Market, arm: Arm): Market {
    var (state, handed) := LeaseStep(m.state, arm);
    if handed.Some? && arm in m.ledgers && m.formed != [] then
      var receipt := Receipt(|m.formed| - 1, handed.value);
      var ledger := m.ledgers[arm];
      m.(state := state,
         ledgers := m.ledgers[arm := Ledger(Some(receipt), ledger.received + [receipt], ledger.acked)])
    else m.(state := state)
  }

  function Release(m: Market, arm: Arm, acknowledge: bool): map<Arm, Ledger> {
    if arm !in m.ledgers then m.ledgers
    else
      var ledger := m.ledgers[arm];
      var acked := if acknowledge && ledger.holding.Some? then ledger.acked + [ledger.holding.value] else ledger.acked;
      m.ledgers[arm := Ledger(None, ledger.received, acked)]
  }

  function StepMarket(setup: Setup, m: Market, action: Action): Market {
    match action
    case Deliver(article) =>
      m.(state := DeliverStep(m.state, article, setup.maxQueue), delivered := m.delivered + [article])
    case Drain(arm, price) => LeaseMarket(OpenMarket(m, price), arm)
    case Ack(arm) => m.(state := AckStep(m.state, setup.Arms(), arm), ledgers := Release(m, arm, true))
    case Retry(arm) => m.(state := RetryStep(m.state, arm), ledgers := Release(m, arm, false))
  }

  type World = map<int, Market>

  function MarketOf(setup: Setup, world: World, market: int): Market {
    if market in world then world[market] else Fresh(setup)
  }

  function Run(setup: Setup, events: seq<Event>): World {
    if events == [] then map[]
    else
      var before := Run(setup, events[..|events| - 1]);
      var Event(market, action) := events[|events| - 1];
      before[market := StepMarket(setup, MarketOf(setup, before, market), action)]
  }

  predicate LegalRun(setup: Setup, events: seq<Event>) {
    events == [] ||
    var Event(market, action) := events[|events| - 1];
    && LegalRun(setup, events[..|events| - 1])
    && Legal(setup, MarketOf(setup, Run(setup, events[..|events| - 1]), market), action)
  }

  // -------------------------------------------------------------- invariant

  /** How many articles were already spoken for when batch `k` began to collect. */
  function Start(m: Market, k: nat): nat
    requires k <= |m.cuts|
  {
    if k == 0 then 0 else m.cuts[k - 1]
  }

  /** The newest `maxQueue` of the articles delivered from `start` up to `cut`. */
  predicate IsNewest(delivered: seq<LiveArticle>, start: nat, cut: nat, articles: seq<LiveArticle>, maxQueue: nat) {
    && start <= cut <= |delivered|
    && |articles| == (if cut - start <= maxQueue then cut - start else maxQueue)
    && articles == delivered[cut - |articles|..cut]
  }

  lemma NewestMeans(delivered: seq<LiveArticle>, start: nat, cut: nat, articles: seq<LiveArticle>, maxQueue: nat)
    requires start <= cut <= |delivered|
    ensures IsNewest(delivered, start, cut, articles, maxQueue)
       <==> articles == KeepNewest(delivered[start..cut], maxQueue)
  {
    var kept := KeepNewest(delivered[start..cut], maxQueue);
    assert |kept| == if cut - start <= maxQueue then cut - start else maxQueue;
    NewestIsRun(delivered, start, cut, maxQueue);
    assert IsNewest(delivered, start, cut, kept, maxQueue);
  }

  /** Batch `k` is the newest `maxQueue` of the articles delivered since the
      previous batch was formed, and nothing delivered later. */
  predicate BatchOk(setup: Setup, m: Market, k: nat)
    requires |m.cuts| == |m.formed| && k < |m.formed|
  {
    && IsNewest(m.delivered, Start(m, k), m.cuts[k], m.formed[k].articles, setup.maxQueue)
    && m.formed[k].articles != []
    && IsUnitPrice(m.formed[k].referencePrice)
  }

  predicate EvidenceOk(setup: Setup, m: Market) {
    && |m.cuts| == |m.formed|
    && (forall k :: 0 <= k < |m.formed| ==> BatchOk(setup, m, k))
    && IsNewest(m.delivered, Start(m, |m.cuts|), |m.delivered|, m.state.pending, setup.maxQueue)
  }

  predicate ActiveOk(setup: Setup, m: Market) {
    m.state.active.Some? ==>
      var active := m.state.active.value;
      && m.formed != []
      && active.batch == m.formed[|m.formed| - 1]
      && active.acknowledged < setup.Arms()
      && active.leased <= setup.Arms()
      && active.leased !! active.acknowledged
  }

  predicate Finished(m: Market, arm: Arm) {
    m.state.active.None? || arm in m.state.active.value.acknowledged
  }

  predicate LedgerOk(m: Market, arm: Arm, ledger: Ledger)
    requires m.state.active.Some? ==> m.formed != []
  {
    var n := |m.formed|;
    && |ledger.acked| == (if Finished(m, arm) then n else n - 1)
    && (forall i :: 0 <= i < |ledger.acked| ==> ledger.acked[i] == Receipt(i, m.formed[i]))
    && ledger.holding == (if m.state.active.Some? && arm in m.state.active.value.leased
                          then Some(Receipt(n - 1, m.state.active.value.batch)) else None)
    && ReceivedOk(m.formed, ledger.received, |ledger.acked|)
  }

  /** Receipts follow the order of formation and never reach back behind an
      acknowledged batch by more than the one acknowledged last. */
  predicate ReceivedOk(formed: seq<PairedNewsBatch>, received: seq<Receipt>, acked: nat) {
    && (forall i :: 0 <= i < |received| ==>
          && received[i].index < |formed|
          && received[i].index <= acked
          && received[i].batch == formed[received[i].index])
    && (forall i, j :: 0 <= i < j < |received| ==> received[i].index <= received[j].index)
  }

  predicate Good(setup: Setup, m: Market) {
    && EvidenceOk(setup, m)
    && ActiveOk(setup, m)
    && m.ledgers.Keys == setup.Arms()
    && (forall arm :: arm in m.ledgers ==> LedgerOk(m, arm, m.ledgers[arm]))
  }

  // -------------------------------------------------- every step keeps it

  lemma DeliverKeepsGood(setup: Setup, m: Market, article: LiveArticle)
    requires Good(setup, m)
    ensures Good(setup, StepMarket(setup, m, Deliver(article)))
  {
    var after := StepMarket(setup, m, Deliver(article));
    DeliverKeepsEvidence(setup, m, article);
    forall arm | arm in after.ledgers
      ensures LedgerOk(after, arm, after.ledgers[arm])
    {
      assert LedgerOk(m, arm, m.ledgers[arm]);
    }
  }

  /** What was delivered, formed and cut before is still there. */
  predicate Extends(m: Market, after: Market) {
    m.delivered <= after.delivered && m.formed <= after.formed && m.cuts <= after.cuts
  }

  lemma NewestStays(delivered: seq<LiveArticle>, more: seq<LiveArticle>, start: nat, cut: nat,
                    articles: seq<LiveArticle>, maxQueue: nat)
    requires delivered <= more && IsNewest(delivered, start, cut, articles, maxQueue)
    ensures IsNewest(more, start, cut, articles, maxQueue)
  {
    assert more[cut - |articles|..cut] == delivered[cut - |articles|..cut];
  }

  lemma BatchStays(setup: Setup, m: Market, after: Market, k: nat)
    requires |m.cuts| == |m.formed| && |after.cuts| == |after.formed| && Extends(m, after)
    requires k < |m.formed| && BatchOk(setup, m, k)
    ensures BatchOk(setup, after, k)
  {
    assert Start(after, k) == Start(m, k) && after.cuts[k] == m.cuts[k] && after.formed[k] == m.formed[k];
    NewestStays(m.delivered, after.delivered, Start(m, k), m.cuts[k], m.formed[k].articles, setup.maxQueue);
  }

  lemma DeliverKeepsEvidence(setup: Setup, m: Market, article: LiveArticle)
    requires EvidenceOk(setup, m)
    ensures EvidenceOk(setup, StepMarket(setup, m, Deliver(article)))
  {
    var after := StepMarket(setup, m, Deliver(article));
    forall k | 0 <= k < |m.formed|
      ensures BatchOk(setup, after, k)
    {
      assert BatchOk(setup, m, k);
      BatchStays(setup, m, after, k);
    }
    OneMorePending(m.delivered, Start(m, |m.cuts|), article, m.state.pending, setup.maxQueue);
  }

  lemma OneMorePending(delivered: seq<LiveArticle>, start: nat, article: LiveArticle, pending: seq<LiveArticle>,
                       maxQueue: nat)
    requires IsNewest(delivered, start, |delivered|, pending, maxQueue)
    ensures IsNewest(delivered + [article], start, |delivered| + 1, KeepNewest(pending + [article], maxQueue), maxQueue)
  {
    var all, queue, first := delivered + [article], pending + [article], |delivered| - |pending|;
    var lost := Lost(|queue|, maxQueue);
    assert queue == all[first..];
    NewestDrops(queue, maxQueue);
    DropTwice(all, first, lost);
    assert all[first + lost..] == all[first + lost..|all|];
  }

  lemma OpenKeepsGood(setup: Setup, m: Market, price: Option<Double>)
    requires Good(setup, m)
    ensures Good(setup, OpenMarket(m, price))
  {
    var after := OpenMarket(m, price);
    if |after.formed| > |m.formed| {
      assert EvidenceOk(setup, after) by { OpenKeepsEvidence(setup, m, price); }
      assert ActiveOk(setup, after) by { OpenIsActive(setup, m, price); }
      forall arm | arm in after.ledgers
        ensures LedgerOk(after, arm, after.ledgers[arm])
      {
        OpenKeepsLedger(m, price, arm);
      }
    } else {
      assert after == m;
    }
  }

  lemma OpenIsActive(setup: Setup, m: Market, price: Option<Double>)
    requires |OpenMarket(m, price).formed| > |m.formed|
    ensures ActiveOk(setup, OpenMarket(m, price))
  {
    assert setup.control in setup.Arms() && setup.control !in {};
  }

  lemma OpenKeepsLedger(m: Market, price: Option<Double>, arm: Arm)
    requires arm in m.ledgers && m.state.active.None? && LedgerOk(m, arm, m.ledgers[arm])
    requires |OpenMarket(m, price).formed| > |m.formed|
    ensures LedgerOk(OpenMarket(m, price), arm, m.ledgers[arm])
  {
  }

  lemma NonePending(delivered: seq<LiveArticle>, maxQueue: nat)
    ensures IsNewest(delivered, |delivered|, |delivered|, [], maxQueue)
  {
    assert delivered[|delivered|..|delivered|] == [];
  }

  /** Closing the open collection with the pending articles as its batch. */
  lemma ClosedEvidence(setup: Setup, m: Market, after: Market, batch: PairedNewsBatch)
    requires EvidenceOk(setup, m) && batch.articles == m.state.pending != [] && IsUnitPrice(batch.referencePrice)
    requires after.delivered == m.delivered && after.state.pending == []
    requires after.formed == m.formed + [batch] && after.cuts == m.cuts + [|m.delivered|]
    ensures EvidenceOk(setup, after)
  {
    var n := |m.formed|;
    forall k | 0 <= k <= n
      ensures BatchOk(setup, after, k)
    {
      if k < n {
        assert BatchOk(setup, m, k);
        BatchStays(setup, m, after, k);
      } else {
        assert Start(after, n) == Start(m, n) && after.cuts[n] == |m.delivered| && after.formed[n] == batch;
      }
    }
    assert Start(after, |after.cuts|) == |after.delivered|;
    NonePending(after.delivered, setup.maxQueue);
  }

  lemma OpenKeepsEvidence(setup: Setup, m: Market, price: Option<Double>)
    requires EvidenceOk(setup, m) && |OpenMarket(m, price).formed| > |m.formed|
    ensures EvidenceOk(setup, OpenMarket(m, price))
  {
    var after := OpenMarket(m, price);
    ClosedEvidence(setup, m, after, after.state.active.value.batch);
  }

  lemma LeaseKeepsGood(setup: Setup, m: Market, arm: Arm)
    requires Good(setup, m) && arm in setup.Arms()
    ensures Good(setup, LeaseMarket(m, arm))
  {
    var after := LeaseMarket(m, arm);
    SameEvidence(setup, m, after);
    LeaseKeepsActive(setup, m, arm);
    forall other | other in after.ledgers
      ensures LedgerOk(after, other, after.ledgers[other])
    {
      LeaseKeepsLedger(setup, m, arm, other);
    }
  }

  lemma LeaseKeepsActive(setup: Setup, m: Market, arm: Arm)
    requires ActiveOk(setup, m) && arm in setup.Arms()
    ensures ActiveOk(setup, LeaseMarket(m, arm))
  {
  }

  lemma LeaseKeepsLedger(setup: Setup, m: Market, arm: Arm, other: Arm)
    requires ActiveOk(setup, m) && arm in m.ledgers && other in m.ledgers && LedgerOk(m, other, m.ledgers[other])
    ensures LedgerOk(LeaseMarket(m, arm), other, LeaseMarket(m, arm).ledgers[other])
  {
    var ledger := m.ledgers[other];
    if other == arm && LeaseStep(m.state, arm).1.Some? {
      AppendReceipt(m.formed, ledger.received, |ledger.acked|);
    }
  }

  lemma AppendReceipt(formed: seq<PairedNewsBatch>, received: seq<Receipt>, acked: nat)
    requires ReceivedOk(formed, received, acked) && acked < |formed|
    ensures ReceivedOk(formed, received + [Receipt(acked, formed[acked])], acked)
  {
  }

  // A step that leaves the articles alone leaves the evidence invariant alone.
  lemma SameEvidence(setup: Setup, m: Market, after: Market)
    requires EvidenceOk(setup, m)
    requires after.delivered == m.delivered && after.formed == m.formed && after.cuts == m.cuts
    requires after.state.pending == m.state.pending
    ensures EvidenceOk(setup, after)
  {
    forall k | 0 <= k < |m.formed|
      ensures BatchOk(setup, after, k)
    {
      assert BatchOk(setup, m, k);
    }
  }

  lemma AckKeepsGood(setup: Setup, m: Market, arm: Arm)
    requires Good(setup, m) && Legal(setup, m, Ack(arm))
    ensures Good(setup, StepMarket(setup, m, Ack(arm)))
  {
    var after := StepMarket(setup, m, Ack(arm));
    SameEvidence(setup, m, after);
    AckKeepsActive(setup, m, arm);
    forall other | other in after.ledgers
      ensures LedgerOk(after, other, after.ledgers[other])
    {
      assert LedgerOk(m, arm, m.ledgers[arm]) && LedgerOk(m, other, m.ledgers[other]);
      AckKeepsLedger(setup, m, arm, other);
    }
  }

  lemma AckKeepsActive(setup: Setup, m: Market, arm: Arm)
    requires ActiveOk(setup, m) && arm in setup.Arms()
    ensures ActiveOk(setup, StepMarket(setup, m, Ack(arm)))
  {
  }

  lemma AckKeepsLedger(setup: Setup, m: Market, arm: Arm, other: Arm)
    requires ActiveOk(setup, m) && Legal(setup, m, Ack(arm)) && other in setup.Arms() && other in m.ledgers
    requires LedgerOk(m, arm, m.ledgers[arm]) && LedgerOk(m, other, m.ledgers[other])
    ensures var after := StepMarket(setup, m, Ack(arm));
            (after.state.active.Some? ==> after.formed != []) && LedgerOk(after, other, after.ledgers[other])
  {
  }

  lemma RetryKeepsActive(setup: Setup, m: Market, arm: Arm)
    requires ActiveOk(setup, m) && arm in setup.Arms()
    ensures ActiveOk(setup, StepMarket(setup, m, Retry(arm)))
  {
  }

  lemma RetryKeepsLedger(setup: Setup, m: Market, arm: Arm, other: Arm)
    requires ActiveOk(setup, m) && arm in m.ledgers && other in m.ledgers && LedgerOk(m, other, m.ledgers[other])
    ensures var after := StepMarket(setup, m, Retry(arm));
            (after.state.active.Some? ==> after.formed != []) && LedgerOk(after, other, after.ledgers[other])
  {
  }

  lemma RetryKeepsGood(setup: Setup, m: Market, arm: Arm)
    requires Good(setup, m) && arm in setup.Arms()
    ensures Good(setup, StepMarket(setup, m, Retry(arm)))
  {
    var after := StepMarket(setup, m, Retry(arm));
    SameEvidence(setup, m, after);
    RetryKeepsActive(setup, m, arm);
    forall other | other in after.ledgers
      ensures LedgerOk(after, other, after.ledgers[other])
    {
      RetryKeepsLedger(setup, m, arm, other);
    }
  }

  lemma StepKeepsGood(setup: Setup, m: Market, action: Action)
    requires Good(setup, m) && Legal(setup, m, action)
    ensures Good(setup, StepMarket(setup, m, action))
  {
    match action
    case Deliver(article) => DeliverKeepsGood(setup, m, article);
    case Drain(arm, price) =>
      OpenKeepsGood(setup, m, price);
      LeaseKeepsGood(setup, OpenMarket(m, price), arm);
    case Ack(arm) => AckKeepsGood(setup, m, arm);
    case Retry(arm) => RetryKeepsGood(setup, m, arm);
  }

  lemma FreshEvidence(setup: Setup, m: Market)
    requires m.delivered == [] && m.formed == [] && m.cuts == [] && m.state.pending == []
    ensures EvidenceOk(setup, m)
  {
    assert m.delivered[0..0] == [];
  }

  lemma FreshIsGood(setup: Setup)
    ensures Good(setup, Fresh(setup))
  {
    var m := Fresh(setup);
    FreshEvidence(setup, m);
    assert m.ledgers.Keys == setup.Arms();
    forall arm | arm in m.ledgers
      ensures LedgerOk(m, arm, m.ledgers[arm])
    {
      FreshLedger(m, arm);
    }
  }

  lemma FreshLedger(m: Market, arm: Arm)
    requires m.formed == [] && m.state.active.None?
    ensures LedgerOk(m, arm, Ledger(None, [], []))
  {
  }

  lemma {:induction false} RunsAreGood(setup: Setup, events: seq<Event>, market: int)
    requires LegalRun(setup, events)
    ensures Good(setup, MarketOf(setup, Run(setup, events), market))
  {
    if events == [] {
      FreshIsGood(setup);
    } else {
      var last := events[|events| - 1];
      var before := events[..|events| - 1];
      RunsAreGood(setup, before, market);
      if last.market == market {
        StepKeepsGood(setup, MarketOf(setup, Run(setup, before), market), last.action);
      }
    }
  }

  // ------------------------------------------------------------ main results

  /** In every legal run the arms' acknowledgements are the batches formed so
      far, in order and without gaps; neither arm is more than one batch ahead,
      and where both have acknowledged they saw the same articles and price. */
  lemma ArmsStayInStep(setup: Setup, events: seq<Event>, market: int, one: Arm, two: Arm)
    requires LegalRun(setup, events)
    requires one in setup.Arms() && two in setup.Arms()
    ensures var m := MarketOf(setup, Run(setup, events), market);
            && one in m.ledgers && two in m.ledgers
            && var a, b := m.ledgers[one].acked, m.ledgers[two].acked;
            && |m.formed| - 1 <= |a| <= |m.formed|
            && -1 <= |a| - |b| <= 1
            && (a <= b || b <= a)
            && (forall i :: 0 <= i < |a| ==> a[i] == Receipt(i, m.formed[i]))
            && (forall i :: 0 <= i < |a| ==> a[i].batch.articles != [] && IsUnitPrice(a[i].batch.referencePrice))
  {
    var m := MarketOf(setup, Run(setup, events), market);
    RunsAreGood(setup, events, market);
    assert LedgerOk(m, one, m.ledgers[one]) && LedgerOk(m, two, m.ledgers[two]);
    forall i | 0 <= i < |m.formed|
      ensures m.formed[i].articles != [] && IsUnitPrice(m.formed[i].referencePrice)
    {
      assert BatchOk(setup, m, i);
    }
  }

  /** What is handed, if anything, is the batch after all those acknowledged. */
  predicate IsNext(handed: Option<PairedNewsBatch>, formed: seq<PairedNewsBatch>, acked: seq<Receipt>) {
    handed.Some? ==>
      && |formed| == |acked| + 1
      && handed.value == formed[|acked|]
      && forall i :: 0 <= i < |acked| ==> acked[i].index < |acked|
  }

  /** Whatever a drain hands an arm is the one batch that arm has not
      acknowledged: never one it acknowledged before, and never one beyond. */
  lemma HandedIsNextUnacknowledged(setup: Setup, events: seq<Event>, market: int, arm: Arm, price: Option<Double>)
    requires LegalRun(setup, events) && arm in setup.Arms()
    ensures var m := MarketOf(setup, Run(setup, events), market);
            var after := StepMarket(setup, m, Drain(arm, price));
            arm in m.ledgers && IsNext(DrainStep(m.state, arm, price).1, after.formed, m.ledgers[arm].acked)
  {
    RunsAreGood(setup, events, market);
    HandedWhenGood(setup, MarketOf(setup, Run(setup, events), market), arm, price);
  }

  lemma HandedWhenGood(setup: Setup, m: Market, arm: Arm, price: Option<Double>)
    requires Good(setup, m) && arm in setup.Arms()
    ensures arm in m.ledgers
    ensures IsNext(DrainStep(m.state, arm, price).1, StepMarket(setup, m, Drain(arm, price)).formed,
                   m.ledgers[arm].acked)
  {
    var ready := OpenMarket(m, price);
    OpenKeepsGood(setup, m, price);
    assert arm in ready.ledgers;
    assert LedgerOk(ready, arm, ready.ledgers[arm]);
  }

  /** The discipline matters: when an arm acknowledges a batch it does not hold,
      the batch is retired although that arm never saw it. */
  lemma UnheldAckSkipsABatch(setup: Setup, article: LiveArticle, price: Double)
    requires setup.control != setup.stage1 && setup.maxQueue > 0 && IsUnitPrice(price)
    ensures var m0 := StepMarket(setup, Fresh(setup), Deliver(article));
            var m1 := StepMarket(setup, m0, Drain(setup.control, Some(price)));
            var m2 := StepMarket(setup, m1, Ack(setup.stage1));
            var m3 := StepMarket(setup, m2, Ack(setup.control));
            && !Legal(setup, m1, Ack(setup.stage1))
            && m3.formed == [PairedNewsBatch([article], price)]
            && m3.state.active.None?
            && setup.stage1 in m3.ledgers && m3.ledgers[setup.stage1].received == []
  {
    var batch, control, stage1 := PairedNewsBatch([article], price), setup.control, setup.stage1;
    var m0 := StepMarket(setup, Fresh(setup), Deliver(article));
    assert m0.state == MarketState([article], None);
    var m1 := StepMarket(setup, m0, Drain(control, Some(price)));
    LeaseFirst(m0, batch, control);
    BothAcks(setup, m1, batch);
  }

  lemma BothAcks(setup: Setup, m: Market, batch: PairedNewsBatch)
    requires setup.control != setup.stage1 && m.state.active == Some(ActiveBatch(batch, {}, {setup.control}))
    requires setup.stage1 in m.ledgers
    ensures var after := StepMarket(setup, StepMarket(setup, m, Ack(setup.stage1)), Ack(setup.control));
            && after.state.active.None? && after.formed == m.formed
            && setup.stage1 in after.ledgers && after.ledgers[setup.stage1].received == m.ledgers[setup.stage1].received
  {
    AckUnheld(setup, m.state, batch);
    var next := StepMarket(setup, m, Ack(setup.stage1));
    assert next.ledgers[setup.stage1].received == m.ledgers[setup.stage1].received;
    AckSecond(setup, next.state, batch);
  }

  lemma AckSecond(setup: Setup, state: MarketState, batch: PairedNewsBatch)
    requires state.active == Some(ActiveBatch(batch, {setup.stage1}, {setup.control}))
    ensures AckStep(state, setup.Arms(), setup.control).active.None?
  {
    assert {setup.stage1} + {setup.control} == setup.Arms();
  }

  lemma LeaseFirst(m: Market, batch: PairedNewsBatch, arm: Arm)
    requires m.state == MarketState(batch.articles, None) && batch.articles != [] && IsUnitPrice(batch.referencePrice)
    requires arm in m.ledgers
    ensures var after := LeaseMarket(OpenMarket(m, Some(batch.referencePrice)), arm);
            && after.state == MarketState([], Some(ActiveBatch(batch, {}, {arm})))
            && after.formed == m.formed + [batch]
            && after.ledgers.Keys == m.ledgers.Keys
            && forall other :: other in m.ledgers && other != arm ==> after.ledgers[other] == m.ledgers[other]
  {
    var ready := OpenMarket(m, Some(batch.referencePrice));
    assert ready.state == MarketState([], Some(ActiveBatch(batch, {}, {})));
    assert {} + {arm} == {arm};
  }

  lemma AckUnheld(setup: Setup, state: MarketState, batch: PairedNewsBatch)
    requires setup.control != setup.stage1 && state.active == Some(ActiveBatch(batch, {}, {setup.control}))
    ensures AckStep(state, setup.Arms(), setup.stage1).active
            == Some(ActiveBatch(batch, {setup.stage1}, {setup.control}))
  {
    assert {} + {setup.stage1} == {setup.stage1};
    assert {setup.control} - {setup.stage1} == {setup.control};
    assert setup.control in setup.Arms() && setup.control !in {setup.stage1};
  }

  /** A receipt of a batch that was formed, with articles and a usable price. */
  predicate Genuine(formed: seq<PairedNewsBatch>, r: Receipt) {
    && r.index < |formed| && r.batch == formed[r.index]
    && r.batch.articles != [] && IsUnitPrice(r.batch.referencePrice)
  }

  lemma ReceiptsAreGenuine(setup: Setup, m: Market, arm: Arm)
    requires Good(setup, m) && arm in setup.Arms()
    ensures arm in m.ledgers
    ensures forall i :: 0 <= i < |m.ledgers[arm].received| ==> Genuine(m.formed, m.ledgers[arm].received[i])
  {
    assert arm in m.ledgers;
    assert LedgerOk(m, arm, m.ledgers[arm]);
    forall i | 0 <= i < |m.ledgers[arm].received|
      ensures Genuine(m.formed, m.ledgers[arm].received[i])
    {
      assert BatchOk(setup, m, m.ledgers[arm].received[i].index);
    }
  }

  /** Every receipt, by either arm and however often retried, carries articles and a
      price above zero and at most one, and receipts of one batch carry the same. */
  lemma SameBatchSameEvidence(setup: Setup, events: seq<Event>, market: int, one: Arm, two: Arm)
    requires LegalRun(setup, events)
    requires one in setup.Arms() && two in setup.Arms()
    ensures var m := MarketOf(setup, Run(setup, events), market);
            && one in m.ledgers && two in m.ledgers
            && var a, b := m.ledgers[one].received, m.ledgers[two].received;
            && (forall i, j :: 0 <= i < |a| && 0 <= j < |b| && a[i].index == b[j].index ==> a[i].batch == b[j].batch)
            && (forall i :: 0 <= i < |a| ==> a[i].batch.articles != [] && IsUnitPrice(a[i].batch.referencePrice))
  {
    var m := MarketOf(setup, Run(setup, events), market);
    RunsAreGood(setup, events, market);
    ReceiptsAreGenuine(setup, m, one);
    ReceiptsAreGenuine(setup, m, two);
  }

  lemma StepOnlyAppends(setup: Setup, m: Market, action: Action)
    ensures m.formed <= StepMarket(setup, m, action).formed
    ensures m.cuts <= StepMarket(setup, m, action).cuts
  {
  }

  /** A formed batch never changes, whatever is delivered or done later. */
  lemma {:induction false} FormedBatchesAreFrozen(setup: Setup, events: seq<Event>, market: int, k: nat)
    requires k <= |events|
    ensures MarketOf(setup, Run(setup, events[..k]), market).formed
            <= MarketOf(setup, Run(setup, events), market).formed
    ensures MarketOf(setup, Run(setup, events[..k]), market).cuts <= MarketOf(setup, Run(setup, events), market).cuts
  {
    if k == |events| {
      assert events[..k] == events;
    } else {
      var before := events[..|events| - 1];
      FormedBatchesAreFrozen(setup, before, market, k);
      assert before[..k] == events[..k];
      var last := events[|events| - 1];
      if last.market == market {
        StepOnlyAppends(setup, MarketOf(setup, Run(setup, before), market), last.action);
      }
    }
  }

  // ------------------------------------------------------------ conservation

  /** The articles of the first `k` batches, one after another. */
  function Evidence(formed: seq<PairedNewsBatch>, k: nat): seq<LiveArticle>
    requires k <= |formed|
  {
    if k == 0 then [] else Evidence(formed, k - 1) + formed[k - 1].articles
  }

  /** Where in the delivery order the articles of the first `k` batches stand. */
  function KeptThrough(setup: Setup, m: Market, k: nat): seq<nat>
    requires EvidenceOk(setup, m) && k <= |m.formed|
  {
    if k == 0 then []
    else
      assert BatchOk(setup, m, k - 1);
      KeptThrough(setup, m, k - 1) + Range(m.cuts[k - 1] - |m.formed[k - 1].articles|, m.cuts[k - 1])
  }

  function Kept(setup: Setup, m: Market): seq<nat>
    requires EvidenceOk(setup, m)
  {
    KeptThrough(setup, m, |m.formed|) + Range(|m.delivered| - |m.state.pending|, |m.delivered|)
  }

  /** How many articles had been delivered when the collection holding article
      `i` was closed, counting the open one as closed now. */
  function Closed(m: Market, i: nat, k: nat): nat
    requires k <= |m.cuts|
    decreases |m.cuts| - k
  {
    if k == |m.cuts| then |m.delivered| else if i < m.cuts[k] then m.cuts[k] else Closed(m, i, k + 1)
  }

  /** One more collection, of which the newest `maxQueue` articles are kept. */
  lemma CollectionIsOrdered(delivered: seq<LiveArticle>, kept: seq<nat>, evidence: seq<LiveArticle>,
                            start: nat, end: nat, articles: seq<LiveArticle>, maxQueue: nat)
    requires IsNewest(delivered, start, end, articles, maxQueue)
    requires Increasing(kept, start) && PicksOut(delivered, kept, evidence)
    ensures |articles| <= end - start
    ensures Increasing(kept + Range(end - |articles|, end), end)
    ensures PicksOut(delivered, kept + Range(end - |articles|, end), evidence + articles)
  {
    AppendRun(delivered, kept, evidence, end - |articles|, end);
  }

  lemma KeptThroughGrows(setup: Setup, m: Market, k: nat)
    requires EvidenceOk(setup, m) && k < |m.formed|
    ensures Start(m, k) + |m.formed[k].articles| <= m.cuts[k] == Start(m, k + 1) <= |m.delivered|
    ensures m.formed[k].articles == m.delivered[m.cuts[k] - |m.formed[k].articles|..m.cuts[k]]
    ensures KeptThrough(setup, m, k + 1)
         == KeptThrough(setup, m, k) + Range(m.cuts[k] - |m.formed[k].articles|, m.cuts[k])
    ensures Evidence(m.formed, k + 1) == Evidence(m.formed, k) + m.formed[k].articles
  {
    assert BatchOk(setup, m, k);
  }

  lemma {:induction false} KeptThroughIncreases(setup: Setup, m: Market, k: nat)
    requires EvidenceOk(setup, m) && k <= |m.formed|
    ensures Increasing(KeptThrough(setup, m, k), Start(m, k))
  {
    if k > 0 {
      KeptThroughIncreases(setup, m, k - 1);
      KeptThroughGrows(setup, m, k - 1);
      var cut := m.cuts[k - 1];
      AppendIncreasing(KeptThrough(setup, m, k - 1), Start(m, k - 1), cut - |m.formed[k - 1].articles|, cut);
    }
  }

  lemma {:induction false} KeptThroughPicksOut(setup: Setup, m: Market, k: nat)
    requires EvidenceOk(setup, m) && k <= |m.formed|
    ensures PicksOut(m.delivered, KeptThrough(setup, m, k), Evidence(m.formed, k))
  {
    if k > 0 {
      KeptThroughPicksOut(setup, m, k - 1);
      KeptThroughGrows(setup, m, k - 1);
      var cut := m.cuts[k - 1];
      AppendPicked(m.delivered, KeptThrough(setup, m, k - 1), Evidence(m.formed, k - 1),
                   cut - |m.formed[k - 1].articles|, cut);
    }
  }

  lemma KeptThroughIsOrdered(setup: Setup, m: Market, k: nat)
    requires EvidenceOk(setup, m) && k <= |m.formed|
    ensures Increasing(KeptThrough(setup, m, k), Start(m, k))
    ensures PicksOut(m.delivered, KeptThrough(setup, m, k), Evidence(m.formed, k))
  {
    KeptThroughIncreases(setup, m, k);
    KeptThroughPicksOut(setup, m, k);
  }

  // An article of the first `k` collections survives exactly when fewer than
  // `maxQueue` newer ones joined its own collection before it was closed.
  lemma {:induction false} KeptThroughIsNewest(setup: Setup, m: Market, k: nat, i: nat)
    requires EvidenceOk(setup, m) && k <= |m.formed| && i < Start(m, k)
    ensures i in KeptThrough(setup, m, k) <==> Closed(m, i, 0) - i <= setup.maxQueue
  {
    var last := k - 1;
    assert BatchOk(setup, m, last);
    KeptThroughIsOrdered(setup, m, last);
    KeptThroughGrows(setup, m, last);
    InRange(m.cuts[last] - |m.formed[last].articles|, m.cuts[last], i);
    if i < Start(m, last) {
      KeptThroughIsNewest(setup, m, last, i);
    } else {
      ClosedAt(setup, m, i, last, 0);
    }
  }

  lemma {:induction false} ClosedAt(setup: Setup, m: Market, i: nat, k: nat, from: nat)
    requires EvidenceOk(setup, m) && from <= k <= |m.cuts| && Start(m, k) <= i
    requires k < |m.cuts| ==> i < m.cuts[k]
    ensures Closed(m, i, from) == if k < |m.cuts| then m.cuts[k] else |m.delivered|
    decreases k - from
  {
    if from < k {
      CutsIncrease(setup, m, from, k - 1);
      ClosedAt(setup, m, i, k, from + 1);
    }
  }

  lemma {:induction false} CutsIncrease(setup: Setup, m: Market, j: nat, k: nat)
    requires EvidenceOk(setup, m) && j <= k < |m.cuts|
    ensures m.cuts[j] <= m.cuts[k]
    decreases k - j
  {
    if j < k {
      assert BatchOk(setup, m, k);
      CutsIncrease(setup, m, j, k - 1);
    }
  }

  /** Conservation over every legal run: the formed batches followed by the
      queue are the delivered articles, in order, without exactly those that
      `maxQueue` newer arrivals pushed out before their collection was closed. */
  lemma EvidenceIsConserved(setup: Setup, events: seq<Event>, market: int)
    requires LegalRun(setup, events)
    ensures var m := MarketOf(setup, Run(setup, events), market);
            && EvidenceOk(setup, m)
            && Increasing(Kept(setup, m), |m.delivered|)
            && PicksOut(m.delivered, Kept(setup, m), Evidence(m.formed, |m.formed|) + m.state.pending)
            && forall i :: 0 <= i < |m.delivered| ==> (i in Kept(setup, m) <==> Closed(m, i, 0) - i <= setup.maxQueue)
  {
    var m := MarketOf(setup, Run(setup, events), market);
    RunsAreGood(setup, events, market);
    KeptIsOrdered(setup, m);
    forall i | 0 <= i < |m.delivered|
      ensures i in Kept(setup, m) <==> Closed(m, i, 0) - i <= setup.maxQueue
    {
      KeptIsNewest(setup, m, i);
    }
  }

  lemma KeptIsOrdered(setup: Setup, m: Market)
    requires EvidenceOk(setup, m)
    ensures Increasing(Kept(setup, m), |m.delivered|)
    ensures PicksOut(m.delivered, Kept(setup, m), Evidence(m.formed, |m.formed|) + m.state.pending)
  {
    var n := |m.formed|;
    KeptThroughIsOrdered(setup, m, n);
    CollectionIsOrdered(m.delivered, KeptThrough(setup, m, n), Evidence(m.formed, n), Start(m, n), |m.delivered|,
                        m.state.pending, setup.maxQueue);
  }

  lemma KeptIsNewest(setup: Setup, m: Market, i: nat)
    requires EvidenceOk(setup, m) && i < |m.delivered|
    ensures i in Kept(setup, m) <==> Closed(m, i, 0) - i <= setup.maxQueue
  {
    var n := |m.formed|;
    KeptThroughIsOrdered(setup, m, n);
    InRange(|m.delivered| - |m.state.pending|, |m.delivered|, i);
    if i < Start(m, n) {
      KeptThroughIsNewest(setup, m, n, i);
    } else {
      ClosedAt(setup, m, i, n, 0);
    }
  }
}
