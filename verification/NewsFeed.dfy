/** The per-subscriber news queue and the two-party batch barrier of
    arena/live/news_feed.py. Every body the source runs under a lock is one
    atomic step, given as a function on one market's state; the classes hold
    the mutable dictionaries and are proved to take exactly those steps. */
module NewsFeed {
  import opened Wrappers
  import opened DropQueues
  import opened Doubles

  datatype LiveArticle = LiveArticle(
    url: string,
    title: string,
    source: string,
    published: int,
    fullText: Option<string>,
    matchedMarketIds: seq<int>
  )

  /** One of the two consumers of a barrier, by name. */
  datatype Arm = Arm(name: string)

  datatype PairedNewsBatch = PairedNewsBatch(articles: seq<LiveArticle>, referencePrice: Double)

  datatype ActiveBatch = ActiveBatch(
    batch: PairedNewsBatch,
    acknowledged: set<Arm>,
    leased: set<Arm>
  )

  /** One market as the barrier and its subscription see it. */
  datatype MarketState = MarketState(pending: seq<LiveArticle>, active: Option<ActiveBatch>)

  datatype FeedError = UnknownArm(arm: Arm) | IndistinctArms

  // ------------------------------------------------------------------ steps

  function DeliverStep(state: MarketState, article: LiveArticle, maxQueue: nat): MarketState {
    state.(pending := KeepNewest(state.pending + [article], maxQueue))
  }

  /** The batch an arm would work on: the active one, or a fresh snapshot of
      everything pending when a usable price is at hand. */
  function ActivateStep(state: MarketState, price: Option<Double>): MarketState {
    if state.active.Some? || price.None? || !IsUnitPrice(price.value) || state.pending == [] then
      state
    else
      MarketState([], Some(ActiveBatch(PairedNewsBatch(state.pending, price.value), {}, {})))
  }

  /** Hand the active batch to an arm that has neither leased nor acknowledged it. */
  function LeaseStep(state: MarketState, arm: Arm): (MarketState, Option<PairedNewsBatch>) {
    if state.active.None? then (state, None)
    else
      var active := state.active.value;
      if arm in active.acknowledged || arm in active.leased then (state, None)
      else (state.(active := Some(active.(leased := active.leased + {arm}))), Some(active.batch))
  }

  function DrainStep(state: MarketState, arm: Arm, price: Option<Double>)
    : (MarketState, Option<PairedNewsBatch>)
  {
    LeaseStep(ActivateStep(state, price), arm)
  }

  function AckStep(state: MarketState, arms: set<Arm>, arm: Arm): MarketState {
    if state.active.None? then state
    else
      var active := state.active.value;
      var acknowledged := active.acknowledged + {arm};
      if acknowledged == arms then state.(active := None)
      else state.(active := Some(ActiveBatch(active.batch, acknowledged, active.leased - {arm})))
  }

  function RetryStep(state: MarketState, arm: Arm): MarketState {
    if state.active.None? then state
    else state.(active := Some(state.active.value.(leased := state.active.value.leased - {arm})))
  }

  // ----------------------------------------------------------- NewsSubscription

  function QueueIn(pending: map<int, seq<LiveArticle>>, market: int): seq<LiveArticle> {
    if market in pending then pending[market] else []
  }

  class NewsSubscription {
    const maxQueue: nat
    var pending: map<int, seq<LiveArticle>>

    constructor (maxQueue: nat)
      ensures this.maxQueue == maxQueue && pending == map[]
    {
      this.maxQueue := maxQueue;
      pending := map[];
    }

    ghost function Queue(market: int): seq<LiveArticle>
      reads this
    {
      QueueIn(pending, market)
    }

    method Deliver(market: int, article: LiveArticle)
      modifies this
      ensures pending == old(pending)[market := KeepNewest(old(QueueIn(pending, market)) + [article], maxQueue)]
    {
      var queue := QueueIn(pending, market) + [article];
      queue := PopLeftTo(queue, maxQueue);
      pending := pending[market := queue];
    }

    method Drain(market: int) returns (articles: seq<LiveArticle>)
      modifies this
      ensures articles == old(Queue(market))
      ensures Queue(market) == []
      ensures forall other :: other != market ==> Queue(other) == old(Queue(other))
    {
      if market !in pending || pending[market] == [] {
        return [];
      }
      articles := pending[market];
      pending := pending[market := []];
    }

    /** Restore a failed batch ahead of newer evidence; overflow drops the newest. */
    method RequeueFront(market: int, articles: seq<LiveArticle>)
      modifies this
      ensures articles == [] ==> pending == old(pending)
      ensures articles != [] ==> Queue(market) == KeepOldest(articles + old(Queue(market)), maxQueue)
      ensures forall other :: other != market ==> Queue(other) == old(Queue(other))
    {
      if articles == [] {
        return;
      }
      var queue := articles + (if market in pending then pending[market] else []);
      ghost var extended := queue;
      while |queue| > maxQueue
        invariant pending == old(pending)
        invariant KeepOldest(queue, maxQueue) == KeepOldest(extended, maxQueue)
      {
        DropLast(queue, maxQueue);
        queue := queue[..|queue| - 1];
      }
      pending := pending[market := queue];
    }
  }

  // ------------------------------------------------------ PairedNewsBatchBarrier

  class PairedNewsBatchBarrier {
    const subscription: NewsSubscription
    const armNames: set<Arm>
    var active: map<int, ActiveBatch>

    constructor (subscription: NewsSubscription, armNames: (Arm, Arm))
      requires armNames.0 != armNames.1
      ensures this.subscription == subscription && this.armNames == {armNames.0, armNames.1}
      ensures active == map[]
    {
      this.subscription := subscription;
      this.armNames := {armNames.0, armNames.1};
      active := map[];
    }

    ghost function At(market: int): MarketState
      reads this, subscription
    {
      MarketState(
        subscription.Queue(market),
        if market in active then Some(active[market]) else None)
    }

    /** `price` is what the injected price callback answers for this call. */
    method DrainBatch(arm: Arm, market: int, price: Option<Double>)
      returns (result: Result<Option<PairedNewsBatch>, FeedError>)
      modifies this, subscription
      ensures arm !in armNames ==> result == Err(UnknownArm(arm)) && At(market) == old(At(market))
      ensures arm in armNames ==> result.Ok? && (At(market), result.value) == DrainStep(old(At(market)), arm, price)
      ensures forall other :: other != market ==> At(other) == old(At(other))
      ensures arm in armNames && market !in old(active) && (price.None? || !(0.0 < price.value.Value() <= 1.0)) ==>
                result == Ok(None) && At(market) == old(At(market))
    {
      if arm !in armNames {
        return Err(UnknownArm(arm));
      }
      if price.Some? {
        UnitPriceIsUnit(price.value);
      }
      if market !in active {
        if price.None? || !IsUnitPrice(price.value) {
          return Ok(None);
        }
        var articles := subscription.Drain(market);
        if articles == [] {
          return Ok(None);
        }
        active := active[market := ActiveBatch(PairedNewsBatch(articles, price.value), {}, {})];
      }
      var current := active[market];
      if arm in current.acknowledged || arm in current.leased {
        return Ok(None);
      }
      active := active[market := current.(leased := current.leased + {arm})];
      return Ok(Some(current.batch));
    }

    method AckBatch(arm: Arm, market: int)
      modifies this
      ensures At(market) == AckStep(old(At(market)), armNames, arm)
      ensures forall other :: other != market ==> At(other) == old(At(other))
    {
      if market !in active {
        return;
      }
      var current := active[market];
      var acknowledged := current.acknowledged + {arm};
      if acknowledged == armNames {
        active := active - {market};
      } else {
        active := active[market := ActiveBatch(current.batch, acknowledged, current.leased - {arm})];
      }
    }

    method RetryBatch(arm: Arm, market: int)
      modifies this
      ensures At(market) == RetryStep(old(At(market)), arm)
      ensures forall other :: other != market ==> At(other) == old(At(other))
    {
      if market in active {
        var current := active[market];
        active := active[market := current.(leased := current.leased - {arm})];
      }
    }
  }

  /** Construction with the source's argument check. */
  method MakeBarrier(subscription: NewsSubscription, armNames: (Arm, Arm))
    returns (result: Result<PairedNewsBatchBarrier, FeedError>)
    ensures armNames.0 == armNames.1 ==> result == Err(IndistinctArms)
    ensures armNames.0 != armNames.1 ==>
      result.Ok? && fresh(result.value) && result.value.subscription == subscription
      && |result.value.armNames| == 2 && result.value.armNames == {armNames.0, armNames.1}
      && forall market :: result.value.At(market) == MarketState(subscription.Queue(market), None)
  {
    if armNames.0 == armNames.1 {
      return Err(IndistinctArms);
    }
    var barrier := new PairedNewsBatchBarrier(subscription, armNames);
    return Ok(barrier);
  }
}
