/** Every run of one analyst on an ordinary subscription: deliveries, and at most
    one drained batch in flight that is either finished or put back. Articles
    are followed by their place in the order of delivery; `DeliverMatchesQueue`
    and `FailMatchesQueue` tie those places to the queue the class holds. */
module SubscriptionRuns {
  import opened DropQueues
  import opened NewsFeed

  datatype Action = Deliver(article: LiveArticle) | Drain | Finish | Fail

  datatype Observed = Observed(
    delivered: seq<LiveArticle>,
    waiting: seq<nat>,
    flying: seq<nat>,
    finished: multiset<nat>,
    dropped: multiset<nat>)

  function Fresh(): Observed { Observed([], [], [], multiset{}, multiset{}) }

  /** `drain` is called only when no batch is in flight. */
  predicate Legal(o: Observed, action: Action) {
    action.Drain? ==> o.flying == []
  }

  function Step(o: Observed, action: Action, maxQueue: nat): Observed {
    match action
    case Deliver(article) =>
      var queue := o.waiting + [|o.delivered|];
      var kept := KeepNewest(queue, maxQueue);
      o.(delivered := o.delivered + [article],
         waiting := kept,
         dropped := o.dropped + multiset(queue[..|queue| - |kept|]))
    case Drain => o.(waiting := [], flying := o.waiting)
    case Finish => o.(flying := [], finished := o.finished + multiset(o.flying))
    case Fail =>
      if o.flying == [] then o
      else
        var queue := o.flying + o.waiting;
        var kept := KeepOldest(queue, maxQueue);
        o.(waiting := kept, flying := [], dropped := o.dropped + multiset(queue[|kept|..]))
  }

  function Run(actions: seq<Action>, maxQueue: nat): Observed {
    if actions == [] then Fresh()
    else Step(Run(actions[..|actions| - 1], maxQueue), actions[|actions| - 1], maxQueue)
  }

  predicate LegalRun(actions: seq<Action>, maxQueue: nat) {
    actions == [] ||
    (&& LegalRun(actions[..|actions| - 1], maxQueue)
     && Legal(Run(actions[..|actions| - 1], maxQueue), actions[|actions| - 1]))
  }

  /** In flight, then queued, is in strict delivery order and within bounds. */
  predicate Ordered(o: Observed, maxQueue: nat) {
    && Increasing(o.flying + o.waiting, |o.delivered|)
    && |o.flying| <= maxQueue
    && |o.waiting| <= maxQueue
  }

  function Places(o: Observed): multiset<nat> {
    o.finished + o.dropped + multiset(o.flying) + multiset(o.waiting)
  }

  /** Every delivered article is in exactly one place, and there once. */
  predicate Accounted(o: Observed) {
    Places(o) == Below(|o.delivered|)
  }

  // ------------------------------------------------- the queue of the class

  function Articles(delivered: seq<LiveArticle>, places: seq<nat>): (articles: seq<LiveArticle>)
    requires forall i :: 0 <= i < |places| ==> places[i] < |delivered|
    ensures |articles| == |places|
    ensures forall i :: 0 <= i < |places| ==> articles[i] == delivered[places[i]]
  {
    seq(|places|, i requires 0 <= i < |places| => delivered[places[i]])
  }

  /** The places move as the articles do: the queue after a delivery is what
      `Deliver` of the class leaves. */
  lemma DeliverMatchesQueue(delivered: seq<LiveArticle>, waiting: seq<nat>, article: LiveArticle, maxQueue: nat)
    requires forall i :: 0 <= i < |waiting| ==> waiting[i] < |delivered|
    ensures Articles(delivered + [article], KeepNewest(waiting + [|delivered|], maxQueue))
         == KeepNewest(Articles(delivered, waiting) + [article], maxQueue)
  {
    var queue, all := waiting + [|delivered|], delivered + [article];
    var lost := Lost(|queue|, maxQueue);
    ArticlesAppend(delivered, waiting, article);
    ArticlesDrop(all, queue, lost);
    NewestDrops(queue, maxQueue);
    NewestDrops(Articles(delivered, waiting) + [article], maxQueue);
  }

  lemma ArticlesAppend(delivered: seq<LiveArticle>, places: seq<nat>, article: LiveArticle)
    requires forall i :: 0 <= i < |places| ==> places[i] < |delivered|
    ensures Articles(delivered + [article], places + [|delivered|]) == Articles(delivered, places) + [article]
  {
  }

  lemma ArticlesDrop(delivered: seq<LiveArticle>, places: seq<nat>, k: nat)
    requires k <= |places| && forall i :: 0 <= i < |places| ==> places[i] < |delivered|
    ensures Articles(delivered, places[k..]) == Articles(delivered, places)[k..]
  {
  }

  /** And after a failure, what `RequeueFront` of the class leaves. */
  lemma FailMatchesQueue(delivered: seq<LiveArticle>, flying: seq<nat>, waiting: seq<nat>, maxQueue: nat)
    requires forall i :: 0 <= i < |waiting| ==> waiting[i] < |delivered|
    requires forall i :: 0 <= i < |flying| ==> flying[i] < |delivered|
    ensures Articles(delivered, KeepOldest(flying + waiting, maxQueue))
         == KeepOldest(Articles(delivered, flying) + Articles(delivered, waiting), maxQueue)
  {
    var left := Articles(delivered, KeepOldest(flying + waiting, maxQueue));
    var right := KeepOldest(Articles(delivered, flying) + Articles(delivered, waiting), maxQueue);
    forall i | 0 <= i < |left|
      ensures left[i] == right[i]
    {
      assert KeepOldest(flying + waiting, maxQueue)[i] == (flying + waiting)[i];
      assert right[i] == (Articles(delivered, flying) + Articles(delivered, waiting))[i];
    }
  }

  // -------------------------------------------------- every step keeps order

  lemma IncreasingSlice(s: seq<nat>, below: nat, lo: nat, hi: nat)
    requires Increasing(s, below) && lo <= hi <= |s|
    ensures Increasing(s[lo..hi], below)
  {
  }

  lemma DeliverKeepsOrdered(o: Observed, article: LiveArticle, maxQueue: nat)
    requires Ordered(o, maxQueue)
    ensures Ordered(Step(o, Deliver(article), maxQueue), maxQueue)
  {
    var queue := o.waiting + [|o.delivered|];
    var kept := KeepNewest(queue, maxQueue);
    DeliverIsIncreasing(o, |o.delivered|);
    IncreasingDrop(o.flying, queue, |o.delivered| + 1, |queue| - |kept|);
  }

  // Leaving out a stretch in the middle keeps the order.
  lemma IncreasingDrop(first: seq<nat>, rest: seq<nat>, below: nat, lost: nat)
    requires Increasing(first + rest, below) && lost <= |rest|
    ensures Increasing(first + rest[lost..], below)
  {
    var all, after := first + rest, first + rest[lost..];
    assert forall i :: 0 <= i < |after| ==> after[i] == all[if i < |first| then i else i + lost];
  }

  lemma StepKeepsOrdered(o: Observed, action: Action, maxQueue: nat)
    requires Ordered(o, maxQueue) && Legal(o, action)
    ensures Ordered(Step(o, action, maxQueue), maxQueue)
  {
    var all := o.flying + o.waiting;
    match action
    case Deliver(article) => DeliverKeepsOrdered(o, article, maxQueue);
    case Drain => assert o.waiting + [] == all;
    case Finish =>
      IncreasingSlice(all, |o.delivered|, |o.flying|, |all|);
      assert [] + o.waiting == all[|o.flying|..|all|];
    case Fail =>
      var kept := KeepOldest(all, maxQueue);
      IncreasingSlice(all, |o.delivered|, 0, |kept|);
      assert [] + kept == all[0..|kept|];
  }

  lemma DeliverIsIncreasing(o: Observed, n: nat)
    requires Increasing(o.flying + o.waiting, n)
    ensures Increasing(o.flying + (o.waiting + [n]), n + 1)
  {
    assert o.flying + (o.waiting + [n]) == (o.flying + o.waiting) + [n];
  }

  // What an overflowing queue loses and keeps, counted.
  lemma NewestCounts(queue: seq<nat>, max: nat)
    ensures var kept := KeepNewest(queue, max);
            multiset(queue[..|queue| - |kept|]) + multiset(kept) == multiset(queue)
  {
    var kept := KeepNewest(queue, max);
    assert queue == queue[..|queue| - |kept|] + kept;
  }

  lemma OldestCounts(queue: seq<nat>, max: nat)
    ensures var kept := KeepOldest(queue, max);
            multiset(kept) + multiset(queue[|kept|..]) == multiset(queue)
  {
    var kept := KeepOldest(queue, max);
    assert queue == kept + queue[|kept|..];
  }

  // Losing some of the queue moves entries from one place to the other.
  lemma Rearrange(o: Observed, after: Observed, queue: multiset<nat>)
    requires after.finished == o.finished && after.dropped + multiset(after.waiting) == o.dropped + queue
    ensures Places(after) == o.finished + o.dropped + multiset(after.flying) + queue
  {
    assert Places(after) == o.finished + multiset(after.flying) + (after.dropped + multiset(after.waiting));
  }

  lemma DeliverAddsOne(o: Observed, article: LiveArticle, maxQueue: nat)
    ensures Places(Step(o, Deliver(article), maxQueue)) == Places(o) + multiset{|o.delivered|}
  {
    var n: nat := |o.delivered|;
    var queue := o.waiting + [n];
    var kept := KeepNewest(queue, maxQueue);
    var after := Step(o, Deliver(article), maxQueue);
    NewestCounts(queue, maxQueue);
    assert after.dropped + multiset(after.waiting)
           == o.dropped + (multiset(queue[..|queue| - |kept|]) + multiset(kept));
    Rearrange(o, after, multiset(queue));
  }

  lemma FailMovesPlaces(o: Observed, maxQueue: nat)
    ensures Places(Step(o, Fail, maxQueue)) == Places(o)
  {
    if o.flying != [] {
      var queue := o.flying + o.waiting;
      var kept := KeepOldest(queue, maxQueue);
      var after := Step(o, Fail, maxQueue);
      OldestCounts(queue, maxQueue);
      assert after.dropped + multiset(after.waiting) == o.dropped + (multiset(kept) + multiset(queue[|kept|..]));
      Rearrange(o, after, multiset(queue));
    }
  }

  lemma StepKeepsAccounted(o: Observed, action: Action, maxQueue: nat)
    requires Accounted(o) && Legal(o, action)
    ensures Accounted(Step(o, action, maxQueue))
  {
    match action
    case Deliver(article) => DeliverAddsOne(o, article, maxQueue);
    case Drain =>
    case Finish =>
    case Fail => FailMovesPlaces(o, maxQueue);
  }

  lemma {:induction false} RunsStayOrdered(actions: seq<Action>, maxQueue: nat)
    requires LegalRun(actions, maxQueue)
    ensures Ordered(Run(actions, maxQueue), maxQueue)
    ensures Accounted(Run(actions, maxQueue))
  {
    if actions != [] {
      var before := actions[..|actions| - 1];
      RunsStayOrdered(before, maxQueue);
      StepKeepsOrdered(Run(before, maxQueue), actions[|actions| - 1], maxQueue);
      StepKeepsAccounted(Run(before, maxQueue), actions[|actions| - 1], maxQueue);
    }
  }

  /** A failed analysis puts the whole raw batch back in front of everything
      newer, whatever arrived meanwhile; only the newest arrivals can be lost. */
  lemma FailureRestoresTheBatch(actions: seq<Action>, maxQueue: nat)
    requires LegalRun(actions, maxQueue)
    ensures var o := Run(actions, maxQueue);
            var after := Step(o, Fail, maxQueue);
            && o.flying <= after.waiting <= o.flying + o.waiting
            && (after.waiting != o.flying + o.waiting ==> |after.waiting| == maxQueue)
            && Increasing(after.waiting, |o.delivered|)
            && after.delivered == o.delivered
  {
    RunsStayOrdered(actions, maxQueue);
    var o := Run(actions, maxQueue);
    RestoreBatch(o, maxQueue);
  }

  lemma RestoreBatch(o: Observed, maxQueue: nat)
    requires Ordered(o, maxQueue)
    ensures var after := Step(o, Fail, maxQueue);
            && o.flying <= after.waiting <= o.flying + o.waiting
            && (after.waiting != o.flying + o.waiting ==> |after.waiting| == maxQueue)
            && Increasing(after.waiting, |o.delivered|)
  {
    var all := o.flying + o.waiting;
    if o.flying == [] {
      assert all == o.waiting;
    } else {
      IncreasingSlice(all, |o.delivered|, 0, |KeepOldest(all, maxQueue)|);
    }
  }
}
