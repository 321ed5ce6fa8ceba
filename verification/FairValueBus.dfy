/** The fair-value broadcast of arena/live/fair_value_bus.py and what a sizer keeps
    of it (arena/live/trader.py): one analyst publishes, two sizers drain their own
    bounded copies. Lock bodies are atomic steps. */
module FairValueBus {
  import opened Wrappers
  import opened DropQueues

  datatype FairValueUpdate = FairValueUpdate(
    market: int,
    fairValue: real,
    ts: Option<int>,
    confidence: Option<real>,
    restate: string,
    countercase: string
  )

  /** What a sizer stores of the latest update of a market. */
  datatype Stored = Stored(fairValue: real, timestamp: int, confidence: Option<real>, restate: string,
                           countercase: string)

  function StoredFrom(update: FairValueUpdate, now: int): Stored {
    Stored(update.fairValue, if update.ts.Some? then update.ts.value else now, update.confidence, update.restate,
           update.countercase)
  }

  function Queue(pending: map<int, seq<FairValueUpdate>>, market: int): seq<FairValueUpdate> {
    if market in pending then pending[market] else []
  }

  // ------------------------------------------------------------ the bus itself

  class FairValueSubscription {
    const maxQueue: nat
    var pending: map<int, seq<FairValueUpdate>>

    constructor (maxQueue: nat)
      ensures this.maxQueue == maxQueue && pending == map[]
    {
      this.maxQueue := maxQueue;
      pending := map[];
    }

    method Deliver(update: FairValueUpdate)
      modifies this
      ensures pending
           == old(pending)[update.market := KeepNewest(old(Queue(pending, update.market)) + [update], maxQueue)]
    {
      var queue := Queue(pending, update.market) + [update];
      queue := PopLeftTo(queue, maxQueue);
      pending := pending[update.market := queue];
    }

    method Drain(market: int) returns (updates: seq<FairValueUpdate>)
      modifies this
      ensures updates == old(Queue(pending, market))
      ensures forall m :: Queue(pending, m) == if m == market then [] else old(Queue(pending, m))
    {
      if market !in pending || pending[market] == [] {
        return [];
      }
      updates := pending[market];
      pending := pending[market := []];
    }
  }

  class FairValueBus {
    var subscribers: seq<FairValueSubscription>

    /** Each subscription is made once, so the list never repeats one. */
    ghost predicate Valid()
      reads this
    {
      forall i, j :: 0 <= i < j < |subscribers| ==> subscribers[i] != subscribers[j]
    }

    constructor ()
      ensures Valid() && subscribers == []
    {
      subscribers := [];
    }

    method Subscribe(maxQueue: nat) returns (sub: FairValueSubscription)
      requires Valid()
      modifies this
      ensures Valid() && subscribers == old(subscribers) + [sub]
      ensures fresh(sub) && sub.maxQueue == maxQueue && sub.pending == map[]
    {
      sub := new FairValueSubscription(maxQueue);
      subscribers := subscribers + [sub];
    }

    method Unsubscribe(sub: FairValueSubscription)
      requires Valid()
      modifies this
      ensures Valid() && sub !in subscribers
      ensures forall other :: other != sub ==> (other in subscribers <==> other in old(subscribers))
    {
      var i := 0;
      while i < |subscribers|
        invariant 0 <= i <= |subscribers| && subscribers == old(subscribers)
        invariant sub !in subscribers[..i]
      {
        if subscribers[i] == sub {
          ghost var all := subscribers;
          assert forall s :: s in all <==> s in all[..i] || s == all[i] || s in all[i + 1..];
          subscribers := subscribers[..i] + subscribers[i + 1..];
          return;
        }
        i := i + 1;
      }
    }

    method Publish(update: FairValueUpdate)
      requires Valid()
      modifies subscribers
      ensures forall sub :: sub in subscribers ==>
                var queue := old(Queue(sub.pending, update.market));
                sub.pending == old(sub.pending)[update.market := KeepNewest(queue + [update], sub.maxQueue)]
    {
      var i := 0;
      while i < |subscribers|
        invariant 0 <= i <= |subscribers|
        invariant forall k :: 0 <= k < i ==>
                    subscribers[k].pending == old(subscribers[k].pending)[update.market :=
                      KeepNewest(old(Queue(subscribers[k].pending, update.market)) + [update], subscribers[k].maxQueue)]
        invariant forall k :: i <= k < |subscribers| ==> subscribers[k].pending == old(subscribers[k].pending)
      {
        subscribers[i].Deliver(update);
        i := i + 1;
      }
    }
  }

  /** The fair-value fields of one sizer. */
  class Sizer {
    const subscription: FairValueSubscription
    var stored: map<int, Stored>

    constructor (subscription: FairValueSubscription)
      ensures this.subscription == subscription && stored == map[]
    {
      this.subscription := subscription;
      stored := map[];
    }

    method DrainMarket(market: int, now: int)
      requires forall u :: u in Queue(subscription.pending, market) ==> u.market == market
      modifies this, subscription
      ensures forall m ::
                Queue(subscription.pending, m) == if m == market then [] else old(Queue(subscription.pending, m))
      ensures var updates := old(Queue(subscription.pending, market));
              stored == if updates == [] then old(stored)
                        else old(stored)[market := StoredFrom(updates[|updates| - 1], now)]
    {
      var updates := subscription.Drain(market);
      var i := 0;
      while i < |updates|
        invariant 0 <= i <= |updates|
        invariant forall m ::
                    Queue(subscription.pending, m) == if m == market then [] else old(Queue(subscription.pending, m))
        invariant stored == if i == 0 then old(stored) else old(stored)[market := StoredFrom(updates[i - 1], now)]
      {
        stored := stored[updates[i].market := StoredFrom(updates[i], now)];
        i := i + 1;
      }
    }

    method Forget(market: int)
      modifies this
      ensures stored == old(stored) - {market}
    {
      stored := stored - {market};
    }
  }

  // ------------------------------------------------------- runs of one market

  /** One sizer's side of one market. `drained` is all it ever took, `positions`
      where those were published, `dropped` how many its queue let go, and `seenAt`
      when it last stored something. */
  datatype Arm = Arm(bound: nat, pending: seq<FairValueUpdate>, drained: seq<FairValueUpdate>, positions: seq<nat>,
                     dropped: nat, stored: Option<Stored>, seenAt: int)

  datatype Event = Publish(update: FairValueUpdate) | Drain(first: bool, now: int) | Forget(first: bool)

  datatype Desk = Desk(published: seq<FairValueUpdate>, one: Arm, two: Arm)

  function Fresh(bound: nat): Arm { Arm(bound, [], [], [], 0, None, 0) }

  function Delivered(arm: Arm, update: FairValueUpdate): Arm {
    var queue := KeepNewest(arm.pending + [update], arm.bound);
    arm.(pending := queue, dropped := arm.dropped + |arm.pending| + 1 - |queue|)
  }

  /** `published` holds what this arm has pending at its end. */
  function DrainedArm(arm: Arm, published: nat, now: int): Arm
    requires |arm.pending| <= published
  {
    if arm.pending == [] then arm
    else arm.(pending := [],
              drained := arm.drained + arm.pending,
              positions := arm.positions + Range(published - |arm.pending|, published),
              stored := Some(StoredFrom(arm.pending[|arm.pending| - 1], now)),
              seenAt := now)
  }

  predicate Fits(d: Desk) { |d.one.pending| <= |d.published| && |d.two.pending| <= |d.published| }

  function Step(d: Desk, e: Event): (after: Desk)
    requires Fits(d)
    ensures Fits(after)
  {
    match e
    case Publish(update) => Desk(d.published + [update], Delivered(d.one, update), Delivered(d.two, update))
    case Drain(first, now) =>
      if first then d.(one := DrainedArm(d.one, |d.published|, now))
      else d.(two := DrainedArm(d.two, |d.published|, now))
    case Forget(first) =>
      if first then d.(one := d.one.(stored := None)) else d.(two := d.two.(stored := None))
  }

  /** Both sizers subscribe before anything is published. */
  function Run(one: nat, two: nat, events: seq<Event>): (d: Desk)
    ensures Fits(d)
  {
    if events == [] then Desk([], Fresh(one), Fresh(two))
    else Step(Run(one, two, events[..|events| - 1]), events[|events| - 1])
  }

  /** The queue is the newest part of what was published, and nothing is lost
      unaccounted for. */
  predicate Queued(arm: Arm, published: seq<FairValueUpdate>) {
    && |arm.pending| <= |published|
    && arm.pending == published[|published| - |arm.pending|..]
    && |arm.drained| + arm.dropped + |arm.pending| == |published|
    && (arm.dropped == 0 ==> arm.drained + arm.pending == published)
  }

  /** What was drained keeps its publishing order. */
  predicate Ordered(arm: Arm, published: seq<FairValueUpdate>) {
    && |arm.pending| <= |published|
    && Increasing(arm.positions, |published| - |arm.pending|)
    && PicksOut(published, arm.positions, arm.drained)
  }

  predicate EndsWith(updates: seq<FairValueUpdate>, update: FairValueUpdate) {
    updates != [] && updates[|updates| - 1] == update
  }

  /** The newest publication is still queued or was the last one drained, and the
      stored values are those of the last one drained. */
  predicate Latest(arm: Arm, published: seq<FairValueUpdate>) {
    && (arm.bound > 0 && published != [] ==>
          EndsWith(if arm.pending == [] then arm.drained else arm.pending, published[|published| - 1]))
    && (arm.stored.Some? ==>
          arm.drained != [] && arm.stored.value == StoredFrom(arm.drained[|arm.drained| - 1], arm.seenAt))
  }

  predicate Tracks(arm: Arm, published: seq<FairValueUpdate>) {
    Queued(arm, published) && Ordered(arm, published) && Latest(arm, published)
  }

  lemma DeliverQueued(arm: Arm, published: seq<FairValueUpdate>, update: FairValueUpdate)
    requires Queued(arm, published)
    ensures Queued(Delivered(arm, update), published + [update])
  {
    var queue, all := arm.pending + [update], published + [update];
    var kept := KeepNewest(queue, arm.bound);
    assert queue == all[|all| - |queue|..];
    assert kept == queue[|queue| - |kept|..] == all[|all| - |kept|..];
    if Delivered(arm, update).dropped == 0 {
      assert kept == queue;
      assert arm.drained + queue == (arm.drained + arm.pending) + [update];
    }
  }

  lemma DeliverOrdered(arm: Arm, published: seq<FairValueUpdate>, update: FairValueUpdate)
    requires Ordered(arm, published)
    ensures Ordered(Delivered(arm, update), published + [update])
  {
  }

  lemma DeliverLatest(arm: Arm, published: seq<FairValueUpdate>, update: FairValueUpdate)
    requires Latest(arm, published)
    ensures Latest(Delivered(arm, update), published + [update])
  {
    var queue := arm.pending + [update];
    assert EndsWith(queue, update);
    assert KeepNewest(queue, arm.bound) == queue[|queue| - |KeepNewest(queue, arm.bound)|..];
  }

  lemma DeliverTracks(arm: Arm, published: seq<FairValueUpdate>, update: FairValueUpdate)
    requires Tracks(arm, published)
    ensures Tracks(Delivered(arm, update), published + [update])
  {
    DeliverQueued(arm, published, update);
    DeliverOrdered(arm, published, update);
    DeliverLatest(arm, published, update);
  }

  lemma ForgetTracks(arm: Arm, published: seq<FairValueUpdate>)
    requires Tracks(arm, published)
    ensures Tracks(arm.(stored := None), published)
  {
  }

  lemma DrainTracks(arm: Arm, published: seq<FairValueUpdate>, now: int)
    requires Tracks(arm, published)
    ensures Tracks(DrainedArm(arm, |published|, now), published)
  {
    if arm.pending != [] {
      var lo, after := |published| - |arm.pending|, DrainedArm(arm, |published|, now);
      assert published[lo..|published|] == arm.pending;
      assert Ordered(after, published) by { AppendRun(published, arm.positions, arm.drained, lo, |published|); }
      assert Queued(after, published) by { assert after.drained + [] == after.drained; }
      assert Latest(after, published);
    }
  }

  lemma StepTracks(d: Desk, e: Event)
    requires Tracks(d.one, d.published) && Tracks(d.two, d.published) && Fits(d)
    ensures var after := Step(d, e);
            && Tracks(after.one, after.published) && Tracks(after.two, after.published)
            && after.one.bound == d.one.bound && after.two.bound == d.two.bound
  {
    match e
    case Publish(update) =>
      DeliverTracks(d.one, d.published, update);
      DeliverTracks(d.two, d.published, update);
    case Drain(first, now) =>
      if first { DrainTracks(d.one, d.published, now); } else { DrainTracks(d.two, d.published, now); }
    case Forget(first) =>
      if first { ForgetTracks(d.one, d.published); } else { ForgetTracks(d.two, d.published); }
  }

  lemma {:induction false} RunTracks(one: nat, two: nat, events: seq<Event>)
    ensures var d := Run(one, two, events);
            Tracks(d.one, d.published) && Tracks(d.two, d.published) && d.one.bound == one && d.two.bound == two
  {
    if events != [] {
      RunTracks(one, two, events[..|events| - 1]);
      StepTracks(Run(one, two, events[..|events| - 1]), events[|events| - 1]);
    }
  }

  /** While neither queue has dropped anything, one sizer's updates are a prefix of
      the other's, whatever the interleaving; each has drained or still holds
      exactly what was published. */
  lemma PrefixWithoutOverflow(one: nat, two: nat, events: seq<Event>)
    requires var d := Run(one, two, events); d.one.dropped == 0 && d.two.dropped == 0
    ensures var d := Run(one, two, events);
            && d.one.drained + d.one.pending == d.published == d.two.drained + d.two.pending
            && (d.one.drained <= d.two.drained || d.two.drained <= d.one.drained)
  {
    RunTracks(one, two, events);
    var d := Run(one, two, events);
    assert d.one.drained == d.published[..|d.one.drained|];
    assert d.two.drained == d.published[..|d.two.drained|];
  }

  /** Even with drops, each sizer takes updates in publishing order, none twice. */
  lemma DrainedInOrder(one: nat, two: nat, events: seq<Event>)
    ensures var d := Run(one, two, events);
            && Increasing(d.one.positions, |d.published|) && PicksOut(d.published, d.one.positions, d.one.drained)
            && Increasing(d.two.positions, |d.published|) && PicksOut(d.published, d.two.positions, d.two.drained)
  {
    RunTracks(one, two, events);
  }

  /** What two sizers that have both last seen `newest` still store is what it said;
      their timestamps agree exactly when the update carried one or both stored it at
      the same moment. */
  predicate Agree(one: Arm, two: Arm, newest: FairValueUpdate) {
    one.stored.Some? && two.stored.Some? ==>
      var a, b := one.stored.value, two.stored.value;
      && a.fairValue == b.fairValue == newest.fairValue && a.confidence == b.confidence == newest.confidence
      && a.restate == b.restate == newest.restate && a.countercase == b.countercase == newest.countercase
      && (if newest.ts.Some? then a.timestamp == b.timestamp == newest.ts.value
          else a.timestamp == one.seenAt && b.timestamp == two.seenAt)
  }

  lemma LatestAgree(one: Arm, two: Arm, published: seq<FairValueUpdate>)
    requires Latest(one, published) && Latest(two, published) && one.bound > 0 && two.bound > 0
    requires published != [] && one.pending == [] && two.pending == []
    ensures var newest := published[|published| - 1];
            EndsWith(one.drained, newest) && EndsWith(two.drained, newest) && Agree(one, two, newest)
  {
  }

  /** With room for at least one update, once both have drained they have last seen
      the newest publication, and what both still store agrees. */
  lemma SizersAgree(one: nat, two: nat, events: seq<Event>)
    requires one > 0 && two > 0
    requires var d := Run(one, two, events); d.published != [] && d.one.pending == [] && d.two.pending == []
    ensures var d := Run(one, two, events);
            var newest := d.published[|d.published| - 1];
            EndsWith(d.one.drained, newest) && EndsWith(d.two.drained, newest) && Agree(d.one, d.two, newest)
  {
    var d := Run(one, two, events);
    RunTracks(one, two, events);
    LatestAgree(d.one, d.two, d.published);
  }

  predicate Nothing(arm: Arm) { arm.bound == 0 && arm.pending == [] && arm.drained == [] && arm.stored.None? }

  lemma NoRoomStep(d: Desk, e: Event)
    requires Fits(d)
    ensures Nothing(d.one) ==> Nothing(Step(d, e).one)
    ensures Nothing(d.two) ==> Nothing(Step(d, e).two)
  {
  }

  /** A queue bounded at nothing never passes anything on. */
  lemma {:induction false} NoRoomNoUpdates(one: nat, two: nat, events: seq<Event>)
    ensures one == 0 ==> Nothing(Run(one, two, events).one)
    ensures two == 0 ==> Nothing(Run(one, two, events).two)
  {
    if events != [] {
      NoRoomNoUpdates(one, two, events[..|events| - 1]);
      NoRoomStep(Run(one, two, events[..|events| - 1]), events[|events| - 1]);
    }
  }

  predicate NeverForgets(events: seq<Event>, first: bool) {
    forall i :: 0 <= i < |events| ==> events[i] != Forget(first)
  }

  predicate Stores(arm: Arm) { arm.stored.Some? <==> arm.drained != [] }

  lemma StepStores(d: Desk, e: Event)
    requires Fits(d)
    ensures Stores(d.one) && e != Forget(true) ==> Stores(Step(d, e).one)
    ensures Stores(d.two) && e != Forget(false) ==> Stores(Step(d, e).two)
  {
  }

  /** Storing is only undone by forgetting: a sizer that never forgot stores the
      last update it drained. */
  lemma {:induction false} StoredUnlessForgotten(one: nat, two: nat, events: seq<Event>)
    ensures NeverForgets(events, true) ==> Stores(Run(one, two, events).one)
    ensures NeverForgets(events, false) ==> Stores(Run(one, two, events).two)
  {
    if events != [] {
      StoredUnlessForgotten(one, two, events[..|events| - 1]);
      StepStores(Run(one, two, events[..|events| - 1]), events[|events| - 1]);
    }
  }

  /** Forgetting is one-sided: after the same update, one sizer can store it and
      the other nothing. */
  lemma ForgettingDisagrees(update: FairValueUpdate)
    ensures var d := Run(1, 1, [Publish(update), Drain(true, 0), Drain(false, 0), Forget(true)]);
            d.one.pending == [] == d.two.pending && d.one.stored.None? && d.two.stored == Some(StoredFrom(update, 0))
  {
    var e := [Publish(update), Drain(true, 0), Drain(false, 0), Forget(true)];
    assert e[..3] == [Publish(update), Drain(true, 0), Drain(false, 0)];
    assert e[..3][..2] == [Publish(update), Drain(true, 0)];
    assert e[..3][..2][..1] == [Publish(update)];
    assert e[..3][..2][..1][..0] == [];
    assert Run(1, 1, [Publish(update)]) == Step(Run(1, 1, []), Publish(update));
    assert Run(1, 1, e[..3][..2]) == Step(Run(1, 1, [Publish(update)]), Drain(true, 0));
    assert Run(1, 1, e[..3]) == Step(Run(1, 1, e[..3][..2]), Drain(false, 0));
  }
}
