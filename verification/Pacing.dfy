/** How the analyst paces its LLM calls (arena/live/analyst.py) and the provider
    circuit behind it (arena/live/provider_health.py). Clock readings, costs and
    call outcomes are inputs; both read one clock. */
module Pacing {
  import opened Wrappers
  import opened Reals

  datatype FailureKind = Authentication | Credit | RateLimit | Timeout | Upstream | Contract | Other

  datatype Policy = Policy(nonRetryableBase: real, nonRetryableMax: real, rateLimitBase: real, rateLimitMax: real)

  const DEFAULT_POLICY := Policy(60.0, 900.0, 30.0, 300.0)

  /** The backoff after the given number of failures in a row, this one included. */
  function Delay(policy: Policy, kind: FailureKind, failures: nat): real
    requires failures > 0
  {
    match kind
    case Authentication => Min(policy.nonRetryableMax, Times(policy.nonRetryableBase, Pow2(failures - 1)))
    case Credit => Min(policy.nonRetryableMax, Times(policy.nonRetryableBase, Pow2(failures - 1)))
    case RateLimit => Min(policy.rateLimitMax, Times(policy.rateLimitBase, Pow2(failures - 1)))
    case Timeout => 0.0
    case Upstream => 0.0
    case Contract => 0.0
    case Other => 0.0
  }

  datatype Circuit = Circuit(failures: nat, lastKind: Option<FailureKind>, retryAt: real)

  function Failed(policy: Policy, c: Circuit, kind: FailureKind, now: real): Circuit {
    Circuit(c.failures + 1, Some(kind), now + Delay(policy, kind, c.failures + 1))
  }

  const CLOSED := Circuit(0, None, 0.0)

  class ProviderCircuit {
    const policy: Policy
    var consecutiveFailures: nat
    var lastFailureKind: Option<FailureKind>
    var retryAt: real

    constructor (policy: Policy)
      ensures this.policy == policy && State() == CLOSED
    {
      this.policy := policy;
      consecutiveFailures, lastFailureKind, retryAt := 0, None, 0.0;
    }

    function State(): Circuit
      reads this
    {
      Circuit(consecutiveFailures, lastFailureKind, retryAt)
    }

    predicate CanAttempt(now: real)
      reads this
    {
      now >= retryAt
    }

    method RecordFailure(kind: FailureKind, now: real) returns (delay: real)
      modifies this
      ensures State() == Failed(policy, old(State()), kind, now)
      ensures delay == Delay(policy, kind, consecutiveFailures)
    {
      consecutiveFailures := consecutiveFailures + 1;
      lastFailureKind := Some(kind);
      delay := Delay(policy, kind, consecutiveFailures);
      retryAt := now + delay;
    }

    method RecordSuccess()
      modifies this
      ensures State() == CLOSED
    {
      consecutiveFailures, lastFailureKind, retryAt := 0, None, 0.0;
    }
  }

  // ---------------------------------------------------------------- the blocks

  /** One LLM call: it is charged even when the answer is then refused. */
  datatype Call = Call(startAt: real, endAt: real, cost: real, failure: Option<FailureKind>)

  /** One market's turn: when the interval is checked, and the call it leads to
      unless the market has nothing to analyse. */
  datatype Turn = Turn(checkAt: real, call: Option<Call>)

  datatype Block = Block(gateAt: real, turns: seq<Turn>)

  datatype Config = Config(policy: Policy, minInterval: real, budget: Option<real>)

  /** A call made, with the moment before which the circuit forbade one. */
  datatype Attempt = Attempt(call: Call, retryAt: real)

  /** The analyst; `clock` is the latest reading and `attempts` all calls so far. */
  datatype State = State(observed: bool, spent: real, lastCall: real, circuit: Circuit, clock: real,
                         attempts: seq<Attempt>)

  predicate Exhausted(config: Config, spent: real) { config.budget.Some? && config.budget.value - spent <= 0.0 }

  predicate TooSoon(config: Config, lastCall: real, now: real) {
    lastCall != 0.0 && now - lastCall < config.minInterval
  }

  function Called(config: Config, s: State, call: Call): State {
    State(s.observed, s.spent + call.cost, call.startAt,
          if call.failure.Some? then Failed(config.policy, s.circuit, call.failure.value, call.endAt) else CLOSED,
          call.endAt, s.attempts + [Attempt(call, s.circuit.retryAt)])
  }

  datatype Loop = Loop(s: State, stopped: bool)

  function TakeTurn(config: Config, l: Loop, t: Turn): Loop {
    if l.stopped then l
    else if TooSoon(config, l.s.lastCall, t.checkAt) then Loop(l.s.(clock := t.checkAt), true)
    else if t.call.None? then Loop(l.s.(clock := t.checkAt), false)
    else Loop(Called(config, l.s, t.call.value), t.call.value.failure.Some?)
  }

  function TakeTurns(config: Config, s: State, turns: seq<Turn>, n: nat): Loop
    requires n <= |turns|
  {
    if n == 0 then Loop(s, false) else TakeTurn(config, TakeTurns(config, s, turns, n - 1), turns[n - 1])
  }

  function TakeBlock(config: Config, s: State, b: Block): State {
    if !s.observed then s.(observed := true)
    else if Exhausted(config, s.spent) then s
    else if b.gateAt < s.circuit.retryAt then s.(clock := b.gateAt)
    else TakeTurns(config, s.(clock := b.gateAt), b.turns, |b.turns|).s
  }

  /** Clock readings never go back, and calls cost something or nothing. */
  predicate TurnOk(clock: real, t: Turn) {
    && t.checkAt >= clock
    && (t.call.Some? ==> t.call.value.endAt >= t.call.value.startAt >= t.checkAt && t.call.value.cost >= 0.0)
  }

  predicate TurnsOk(config: Config, s: State, turns: seq<Turn>) {
    forall n :: 0 <= n < |turns| ==>
      var l := TakeTurns(config, s, turns, n); l.stopped || TurnOk(l.s.clock, turns[n])
  }

  predicate BlockOk(config: Config, s: State, b: Block) {
    b.gateAt >= s.clock && TurnsOk(config, s.(clock := b.gateAt), b.turns)
  }

  /** The clock at the start, and the spend restored from the database. */
  datatype Start = Start(clock: real, spent: real)

  function Run(config: Config, start: Start, blocks: seq<Block>): State {
    if blocks == [] then State(false, start.spent, 0.0, CLOSED, start.clock, [])
    else TakeBlock(config, Run(config, start, blocks[..|blocks| - 1]), blocks[|blocks| - 1])
  }

  predicate LegalRun(config: Config, start: Start, blocks: seq<Block>) {
    blocks == [] ||
    (LegalRun(config, start, blocks[..|blocks| - 1])
     && BlockOk(config, Run(config, start, blocks[..|blocks| - 1]), blocks[|blocks| - 1]))
  }

  // ------------------------------------------------------------- the invariant

  /** How many of the first `n` attempts failed in a row at the end. */
  function Trailing(attempts: seq<Attempt>, n: nat): nat
    requires n <= |attempts|
  {
    if n == 0 || attempts[n - 1].call.failure.None? then 0 else 1 + Trailing(attempts, n - 1)
  }

  /** Before when the circuit allows no call after the first `n` attempts. */
  function RetryAfter(policy: Policy, attempts: seq<Attempt>, n: nat): real
    requires n <= |attempts|
  {
    if n == 0 || attempts[n - 1].call.failure.None? then 0.0
    else attempts[n - 1].call.endAt + Delay(policy, attempts[n - 1].call.failure.value, Trailing(attempts, n))
  }

  /** Apart by the interval, unless the earlier one started at clock zero, which
      the source takes for never. */
  predicate Spaced(minInterval: real, earlier: Call, later: Call) {
    && later.startAt >= earlier.endAt
    && (earlier.startAt != 0.0 ==> later.startAt - earlier.startAt >= minInterval)
  }

  predicate AllSpaced(config: Config, attempts: seq<Attempt>) {
    forall i :: 0 < i < |attempts| ==> Spaced(config.minInterval, attempts[i - 1].call, attempts[i].call)
  }

  predicate AllAllowed(config: Config, attempts: seq<Attempt>) {
    forall i :: 0 <= i < |attempts| ==>
      attempts[i].retryAt == RetryAfter(config.policy, attempts, i) && attempts[i].call.startAt >= attempts[i].retryAt
  }

  /** The circuit and the interval mark are those of the attempts so far. */
  predicate Linked(config: Config, s: State) {
    && s.circuit.failures == Trailing(s.attempts, |s.attempts|)
    && s.circuit.retryAt == RetryAfter(config.policy, s.attempts, |s.attempts|)
    && s.lastCall == (if s.attempts == [] then 0.0 else s.attempts[|s.attempts| - 1].call.startAt)
    && (s.attempts != [] ==> s.clock >= s.attempts[|s.attempts| - 1].call.endAt)
  }

  predicate Good(config: Config, s: State) {
    AllSpaced(config, s.attempts) && AllAllowed(config, s.attempts) && Linked(config, s)
  }

  lemma {:induction false} TrailingPrefix(attempts: seq<Attempt>, more: Attempt, n: nat)
    requires n <= |attempts|
    ensures Trailing(attempts + [more], n) == Trailing(attempts, n)
  {
    if n > 0 {
      TrailingPrefix(attempts, more, n - 1);
    }
  }

  lemma RetryPrefix(policy: Policy, attempts: seq<Attempt>, more: Attempt, n: nat)
    requires n <= |attempts|
    ensures RetryAfter(policy, attempts + [more], n) == RetryAfter(policy, attempts, n)
  {
    TrailingPrefix(attempts, more, n);
  }

  lemma CallIsAllowed(config: Config, s: State, call: Call)
    requires AllAllowed(config, s.attempts) && Linked(config, s) && call.startAt >= s.circuit.retryAt
    ensures AllAllowed(config, Called(config, s, call).attempts)
  {
    var attempt := Attempt(call, s.circuit.retryAt);
    var after := s.attempts + [attempt];
    forall i | 0 <= i < |after|
      ensures after[i].retryAt == RetryAfter(config.policy, after, i) && after[i].call.startAt >= after[i].retryAt
    {
      RetryPrefix(config.policy, s.attempts, attempt, i);
    }
  }

  lemma CallIsSpaced(config: Config, s: State, t: Turn)
    requires AllSpaced(config, s.attempts) && Linked(config, s)
    requires TurnOk(s.clock, t) && t.call.Some? && !TooSoon(config, s.lastCall, t.checkAt)
    ensures AllSpaced(config, Called(config, s, t.call.value).attempts)
  {
  }

  lemma CallStaysLinked(config: Config, s: State, call: Call)
    requires Linked(config, s)
    ensures Linked(config, Called(config, s, call))
  {
    TrailingPrefix(s.attempts, Attempt(call, s.circuit.retryAt), |s.attempts|);
  }

  lemma CallKeepsGood(config: Config, s: State, t: Turn)
    requires Good(config, s) && TurnOk(s.clock, t) && s.clock >= s.circuit.retryAt
    requires t.call.Some? && !TooSoon(config, s.lastCall, t.checkAt)
    ensures Good(config, Called(config, s, t.call.value))
  {
    CallIsAllowed(config, s, t.call.value);
    CallIsSpaced(config, s, t);
    CallStaysLinked(config, s, t.call.value);
  }

  lemma WithoutCall(config: Config, s: State, after: State)
    requires Good(config, s) && after.clock >= s.clock
    requires after.attempts == s.attempts && after.circuit == s.circuit && after.lastCall == s.lastCall
    ensures Good(config, after)
  {
  }

  lemma TurnKeepsGood(config: Config, l: Loop, t: Turn)
    requires Good(config, l.s) && (l.stopped || (TurnOk(l.s.clock, t) && l.s.clock >= l.s.circuit.retryAt))
    requires l.s.clock >= 0.0
    ensures var after := TakeTurn(config, l, t);
            && Good(config, after.s) && after.s.clock >= l.s.clock
            && (!after.stopped ==> after.s.clock >= after.s.circuit.retryAt)
  {
    if !l.stopped {
      if TooSoon(config, l.s.lastCall, t.checkAt) || t.call.None? {
        WithoutCall(config, l.s, l.s.(clock := t.checkAt));
      } else {
        CallKeepsGood(config, l.s, t);
      }
    }
  }

  /** While a block's loop goes on, no backoff is running. */
  lemma {:induction false} TurnsKeepGood(config: Config, s: State, turns: seq<Turn>, n: nat)
    requires Good(config, s) && TurnsOk(config, s, turns) && n <= |turns|
    requires s.clock >= s.circuit.retryAt && s.clock >= 0.0
    ensures var l := TakeTurns(config, s, turns, n);
            Good(config, l.s) && l.s.clock >= s.clock && (!l.stopped ==> l.s.clock >= l.s.circuit.retryAt)
  {
    if n > 0 {
      TurnsKeepGood(config, s, turns, n - 1);
      TurnKeepsGood(config, TakeTurns(config, s, turns, n - 1), turns[n - 1]);
    }
  }

  lemma TurnOnlySpends(config: Config, l: Loop, t: Turn)
    requires l.stopped || TurnOk(l.s.clock, t)
    ensures TakeTurn(config, l, t).s.spent >= l.s.spent && TakeTurn(config, l, t).s.observed == l.s.observed
  {
  }

  lemma {:induction false} TurnsOnlySpend(config: Config, s: State, turns: seq<Turn>, n: nat)
    requires TurnsOk(config, s, turns) && n <= |turns|
    ensures var l := TakeTurns(config, s, turns, n); l.s.spent >= s.spent && l.s.observed == s.observed
  {
    if n > 0 {
      TurnsOnlySpend(config, s, turns, n - 1);
      TurnOnlySpends(config, TakeTurns(config, s, turns, n - 1), turns[n - 1]);
    }
  }

  lemma {:induction false} RunsAreGood(config: Config, start: Start, blocks: seq<Block>)
    requires LegalRun(config, start, blocks) && start.clock >= 0.0
    ensures Good(config, Run(config, start, blocks)) && Run(config, start, blocks).clock >= 0.0
    ensures Run(config, start, blocks).spent >= start.spent
  {
    if blocks != [] {
      var s, b := Run(config, start, blocks[..|blocks| - 1]), blocks[|blocks| - 1];
      RunsAreGood(config, start, blocks[..|blocks| - 1]);
      BlockKeepsGood(config, s, b);
    }
  }

  lemma BlockKeepsGood(config: Config, s: State, b: Block)
    requires Good(config, s) && s.clock >= 0.0 && BlockOk(config, s, b)
    ensures var after := TakeBlock(config, s, b); Good(config, after) && after.clock >= 0.0 && after.spent >= s.spent
  {
    var gated := s.(clock := b.gateAt);
    if s.observed && !Exhausted(config, s.spent) && b.gateAt >= s.circuit.retryAt {
      WithoutCall(config, s, gated);
      TurnsKeepGood(config, gated, b.turns, |b.turns|);
      TurnsOnlySpend(config, gated, b.turns, |b.turns|);
    } else {
      WithoutCall(config, s, TakeBlock(config, s, b));
    }
  }

  // ---------------------------------------------------------- the main results

  /** Consecutive attempts of a run are at least the interval apart, and none
      starts inside a backoff. */
  lemma AttemptsArePaced(config: Config, start: Start, blocks: seq<Block>, i: nat)
    requires LegalRun(config, start, blocks) && start.clock >= 0.0
    requires i < |Run(config, start, blocks).attempts|
    ensures var attempts := Run(config, start, blocks).attempts;
            && attempts[i].call.startAt >= RetryAfter(config.policy, attempts, i)
            && (i > 0 && attempts[i - 1].call.startAt != 0.0 ==>
                  attempts[i].call.startAt - attempts[i - 1].call.startAt >= config.minInterval)
  {
    RunsAreGood(config, start, blocks);
    var attempts := Run(config, start, blocks).attempts;
    if i > 0 {
      assert Spaced(config.minInterval, attempts[i - 1].call, attempts[i].call);
    }
  }

  predicate RateLimited(a: Attempt) { a.call.failure == Some(RateLimit) }

  lemma {:induction false} TrailingAtLeast(attempts: seq<Attempt>, n: nat, k: nat)
    requires k <= n <= |attempts|
    requires forall j :: n - k <= j < n ==> attempts[j].call.failure.Some?
    ensures Trailing(attempts, n) >= k
  {
    if k > 0 {
      TrailingAtLeast(attempts, n - 1, k - 1);
    }
  }

  lemma {:induction false} Pow2Grows(m: nat, n: nat)
    requires m <= n
    ensures Pow2(m) <= Pow2(n)
  {
    if m < n {
      Pow2Grows(m, n - 1);
    }
  }

  lemma DelayGrows(policy: Policy, k: nat, failures: nat)
    requires 1 <= k <= failures && policy.rateLimitBase >= 0.0
    ensures Delay(policy, RateLimit, failures) >= Delay(policy, RateLimit, k)
  {
    Pow2Grows(k - 1, failures - 1);
    MulLe(Pow2(k - 1), Pow2(failures - 1), policy.rateLimitBase);
    assert Times(policy.rateLimitBase, Pow2(k - 1)) <= Times(policy.rateLimitBase, Pow2(failures - 1));
  }

  /** After `k` rate-limit failures in a row, the next attempt waits at least
      min(max, base * 2^(k-1)) from the end of the last one. */
  lemma RateLimitsBackOff(config: Config, start: Start, blocks: seq<Block>, i: nat, k: nat)
    requires LegalRun(config, start, blocks) && start.clock >= 0.0 && config.policy.rateLimitBase >= 0.0
    requires 1 <= k <= i < |Run(config, start, blocks).attempts|
    requires forall j :: i - k <= j < i ==> RateLimited(Run(config, start, blocks).attempts[j])
    ensures var attempts := Run(config, start, blocks).attempts;
            attempts[i].call.startAt - attempts[i - 1].call.endAt
              >= Min(config.policy.rateLimitMax, Times(config.policy.rateLimitBase, Pow2(k - 1)))
  {
    var attempts := Run(config, start, blocks).attempts;
    AttemptsArePaced(config, start, blocks, i);
    TrailingAtLeast(attempts, i, k);
    DelayGrows(config.policy, k, Trailing(attempts, i));
    assert RateLimited(attempts[i - 1]);
  }

  /** The default policy: 30, 60, 120, 240 and from then on 300 seconds. */
  lemma DefaultRateLimitDelays(k: nat)
    requires k >= 1
    ensures Delay(DEFAULT_POLICY, RateLimit, k)
         == if k == 1 then 30.0 else if k == 2 then 60.0 else if k == 3 then 120.0 else if k == 4 then 240.0 else 300.0
  {
    if k > 4 {
      Pow2Grows(4, k - 1);
    }
    assert Pow2(4) == 2.0 * Pow2(3) && Pow2(3) == 2.0 * Pow2(2) && Pow2(2) == 2.0 * Pow2(1) && Pow2(1) == 2.0 * Pow2(0);
  }

  /** Once a block starts with the spend at or over the threshold, no attempt is
      ever made again. */
  lemma {:induction false} PausedForGood(config: Config, start: Start, blocks: seq<Block>, n: nat)
    requires n <= |blocks| && Exhausted(config, Run(config, start, blocks[..n]).spent)
    ensures Run(config, start, blocks).attempts == Run(config, start, blocks[..n]).attempts
    ensures Run(config, start, blocks).spent == Run(config, start, blocks[..n]).spent
    decreases |blocks|
  {
    if n < |blocks| {
      var before := blocks[..|blocks| - 1];
      assert before[..n] == blocks[..n];
      PausedForGood(config, start, before, n);
    } else {
      assert blocks[..n] == blocks;
    }
  }

  // ------------------------------------------- the exception in the interval

  /** Everything since a clock reading. */
  predicate Since(s: State, clock: real) {
    && s.clock >= clock
    && forall i :: 0 <= i < |s.attempts| ==> clock <= s.attempts[i].call.startAt <= s.attempts[i].call.endAt
  }

  lemma {:induction false} TurnsSince(config: Config, s: State, turns: seq<Turn>, n: nat, clock: real)
    requires Since(s, clock) && TurnsOk(config, s, turns) && n <= |turns|
    ensures Since(TakeTurns(config, s, turns, n).s, clock)
  {
    if n > 0 {
      TurnsSince(config, s, turns, n - 1, clock);
      TurnSince(config, TakeTurns(config, s, turns, n - 1), turns[n - 1], clock);
    }
  }

  lemma TurnSince(config: Config, l: Loop, t: Turn, clock: real)
    requires Since(l.s, clock) && (l.stopped || TurnOk(l.s.clock, t))
    ensures Since(TakeTurn(config, l, t).s, clock)
  {
  }

  lemma {:induction false} RunSince(config: Config, start: Start, blocks: seq<Block>)
    requires LegalRun(config, start, blocks)
    ensures Since(Run(config, start, blocks), start.clock)
  {
    if blocks != [] {
      var s, b := Run(config, start, blocks[..|blocks| - 1]), blocks[|blocks| - 1];
      RunSince(config, start, blocks[..|blocks| - 1]);
      if s.observed && !Exhausted(config, s.spent) && b.gateAt >= s.circuit.retryAt {
        TurnsSince(config, s.(clock := b.gateAt), b.turns, |b.turns|, start.clock);
      }
    }
  }

  /** Every two attempts in a row at least the interval apart, without exception. */
  predicate Paced(config: Config, attempts: seq<Attempt>) {
    forall i :: 0 < i < |attempts| ==> attempts[i].call.startAt - attempts[i - 1].call.startAt >= config.minInterval
  }

  lemma PacedUnlessZero(config: Config, start: Start, blocks: seq<Block>)
    requires LegalRun(config, start, blocks) && start.clock >= 0.0
    requires start.clock > 0.0 || config.minInterval <= 0.0 || Exhausted(config, start.spent)
    ensures Paced(config, Run(config, start, blocks).attempts)
  {
    RunsAreGood(config, start, blocks);
    RunSince(config, start, blocks);
    if Exhausted(config, start.spent) {
      PausedForGood(config, start, blocks, 0);
    }
    var attempts := Run(config, start, blocks).attempts;
    forall i | 0 < i < |attempts|
      ensures attempts[i].call.startAt - attempts[i - 1].call.startAt >= config.minInterval
    {
      assert Spaced(config.minInterval, attempts[i - 1].call, attempts[i].call);
    }
  }

  /** A block that only arms the analyst, then two calls: one started at clock zero
      and one before the interval has passed. */
  function ZeroTurns(half: real): seq<Turn> {
    [Turn(0.0, Some(Call(0.0, 0.0, 0.0, None))), Turn(half, Some(Call(half, half, 0.0, None)))]
  }

  function ZeroBlocks(half: real): seq<Block> { [Block(0.0, []), Block(0.0, ZeroTurns(half))] }

  /** The source takes a call started at clock zero for none at all, so it does not
      hold back the next one. */
  lemma ZeroReadingIsNotSpaced(config: Config, spent: real, half: real)
    requires !Exhausted(config, spent) && 0.0 < half < config.minInterval
    ensures var run := Run(config, Start(0.0, spent), ZeroBlocks(half));
            LegalRun(config, Start(0.0, spent), ZeroBlocks(half)) && !Paced(config, run.attempts)
  {
    var start, blocks, turns := Start(0.0, spent), ZeroBlocks(half), ZeroTurns(half);
    var first := [Block(0.0, [])];
    assert blocks == first + [Block(0.0, turns)];
    assert blocks[..1] == first && first[..0] == [];
    var s := State(true, spent, 0.0, CLOSED, 0.0, []);
    assert Run(config, start, blocks[..1]) == s;
    assert LegalRun(config, start, first) by {
      assert LegalRun(config, start, first[..0]) && BlockOk(config, Run(config, start, first[..0]), first[0]);
    }
    ZeroTurnsCall(config, s, half);
  }

  lemma ZeroTurnsCall(config: Config, s: State, half: real)
    requires s.lastCall == 0.0 == s.clock && s.attempts == [] && half > 0.0
    ensures TurnsOk(config, s, ZeroTurns(half))
    ensures var attempts := TakeTurns(config, s, ZeroTurns(half), 2).s.attempts;
            |attempts| == 2 && attempts[0].call.startAt == 0.0 && attempts[1].call.startAt == half
  {
    var turns := ZeroTurns(half);
    assert TakeTurns(config, s, turns, 0) == Loop(s, false);
    assert TakeTurns(config, s, turns, 1) == TakeTurn(config, Loop(s, false), turns[0]);
    assert TakeTurns(config, s, turns, 2) == TakeTurn(config, TakeTurns(config, s, turns, 1), turns[1]);
  }

  /** Over every legal run, the interval is kept without exception exactly when the
      clock did not start at zero, there is no interval, or nothing may be spent. */
  lemma PacedExactly(config: Config, start: Start)
    requires start.clock >= 0.0
    ensures (forall blocks :: LegalRun(config, start, blocks) ==> Paced(config, Run(config, start, blocks).attempts))
       <==> start.clock > 0.0 || config.minInterval <= 0.0 || Exhausted(config, start.spent)
  {
    if start.clock > 0.0 || config.minInterval <= 0.0 || Exhausted(config, start.spent) {
      forall blocks | LegalRun(config, start, blocks)
        ensures Paced(config, Run(config, start, blocks).attempts)
      {
        PacedUnlessZero(config, start, blocks);
      }
    } else {
      ZeroReadingIsNotSpaced(config, start.spent, config.minInterval / 2.0);
    }
  }

  // -------------------------------------------------------------- the analyst

  lemma {:induction false} StoppedStays(config: Config, s: State, turns: seq<Turn>, n: nat, m: nat)
    requires n <= m <= |turns| && TakeTurns(config, s, turns, n).stopped
    ensures TakeTurns(config, s, turns, m) == TakeTurns(config, s, turns, n)
  {
    if n < m {
      StoppedStays(config, s, turns, n, m - 1);
    }
  }

  /** The fields of the analyst that pace it. `attempts` and `clock` only record. */
  class Analyst {
    const config: Config
    const provider: ProviderCircuit
    var observedFirstBlock: bool
    var spent: real
    var lastCall: real
    var attempts: seq<Attempt>
    var clock: real

    constructor (config: Config, start: Start)
      ensures this.config == config && provider.policy == config.policy && fresh(provider)
      ensures Now() == Run(config, start, [])
    {
      this.config := config;
      provider := new ProviderCircuit(config.policy);
      observedFirstBlock, spent, lastCall, attempts, clock := false, start.spent, 0.0, [], start.clock;
    }

    function Now(): State
      reads this, provider
    {
      State(observedFirstBlock, spent, lastCall, provider.State(), clock, attempts)
    }

    method CallProvider(call: Call) returns (failed: bool)
      requires provider.policy == config.policy
      modifies this, provider
      ensures Now() == Called(config, old(Now()), call) && failed == call.failure.Some?
    {
      attempts := attempts + [Attempt(call, provider.retryAt)];
      lastCall := call.startAt;
      spent := spent + call.cost;
      clock := call.endAt;
      failed := call.failure.Some?;
      if failed {
        var _ := provider.RecordFailure(call.failure.value, call.endAt);
      } else {
        provider.RecordSuccess();
      }
    }

    method OnBlock(b: Block)
      requires provider.policy == config.policy
      modifies this, provider
      ensures Now() == TakeBlock(config, old(Now()), b)
    {
      if !observedFirstBlock {
        observedFirstBlock := true;
        return;
      }
      if Exhausted(config, spent) {
        return;
      }
      clock := b.gateAt;
      if !provider.CanAttempt(b.gateAt) {
        return;
      }
      ghost var s := Now();
      var i := 0;
      while i < |b.turns|
        invariant 0 <= i <= |b.turns|
        invariant TakeTurns(config, s, b.turns, i) == Loop(Now(), false)
      {
        var turn := b.turns[i];
        ghost var l := Loop(Now(), false);
        assert TakeTurns(config, s, b.turns, i + 1) == TakeTurn(config, l, turn);
        clock := turn.checkAt;
        if TooSoon(config, lastCall, turn.checkAt) {
          StoppedStays(config, s, b.turns, i + 1, |b.turns|);
          break;
        }
        if turn.call.Some? {
          var failed := CallProvider(turn.call.value);
          if failed {
            StoppedStays(config, s, b.turns, i + 1, |b.turns|);
            break;
          }
        }
        i := i + 1;
      }
    }
  }
}
