/** That the analyst's pacing (arena/live/analyst.py) holds back nothing it need not: a
    block is served exactly when the threshold, the circuit and the interval allow it,
    and what it spends is what its calls cost. */
module PacingRules {
  import opened Wrappers
  import opened Reals
  import opened Pacing

  // ------------------------------------------------------------------- delays

  predicate Backs(kind: FailureKind) { kind.Authentication? || kind.Credit? || kind.RateLimit? }

  function First(policy: Policy, kind: FailureKind): real {
    if kind.RateLimit? then policy.rateLimitBase else policy.nonRetryableBase
  }

  function Most(policy: Policy, kind: FailureKind): real {
    if kind.RateLimit? then policy.rateLimitMax else policy.nonRetryableMax
  }

  /** A refused key, a spent credit and a rate limit wait their base, and twice as long
      with every further failure up to their maximum; other failures do not wait. */
  lemma DelaysDouble(policy: Policy, kind: FailureKind, failures: nat)
    requires failures > 0 && Most(policy, kind) >= 0.0
    ensures !Backs(kind) ==> Delay(policy, kind, failures) == 0.0
    ensures Backs(kind) ==> Delay(policy, kind, 1) == Min(Most(policy, kind), First(policy, kind))
    ensures Backs(kind) ==>
              Delay(policy, kind, failures + 1) == Min(Most(policy, kind), 2.0 * Delay(policy, kind, failures))
  {
    TwiceTimes(First(policy, kind), Pow2(failures - 1));
    TimesCommutes(First(policy, kind), 1.0);
    TimesSmall(First(policy, kind));
  }

  lemma TwiceTimes(x: real, y: real)
    ensures Times(x, 2.0 * y) == 2.0 * Times(x, y)
  {
  }

  lemma DefaultDelays(kind: FailureKind)
    ensures First(DEFAULT_POLICY, kind) == if kind.RateLimit? then 30.0 else 60.0
    ensures Most(DEFAULT_POLICY, kind) == if kind.RateLimit? then 300.0 else 900.0
  {
  }

  // -------------------------------------------------------------------- turns

  predicate Hurried(config: Config, lastCall: real, now: real) {
    lastCall != 0.0 && now < lastCall + config.minInterval
  }

  /** A turn makes its call unless the interval is still running, and the block goes
      on unless it is, or the call failed. */
  lemma TurnExactly(config: Config, s: State, t: Turn)
    ensures var after := TakeTurn(config, Loop(s, false), t);
            if Hurried(config, s.lastCall, t.checkAt) then after.stopped && after.s.attempts == s.attempts
            else if t.call.None? then !after.stopped && after.s.attempts == s.attempts
            else
              && after.stopped == t.call.value.failure.Some?
              && after.s.attempts == s.attempts + [Attempt(t.call.value, s.circuit.retryAt)]
    ensures TakeTurn(config, Loop(s, true), t) == Loop(s, true)
  {
  }

  /** What a block needs to be looked at: it is not the first, the spend is below the
      threshold where there is one, and no backoff is running. */
  predicate Open(config: Config, s: State, b: Block) {
    && s.observed
    && (config.budget.Some? ==> s.spent < config.budget.value)
    && s.circuit.retryAt <= b.gateAt
  }

  lemma BlockExactly(config: Config, s: State, b: Block)
    ensures Open(config, s, b) ==>
              TakeBlock(config, s, b) == TakeTurns(config, s.(clock := b.gateAt), b.turns, |b.turns|).s
    ensures !Open(config, s, b) ==>
              TakeBlock(config, s, b).(clock := s.clock, observed := true) == s.(observed := true)
  {
  }

  // ------------------------------------------------------------ whole blocks

  function Calls(turns: seq<Turn>, n: nat): seq<Call>
    requires n <= |turns|
  {
    if n == 0 then []
    else Calls(turns, n - 1) + (if turns[n - 1].call.Some? then [turns[n - 1].call.value] else [])
  }

  function Made(attempts: seq<Attempt>): (calls: seq<Call>)
    ensures |calls| == |attempts|
  {
    seq(|attempts|, i requires 0 <= i < |attempts| => attempts[i].call)
  }

  /** Every turn comes an interval after the last call and after those before it, and
      none of them fails. */
  predicate Leisurely(config: Config, s: State, turns: seq<Turn>) {
    && (forall j :: 0 <= j < |turns| ==> !Hurried(config, s.lastCall, turns[j].checkAt))
    && (forall j :: 0 <= j < |turns| && turns[j].call.Some? ==> turns[j].call.value.failure.None?)
    && (forall i, j :: 0 <= i < j < |turns| && turns[i].call.Some? ==>
          turns[i].call.value.startAt + config.minInterval <= turns[j].checkAt)
  }

  lemma {:induction false} LeisurelyTurnsAreServed(config: Config, s: State, turns: seq<Turn>, n: nat)
    requires n <= |turns| && Leisurely(config, s, turns)
    ensures var l := TakeTurns(config, s, turns, n);
            && !l.stopped && Made(l.s.attempts) == Made(s.attempts) + Calls(turns, n)
            && (|| l.s.lastCall == s.lastCall
                || exists i :: 0 <= i < n && turns[i].call.Some? && l.s.lastCall == turns[i].call.value.startAt)
  {
    if n > 0 {
      var l := TakeTurns(config, s, turns, n - 1);
      LeisurelyTurnsAreServed(config, s, turns, n - 1);
      assert !Hurried(config, l.s.lastCall, turns[n - 1].checkAt);
      TurnExactly(config, l.s, turns[n - 1]);
      assert l == Loop(l.s, false);
      if turns[n - 1].call.Some? {
        MadeOneMore(l.s.attempts, Attempt(turns[n - 1].call.value, l.s.circuit.retryAt));
      }
    }
  }

  lemma MadeOneMore(attempts: seq<Attempt>, more: Attempt)
    ensures Made(attempts + [more]) == Made(attempts) + [more.call]
  {
  }

  /** Where nothing stands in the way every market of the block is analysed: an open
      block with leisurely turns makes exactly its calls, in order. */
  lemma OpenBlocksAreServed(config: Config, s: State, b: Block)
    requires Open(config, s, b) && Leisurely(config, s, b.turns)
    ensures Made(TakeBlock(config, s, b).attempts) == Made(s.attempts) + Calls(b.turns, |b.turns|)
  {
    BlockExactly(config, s, b);
    LeisurelyTurnsAreServed(config, s.(clock := b.gateAt), b.turns, |b.turns|);
  }

  // ------------------------------------------------------------------- spend

  function Costs(attempts: seq<Attempt>): real {
    if attempts == [] then 0.0 else Costs(attempts[..|attempts| - 1]) + attempts[|attempts| - 1].call.cost
  }

  predicate Charged(s: State, start: real) { s.spent == start + Costs(s.attempts) }

  lemma TurnIsCharged(config: Config, l: Loop, t: Turn, start: real)
    requires Charged(l.s, start)
    ensures Charged(TakeTurn(config, l, t).s, start)
  {
    if t.call.Some? {
      var attempt := Attempt(t.call.value, l.s.circuit.retryAt);
      assert (l.s.attempts + [attempt])[..|l.s.attempts|] == l.s.attempts;
    }
  }

  lemma {:induction false} TurnsAreCharged(config: Config, s: State, turns: seq<Turn>, n: nat, start: real)
    requires n <= |turns| && Charged(s, start)
    ensures Charged(TakeTurns(config, s, turns, n).s, start)
  {
    if n > 0 {
      TurnsAreCharged(config, s, turns, n - 1, start);
      TurnIsCharged(config, TakeTurns(config, s, turns, n - 1), turns[n - 1], start);
    }
  }

  /** Over every run the spend is what was restored plus what all calls cost, refused
      answers included: nothing is charged twice and nothing is forgotten. */
  lemma {:induction false} SpendIsCosts(config: Config, start: Start, blocks: seq<Block>)
    ensures Charged(Run(config, start, blocks), start.spent)
  {
    if blocks != [] {
      var s, b := Run(config, start, blocks[..|blocks| - 1]), blocks[|blocks| - 1];
      SpendIsCosts(config, start, blocks[..|blocks| - 1]);
      BlockExactly(config, s, b);
      TurnsAreCharged(config, s.(clock := b.gateAt), b.turns, |b.turns|, start.spent);
    }
  }
}
