/** Concurrent runs of the outcome recorder (arena/live/outcomes.py): every
    interleaving of the steps of any number of sweeps over one table. */
module Recorders {
  import opened Wrappers
  import opened Reals
  import opened Outcomes

  datatype Sweep =
    | Fetching(selected: seq<int>, exact: bool, dryRun: bool, existing: Table, fetched: Table, next: nat)
    | Ready(selected: seq<int>, existing: Table, fetched: Table)
    | Done(dryRun: bool, fetched: Table, inserted: int, alreadyRecorded: int)
    | Failed

  datatype World = World(table: Table, sweeps: map<int, Sweep>)

  /** `Abandon` stands for a stop signal, a transport error or a chain mismatch
      outside the transaction. */
  datatype Event =
    | Begin(id: int, selected: seq<int>, exact: bool, dryRun: bool)
    | Fetch(id: int, reply: Reply)
    | Check(id: int)
    | Commit(id: int, stopAt: Option<nat>)
    | Abandon(id: int)

  predicate Enabled(w: World, e: Event) {
    match e
    case Begin(id, _, _, _) => id !in w.sweeps
    case Fetch(id, _) => id in w.sweeps && w.sweeps[id].Fetching? && w.sweeps[id].next < |w.sweeps[id].selected|
    case Check(id) => id in w.sweeps && w.sweeps[id].Fetching? && w.sweeps[id].next == |w.sweeps[id].selected|
    case Commit(id, _) => id in w.sweeps && w.sweeps[id].Ready?
    case Abandon(id) => id in w.sweeps && (w.sweeps[id].Fetching? || w.sweeps[id].Ready?)
  }

  predicate NoConflict(existing: Table, fetched: Table) {
    forall m :: m in fetched && m in existing ==> Agree(existing[m], fetched[m])
  }

  function Restricted(table: Table, selected: seq<int>): Table {
    map m | m in table && m in selected :: table[m]
  }

  function BeginSweep(table: Table, selected: seq<int>, exact: bool, dryRun: bool): Sweep {
    if Cohort(selected) then Fetching(selected, exact, dryRun, Restricted(table, selected), map[], 0) else Failed
  }

  function FetchNext(s: Sweep, reply: Reply): Sweep
    requires s.Fetching? && s.next < |s.selected|
  {
    var r := Fetched(reply, s.exact);
    if r.Err? then Failed
    else if r.value.None? then s.(next := s.next + 1)
    else s.(next := s.next + 1, fetched := s.fetched[s.selected[s.next] := r.value.value])
  }

  function CheckAll(s: Sweep): Sweep
    requires s.Fetching?
  {
    var rows := NewRows(s.selected, s.fetched, s.existing);
    if !NoConflict(s.existing, s.fetched) then Failed
    else if s.dryRun then Done(true, s.fetched, |rows|, |s.fetched.Keys| - |rows|)
    else if rows == [] then Done(false, s.fetched, 0, |s.fetched.Keys|)
    else Ready(s.selected, s.existing, s.fetched)
  }

  lemma {:induction false} NewRowsAre(selected: seq<int>, fetched: Table, existing: Table)
    ensures forall m :: m in NewRows(selected, fetched, existing) <==> m in selected && m in fetched && m !in existing
    ensures forall i :: 0 <= i < |NewRows(selected, fetched, existing)| ==>
              NewRows(selected, fetched, existing)[i] in fetched
  {
    if selected != [] {
      NewRowsAre(selected[..|selected| - 1], fetched, existing);
      assert selected == selected[..|selected| - 1] + [selected[|selected| - 1]];
    }
  }

  function CommitRows(table: Table, s: Sweep, stopAt: Option<nat>): (Table, Sweep)
    requires s.Ready?
  {
    NewRowsAre(s.selected, s.fetched, s.existing);
    var r := Write(table, NewRows(s.selected, s.fetched, s.existing), s.fetched, stopAt);
    if r.Err? then (table, Failed)
    else (r.value.table, Done(false, s.fetched, r.value.inserted, |s.fetched.Keys| - r.value.inserted))
  }

  function Step(w: World, e: Event): World
    requires Enabled(w, e)
  {
    match e
    case Begin(id, selected, exact, dryRun) =>
      w.(sweeps := w.sweeps[id := BeginSweep(w.table, selected, exact, dryRun)])
    case Fetch(id, reply) => w.(sweeps := w.sweeps[id := FetchNext(w.sweeps[id], reply)])
    case Check(id) => w.(sweeps := w.sweeps[id := CheckAll(w.sweeps[id])])
    case Commit(id, stopAt) =>
      var (table, sweep) := CommitRows(w.table, w.sweeps[id], stopAt);
      World(table, w.sweeps[id := sweep])
    case Abandon(id) => w.(sweeps := w.sweeps[id := Failed])
  }

  predicate Legal(table: Table, events: seq<Event>)
    decreases |events|, 0
  {
    events == [] || (Legal(table, events[..|events| - 1])
                     && Enabled(Run(table, events[..|events| - 1]), events[|events| - 1]))
  }

  function Run(table: Table, events: seq<Event>): World
    requires Legal(table, events)
    decreases |events|, 1
  {
    if events == [] then World(table, map[]) else Step(Run(table, events[..|events| - 1]), events[|events| - 1])
  }

  // ------------------------------------------------------------- the invariant

  predicate Within(fetched: Table, selected: seq<int>) { forall m :: m in fetched ==> m in selected }

  predicate Confirmed(table: Table, fetched: Table) {
    forall m :: m in fetched ==> m in table && Agree(table[m], fetched[m])
  }

  predicate SweepOk(table: Table, s: Sweep) {
    match s
    case Fetching(selected, _, _, existing, fetched, next) => Extends(table, existing) && Within(fetched, selected)
    case Ready(selected, existing, fetched) =>
      Extends(table, existing) && Within(fetched, selected) && NoConflict(existing, fetched)
    case Done(dryRun, fetched, inserted, alreadyRecorded) =>
      inserted + alreadyRecorded == |fetched.Keys| && (!dryRun ==> Confirmed(table, fetched))
    case Failed => true
  }

  predicate Good(w: World) { forall id :: id in w.sweeps ==> SweepOk(w.table, w.sweeps[id]) }

  /** A row once committed never changes, so what a sweep knows stays true. */
  lemma SweepStaysOk(before: Table, after: Table, s: Sweep)
    requires SweepOk(before, s) && Extends(after, before)
    ensures SweepOk(after, s)
  {
  }

  lemma FetchOk(table: Table, s: Sweep, reply: Reply)
    requires s.Fetching? && s.next < |s.selected| && SweepOk(table, s)
    ensures SweepOk(table, FetchNext(s, reply))
  {
  }

  lemma CheckOk(table: Table, s: Sweep)
    requires s.Fetching? && SweepOk(table, s)
    ensures SweepOk(table, CheckAll(s))
  {
    NewRowsAre(s.selected, s.fetched, s.existing);
    var rows := NewRows(s.selected, s.fetched, s.existing);
    if NoConflict(s.existing, s.fetched) && rows == [] && !s.dryRun {
      forall m | m in s.fetched
        ensures m in table && Agree(table[m], s.fetched[m])
      {
        assert m !in rows;
      }
    }
  }

  /** What one transaction does: nothing when it fails; otherwise it keeps every
      row, adds exactly the fetched markets that were absent, and counts them. */
  lemma CommitMeaning(table: Table, s: Sweep, stopAt: Option<nat>)
    requires s.Ready? && SweepOk(table, s)
    ensures var (after, sweep) := CommitRows(table, s, stopAt);
            && SweepOk(after, sweep) && Extends(after, table)
            && (sweep.Failed? ==> after == table)
            && (sweep.Done? ==>
                  && after.Keys == table.Keys + s.fetched.Keys
                  && sweep.inserted == |s.fetched.Keys - table.Keys|
                  && sweep.alreadyRecorded == |s.fetched.Keys * table.Keys|)
  {
    NewRowsAre(s.selected, s.fetched, s.existing);
    var rows := NewRows(s.selected, s.fetched, s.existing);
    var r := Write(table, rows, s.fetched, stopAt);
    if r.Ok? {
      WriteSettles(table, rows, s.fetched, stopAt, |rows|);
      assert rows[..|rows|] == rows;
      CommitConfirms(table, s, rows, r.value);
      CommitCovers(table, s, rows, r.value);
      CountNew(table.Keys, s.fetched.Keys, r.value.table.Keys, r.value.inserted);
    }
  }

  ghost predicate NewRowsOf(s: Sweep, rows: seq<int>)
    requires s.Ready?
  {
    forall m :: m in rows <==> m in s.selected && m in s.fetched && m !in s.existing
  }

  lemma CommitCovers(table: Table, s: Sweep, rows: seq<int>, w: Written)
    requires s.Ready? && SweepOk(table, s) && NewRowsOf(s, rows) && Covers(table, rows, w)
    ensures w.table.Keys == table.Keys + s.fetched.Keys
  {
    forall m
      ensures m in w.table.Keys <==> m in table.Keys + s.fetched.Keys
    {
    }
  }

  lemma CountNew(before: set<int>, fetched: set<int>, after: set<int>, inserted: nat)
    requires after == before + fetched && |after| == |before| + inserted
    ensures inserted == |fetched - before| && |fetched| - inserted == |fetched * before|
  {
    assert after == before + (fetched - before);
    assert fetched == (fetched - before) + (fetched * before);
  }

  lemma CommitConfirms(table: Table, s: Sweep, rows: seq<int>, w: Written)
    requires s.Ready? && SweepOk(table, s) && NewRowsOf(s, rows) && Settles(table, rows, s.fetched, w)
    ensures Confirmed(w.table, s.fetched)
  {
    forall m | m in s.fetched
      ensures m in w.table && Agree(w.table[m], s.fetched[m])
    {
      assert m in s.existing || m in rows;
    }
  }

  lemma BeginOk(table: Table, selected: seq<int>, exact: bool, dryRun: bool)
    ensures SweepOk(table, BeginSweep(table, selected, exact, dryRun))
  {
  }

  lemma UpdateKeepsGood(w: World, table: Table, id: int, sweep: Sweep)
    requires Good(w) && Extends(table, w.table) && SweepOk(table, sweep)
    ensures Good(World(table, w.sweeps[id := sweep]))
  {
    forall other | other in w.sweeps
      ensures SweepOk(table, w.sweeps[other])
    {
      SweepStaysOk(w.table, table, w.sweeps[other]);
    }
  }

  lemma StepKeepsGood(w: World, e: Event)
    requires Enabled(w, e) && Good(w)
    ensures Good(Step(w, e)) && Extends(Step(w, e).table, w.table)
  {
    match e
    case Begin(id, selected, exact, dryRun) =>
      BeginOk(w.table, selected, exact, dryRun);
      UpdateKeepsGood(w, w.table, id, BeginSweep(w.table, selected, exact, dryRun));
    case Fetch(id, reply) =>
      FetchOk(w.table, w.sweeps[id], reply);
      UpdateKeepsGood(w, w.table, id, FetchNext(w.sweeps[id], reply));
    case Check(id) =>
      CheckOk(w.table, w.sweeps[id]);
      UpdateKeepsGood(w, w.table, id, CheckAll(w.sweeps[id]));
    case Commit(id, stopAt) =>
      CommitMeaning(w.table, w.sweeps[id], stopAt);
      var (table, sweep) := CommitRows(w.table, w.sweeps[id], stopAt);
      UpdateKeepsGood(w, table, id, sweep);
    case Abandon(id) =>
      UpdateKeepsGood(w, w.table, id, Failed);
  }

  lemma {:induction false} RunsAreGood(table: Table, events: seq<Event>)
    requires Legal(table, events)
    ensures Good(Run(table, events))
  {
    if events != [] {
      RunsAreGood(table, events[..|events| - 1]);
      StepKeepsGood(Run(table, events[..|events| - 1]), events[|events| - 1]);
    }
  }

  // ---------------------------------------------------------- the main results

  /** However sweeps interleave, an outcome once committed never changes. */
  lemma {:induction false} CommittedNeverChanges(table: Table, events: seq<Event>, n: nat)
    requires Legal(table, events) && n <= |events|
    ensures Legal(table, events[..n])
    ensures Extends(Run(table, events).table, Run(table, events[..n]).table)
    decreases |events|
  {
    if n == |events| {
      assert events[..n] == events;
    } else {
      var before := events[..|events| - 1];
      assert before[..n] == events[..n];
      CommittedNeverChanges(table, before, n);
      RunsAreGood(table, before);
      StepKeepsGood(Run(table, before), events[|events| - 1]);
    }
  }

  /** The table only changes in the step that makes a sweep succeed; a sweep that
      fails or is cancelled, at whatever point, leaves it as it was. */
  lemma OnlySuccessWrites(w: World, e: Event)
    requires Enabled(w, e) && Good(w)
    ensures Step(w, e).table != w.table ==> e.Commit? && Step(w, e).sweeps[e.id].Done?
    ensures Step(w, e).sweeps[e.id].Failed? ==> Step(w, e).table == w.table
  {
    if e.Commit? {
      CommitMeaning(w.table, w.sweeps[e.id], e.stopAt);
    }
  }

  lemma AgreeTwice(stored: Resolution, a: Resolution, b: Resolution)
    requires Agree(stored, a) && Agree(stored, b)
    ensures Abs(a.outcome - b.outcome) <= 2.0 * TOLERANCE
  {
  }

  predicate Saw(w: World, id: int, market: int) {
    id in w.sweeps && w.sweeps[id].Done? && !w.sweeps[id].dryRun && market in w.sweeps[id].fetched
  }

  lemma SucceededIsStored(table: Table, events: seq<Event>, id: int, market: int)
    requires Legal(table, events) && Saw(Run(table, events), id, market)
    ensures var w := Run(table, events); market in w.table && Agree(w.table[market], w.sweeps[id].fetched[market])
  {
    RunsAreGood(table, events);
    var w := Run(table, events);
    assert SweepOk(w.table, w.sweeps[id]);
    assert Confirmed(w.table, w.sweeps[id].fetched);
  }

  /** Any sweeps that succeeded and saw a market resolved agree with the one stored
      outcome, and so with each other within twice the tolerance. */
  lemma RecordersAgree(table: Table, events: seq<Event>, one: int, two: int, market: int)
    requires Legal(table, events) && Saw(Run(table, events), one, market) && Saw(Run(table, events), two, market)
    ensures var w := Run(table, events);
            && market in w.table
            && Agree(w.table[market], w.sweeps[one].fetched[market])
            && Agree(w.table[market], w.sweeps[two].fetched[market])
            && Abs(w.sweeps[one].fetched[market].outcome - w.sweeps[two].fetched[market].outcome) <= 2.0 * TOLERANCE
  {
    var w := Run(table, events);
    SucceededIsStored(table, events, one, market);
    SucceededIsStored(table, events, two, market);
    AgreeTwice(w.table[market], w.sweeps[one].fetched[market], w.sweeps[two].fetched[market]);
  }

  /** Inserted plus already recorded is resolved, for every finished sweep. */
  lemma CountsAddUp(table: Table, events: seq<Event>, id: int)
    requires Legal(table, events)
    requires var w := Run(table, events); id in w.sweeps && w.sweeps[id].Done?
    ensures var s := Run(table, events).sweeps[id]; s.inserted + s.alreadyRecorded == |s.fetched.Keys|
  {
    RunsAreGood(table, events);
    var w := Run(table, events);
    assert SweepOk(w.table, w.sweeps[id]);
  }
}
