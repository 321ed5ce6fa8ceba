/** The outcome recorder of arena/live/outcomes.py: any number of sweeps run at
    once over one table. A sweep reads the table, fetches market by market, checks
    and then writes inside one immediate transaction, which is one atomic step
    here. Replies and stop signals are inputs. */
module Outcomes {
  import opened Wrappers
  import opened Reals

  const TOLERANCE: real := 0.000000000001

  datatype Resolution = Resolution(outcome: real, resolvedAtMs: int)

  type Table = map<int, Resolution>

  datatype Error = InvalidMarkets | InvalidResponse | Conflict(market: int) | Cancelled

  // ----------------------------------------------------------------- fetching

  datatype Reply = Missing | Open | Resolved(payoutNanos: int, resolvedAtMs: int) | Malformed

  predicate WellFormed(reply: Reply) {
    match reply
    case Resolved(payout, at) => 0 <= payout <= NANOS_PER_DOLLAR && at >= 0
    case Malformed => false
    case _ => true
  }

  /** A market that is gone is an error only when the cohort is exact; a resolution
      is passed on as the dollars paid, between nothing and one. */
  function Fetched(reply: Reply, exact: bool): (r: Result<Option<Resolution>, Error>)
    ensures r.Err? <==> !WellFormed(reply) || (reply.Missing? && exact)
    ensures r.Ok? ==> (r.value.Some? <==> reply.Resolved?)
    ensures r.Ok? && r.value.Some? ==>
              && 0.0 <= r.value.value.outcome <= 1.0
              && r.value.value.outcome * NANOS_PER_DOLLAR as real == reply.payoutNanos as real
              && r.value.value.resolvedAtMs == reply.resolvedAtMs
  {
    match reply
    case Missing => if exact then Err(InvalidResponse) else Ok(None)
    case Open => Ok(None)
    case Malformed => Err(InvalidResponse)
    case Resolved(payout, at) =>
      if 0 <= payout <= NANOS_PER_DOLLAR && at >= 0
      then Ok(Some(Resolution(payout as real / NANOS_PER_DOLLAR as real, at)))
      else Err(InvalidResponse)
  }

  predicate Agree(a: Resolution, b: Resolution) { Abs(a.outcome - b.outcome) <= TOLERANCE }

  predicate Distinct(ids: seq<int>) { forall i, j :: 0 <= i < j < |ids| ==> ids[i] != ids[j] }

  predicate Cohort(ids: seq<int>) { Distinct(ids) && forall i :: 0 <= i < |ids| ==> ids[i] >= 0 }

  // ------------------------------------------------------------------ writing

  /** The rows to insert, in sweep order. */
  function NewRows(selected: seq<int>, fetched: Table, existing: Table): seq<int> {
    if selected == [] then []
    else
      var m := selected[|selected| - 1];
      NewRows(selected[..|selected| - 1], fetched, existing) + (if m in fetched && m !in existing then [m] else [])
  }

  datatype Written = Written(table: Table, inserted: nat)

  function WriteOne(w: Written, m: int, resolution: Resolution): Result<Written, Error> {
    if m !in w.table then Ok(Written(w.table[m := resolution], w.inserted + 1))
    else if Agree(w.table[m], resolution) then Ok(w)
    else Err(Conflict(m))
  }

  /** The first `n` rows of the transaction; `stopAt` is the check at which the
      sweep is told to stop, if it is. */
  function WriteSome(table: Table, rows: seq<int>, fetched: Table, stopAt: Option<nat>, n: nat): Result<Written, Error>
    requires n <= |rows| && forall i :: 0 <= i < |rows| ==> rows[i] in fetched
  {
    if n == 0 then Ok(Written(table, 0))
    else
      var before := WriteSome(table, rows, fetched, stopAt, n - 1);
      if before.Err? then before
      else
        if stopAt == Some(n - 1) then Err(Cancelled) else WriteOne(before.value, rows[n - 1], fetched[rows[n - 1]])
  }

  /** The whole transaction: on any error nothing is kept. */
  function Write(table: Table, rows: seq<int>, fetched: Table, stopAt: Option<nat>): Result<Written, Error>
    requires forall i :: 0 <= i < |rows| ==> rows[i] in fetched
  {
    var written := WriteSome(table, rows, fetched, stopAt, |rows|);
    if written.Ok? && stopAt == Some(|rows|) then Err(Cancelled) else written
  }

  lemma {:induction false} WriteFails(table: Table, rows: seq<int>, fetched: Table, stopAt: Option<nat>, n: nat, m: nat)
    requires n <= m <= |rows| && forall i :: 0 <= i < |rows| ==> rows[i] in fetched
    requires WriteSome(table, rows, fetched, stopAt, n).Err?
    ensures WriteSome(table, rows, fetched, stopAt, m) == WriteSome(table, rows, fetched, stopAt, n)
  {
    if n < m {
      WriteFails(table, rows, fetched, stopAt, n, m - 1);
    }
  }

  method WriteRows(table: Table, rows: seq<int>, fetched: Table, stopAt: Option<nat>)
    returns (r: Result<Written, Error>)
    requires forall i :: 0 <= i < |rows| ==> rows[i] in fetched
    ensures r == Write(table, rows, fetched, stopAt)
  {
    var current, inserted, i := table, 0, 0;
    while i < |rows|
      invariant 0 <= i <= |rows| && inserted >= 0
      invariant WriteSome(table, rows, fetched, stopAt, i) == Ok(Written(current, inserted))
    {
      if stopAt == Some(i) {
        WriteFails(table, rows, fetched, stopAt, i + 1, |rows|);
        return Err(Cancelled);
      }
      if rows[i] in current {
        if !Agree(current[rows[i]], fetched[rows[i]]) {
          WriteFails(table, rows, fetched, stopAt, i + 1, |rows|);
          return Err(Conflict(rows[i]));
        }
      } else {
        current := current[rows[i] := fetched[rows[i]]];
        inserted := inserted + 1;
      }
      i := i + 1;
    }
    if stopAt == Some(|rows|) {
      return Err(Cancelled);
    }
    r := Ok(Written(current, inserted));
  }

  /** Every committed row is still there, unchanged. */
  predicate Extends(after: Table, before: Table) {
    forall m :: m in before ==> m in after && after[m] == before[m]
  }

  /** The rows stored are those there before and those written so far. */
  ghost predicate Covers(table: Table, rows: seq<int>, w: Written) {
    forall m :: m in w.table <==> m in table || m in rows
  }

  predicate Agrees(rows: seq<int>, fetched: Table, w: Written) {
    forall m :: m in rows ==> m in fetched && m in w.table && Agree(w.table[m], fetched[m])
  }

  /** A transaction that goes through keeps every row, adds exactly those that were
      absent, one for each insertion counted, and ends in agreement with everything
      it was given. */
  ghost predicate Settles(table: Table, rows: seq<int>, fetched: Table, w: Written) {
    Extends(w.table, table) && Covers(table, rows, w) && Agrees(rows, fetched, w) && |w.table| == |table| + w.inserted
  }

  lemma WriteOneCovers(table: Table, rows: seq<int>, m: int, resolution: Resolution, w: Written)
    requires Covers(table, rows, w) && WriteOne(w, m, resolution).Ok?
    ensures Covers(table, rows + [m], WriteOne(w, m, resolution).value)
  {
  }

  lemma WriteOneAgrees(rows: seq<int>, m: int, fetched: Table, w: Written)
    requires m in fetched && Agrees(rows, fetched, w) && WriteOne(w, m, fetched[m]).Ok?
    ensures Agrees(rows + [m], fetched, WriteOne(w, m, fetched[m]).value)
  {
  }

  lemma WriteOneCounts(w: Written, m: int, resolution: Resolution)
    requires WriteOne(w, m, resolution).Ok?
    ensures var after := WriteOne(w, m, resolution).value;
            Extends(after.table, w.table) && |after.table| - after.inserted == |w.table| - w.inserted
  {
    if m !in w.table {
      CardOfAdded(w.table, m, resolution);
    }
  }

  lemma CardOfAdded(table: Table, m: int, resolution: Resolution)
    requires m !in table
    ensures |table[m := resolution]| == |table| + 1
  {
    assert table[m := resolution].Keys == table.Keys + {m};
  }

  lemma WriteOneSettles(table: Table, rows: seq<int>, m: int, fetched: Table, w: Written)
    requires Settles(table, rows, fetched, w) && m in fetched && WriteOne(w, m, fetched[m]).Ok?
    ensures Settles(table, rows + [m], fetched, WriteOne(w, m, fetched[m]).value)
  {
    WriteOneCovers(table, rows, m, fetched[m], w);
    WriteOneAgrees(rows, m, fetched, w);
    WriteOneCounts(w, m, fetched[m]);
  }

  /** What every row written keeps holds of the rows written so far. */
  lemma {:induction false} WriteKeeps(table: Table, rows: seq<int>, fetched: Table, stopAt: Option<nat>, n: nat,
                                      p: (seq<int>, Written) -> bool)
    requires n <= |rows| && forall i :: 0 <= i < |rows| ==> rows[i] in fetched
    requires WriteSome(table, rows, fetched, stopAt, n).Ok? && p([], Written(table, 0))
    requires forall done, w, m :: m in fetched && p(done, w) && WriteOne(w, m, fetched[m]).Ok? ==>
               p(done + [m], WriteOne(w, m, fetched[m]).value)
    ensures p(rows[..n], WriteSome(table, rows, fetched, stopAt, n).value)
  {
    if n > 0 {
      WriteKeeps(table, rows, fetched, stopAt, n - 1, p);
      assert rows[..n] == rows[..n - 1] + [rows[n - 1]];
    }
  }

  lemma WriteSettles(table: Table, rows: seq<int>, fetched: Table, stopAt: Option<nat>, n: nat)
    requires n <= |rows| && forall i :: 0 <= i < |rows| ==> rows[i] in fetched
    requires WriteSome(table, rows, fetched, stopAt, n).Ok?
    ensures Settles(table, rows[..n], fetched, WriteSome(table, rows, fetched, stopAt, n).value)
  {
    forall done, w, m | m in fetched && Settles(table, done, fetched, w) && WriteOne(w, m, fetched[m]).Ok?
      ensures Settles(table, done + [m], fetched, WriteOne(w, m, fetched[m]).value)
    {
      WriteOneSettles(table, done, m, fetched, w);
    }
    WriteKeeps(table, rows, fetched, stopAt, n, (done, w) => Settles(table, done, fetched, w));
  }
}
