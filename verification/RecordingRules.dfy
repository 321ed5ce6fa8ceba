/** Exactly when a sweep of the outcome recorder (arena/live/outcomes.py) succeeds and
    what it then leaves in the table. */
module RecordingRules {
  import opened Wrappers
  import opened Reals
  import opened Outcomes
  import opened Recorders

  /** Within a millionth of a millionth of a dollar. */
  predicate Close(a: Resolution, b: Resolution) {
    a.outcome - b.outcome <= 0.000000000001 && b.outcome - a.outcome <= 0.000000000001
  }

  lemma AgreeIsClose(a: Resolution, b: Resolution)
    ensures Agree(a, b) <==> Close(a, b)
  {
  }

  // ----------------------------------------------------------------- fetching

  predicate Usable(reply: Reply, exact: bool) {
    match reply
    case Missing => !exact
    case Open => true
    case Resolved(payout, at) => 0 <= payout <= 1_000_000_000 && at >= 0
    case Malformed => false
  }

  /** The sweep after the first `n` replies; a failed one takes no more. */
  function FetchSome(s: Sweep, replies: seq<Reply>, n: nat): (after: Sweep)
    requires s.Fetching? && s.next == 0 && |replies| == |s.selected| && n <= |replies|
    ensures after.Fetching? ==> after.next == n && after.selected == s.selected && after.exact == s.exact
    ensures after.Fetching? || after.Failed?
  {
    if n == 0 then s
    else
      var before := FetchSome(s, replies, n - 1);
      if before.Fetching? then FetchNext(before, replies[n - 1]) else before
  }

  predicate Outcome(resolution: Resolution, reply: Reply) {
    && reply.Resolved?
    && resolution.outcome * 1_000_000_000.0 == reply.payoutNanos as real
    && resolution.resolvedAtMs == reply.resolvedAtMs
  }

  /** Collected from the first `n` replies: the resolved markets, each with what its
      reply said. */
  predicate Collected(fetched: Table, selected: seq<int>, replies: seq<Reply>, n: nat)
    requires n <= |selected| == |replies|
  {
    && Within(fetched, selected[..n])
    && (forall i :: 0 <= i < n ==>
          && (selected[i] in fetched <==> replies[i].Resolved?)
          && (replies[i].Resolved? ==> Outcome(fetched[selected[i]], replies[i])))
  }

  lemma CollectOne(fetched: Table, selected: seq<int>, replies: seq<Reply>, n: nat, exact: bool)
    requires n < |selected| == |replies| && Distinct(selected) && Collected(fetched, selected, replies, n)
    requires Usable(replies[n], exact)
    ensures var r := Fetched(replies[n], exact);
            && r.Ok?
            && Collected(if r.value.None? then fetched else fetched[selected[n] := r.value.value],
                         selected, replies, n + 1)
  {
    var r := Fetched(replies[n], exact);
    var after := if r.value.None? then fetched else fetched[selected[n] := r.value.value];
    assert selected[..n + 1] == selected[..n] + [selected[n]];
    var m := selected[n];
    assert Within(fetched, selected[..n]) && m !in selected[..n];
    assert m !in fetched;
    forall i | 0 <= i < n
      ensures selected[i] in after <==> selected[i] in fetched
      ensures selected[i] in fetched ==> after[selected[i]] == fetched[selected[i]]
    {
      assert selected[i] in selected[..n];
    }
    assert Within(after, selected[..n + 1]);
  }

  predicate AllUsable(replies: seq<Reply>, n: nat, exact: bool)
    requires n <= |replies|
  {
    forall i :: 0 <= i < n ==> Usable(replies[i], exact)
  }

  lemma OneMoreUsable(replies: seq<Reply>, n: nat, exact: bool)
    requires n < |replies|
    ensures AllUsable(replies, n + 1, exact) <==> AllUsable(replies, n, exact) && Usable(replies[n], exact)
  {
  }

  /** Where a sweep that started as `s` stands after `n` replies. */
  predicate Stands(s: Sweep, replies: seq<Reply>, n: nat, after: Sweep)
    requires s.Fetching? && n <= |s.selected| == |replies|
  {
    && (after.Fetching? <==> AllUsable(replies, n, s.exact))
    && (after.Fetching? ==>
          Collected(after.fetched, s.selected, replies, n) && after == s.(fetched := after.fetched, next := n))
  }

  lemma FetchOne(s: Sweep, before: Sweep, replies: seq<Reply>, n: nat)
    requires s.Fetching? && Distinct(s.selected) && n < |s.selected| == |replies|
    requires Stands(s, replies, n, before)
    ensures Stands(s, replies, n + 1, if before.Fetching? then FetchNext(before, replies[n]) else before)
  {
    OneMoreUsable(replies, n, s.exact);
    if before.Fetching? {
      if Usable(replies[n], s.exact) {
        CollectOne(before.fetched, s.selected, replies, n, s.exact);
      } else {
        assert Fetched(replies[n], s.exact).Err?;
      }
    }
  }

  /** A sweep gets through its markets exactly when every reply is usable, and then it
      has collected exactly the resolved ones. */
  lemma {:induction false} FetchesCollect(s: Sweep, replies: seq<Reply>, n: nat)
    requires s.Fetching? && s.next == 0 && s.fetched == map[] && Distinct(s.selected)
    requires |replies| == |s.selected| && n <= |replies|
    ensures Stands(s, replies, n, FetchSome(s, replies, n))
  {
    if n > 0 {
      FetchesCollect(s, replies, n - 1);
      FetchOne(s, FetchSome(s, replies, n - 1), replies, n - 1);
    }
  }

  // ----------------------------------------------------------------- checking

  predicate Conflicts(existing: Table, fetched: Table) {
    exists m :: m in fetched && m in existing && !Close(existing[m], fetched[m])
  }

  lemma {:induction false} RowsAreAbsent(selected: seq<int>, fetched: Table, existing: Table)
    requires Distinct(selected)
    ensures |NewRows(selected, fetched, existing)| == |Absent(selected, fetched, existing)|
  {
    if selected == [] {
      assert Absent(selected, fetched, existing) == {};
    } else {
      var front, m := selected[..|selected| - 1], selected[|selected| - 1];
      RowsAreAbsent(front, fetched, existing);
      assert selected == front + [m];
      OneMoreAbsent(front, m, fetched, existing);
    }
  }

  lemma OneMoreAbsent(front: seq<int>, m: int, fetched: Table, existing: Table)
    requires m !in front
    ensures |Absent(front + [m], fetched, existing)|
         == |Absent(front, fetched, existing)| + if m in fetched && m !in existing then 1 else 0
  {
    var added := if m in fetched && m !in existing then {m} else {};
    assert Absent(front + [m], fetched, existing) == Absent(front, fetched, existing) + added;
  }

  function Absent(selected: seq<int>, fetched: Table, existing: Table): set<int> {
    set m | m in selected && m in fetched && m !in existing
  }

  function Checked(s: Sweep, unseen: set<int>): Sweep
    requires s.Fetching?
  {
    if Conflicts(s.existing, s.fetched) then Failed
    else if s.dryRun || unseen == {} then
      Done(s.dryRun, s.fetched, |unseen|, |s.fetched.Keys * s.existing.Keys|)
    else Ready(s.selected, s.existing, s.fetched)
  }

  /** The check before writing: a conflict with the rows read at the start fails the
      sweep, a dry run ends here with the counts it would have had, and only rows that
      were absent call for a transaction. */
  lemma CheckExactly(s: Sweep)
    requires s.Fetching? && Distinct(s.selected) && Within(s.fetched, s.selected)
    ensures CheckAll(s) == Checked(s, s.fetched.Keys - s.existing.Keys)
  {
    NoConflictMeans(s.existing, s.fetched);
    RowsAreUnseen(s.selected, s.fetched, s.existing);
    SplitKeys(s.fetched.Keys, s.existing.Keys);
  }

  lemma NoConflictMeans(existing: Table, fetched: Table)
    ensures NoConflict(existing, fetched) <==> !Conflicts(existing, fetched)
  {
  }

  lemma RowsAreUnseen(selected: seq<int>, fetched: Table, existing: Table)
    requires Distinct(selected) && Within(fetched, selected)
    ensures |NewRows(selected, fetched, existing)| == |fetched.Keys - existing.Keys|
    ensures NewRows(selected, fetched, existing) == [] <==> fetched.Keys - existing.Keys == {}
  {
    RowsAreAbsent(selected, fetched, existing);
    AbsentIsUnseen(selected, fetched, existing);
  }

  lemma AbsentIsUnseen(selected: seq<int>, fetched: Table, existing: Table)
    requires Within(fetched, selected)
    ensures Absent(selected, fetched, existing) == fetched.Keys - existing.Keys
  {
    forall m
      ensures m in Absent(selected, fetched, existing) <==> m in fetched.Keys - existing.Keys
    {
      assert m in fetched ==> m in selected;
    }
  }

  lemma SplitKeys(fetched: set<int>, existing: set<int>)
    ensures |fetched| - |fetched - existing| == |fetched * existing|
  {
    assert fetched == (fetched - existing) + fetched * existing;
  }

  // ------------------------------------------------------------------ writing

  predicate Unstopped(stopAt: Option<nat>, n: nat) { stopAt.None? || stopAt.value >= n }

  /** Every row is kept, those written are as fetched where they were absent. */
  ghost predicate Exact(table: Table, rows: seq<int>, fetched: Table, after: Table) {
    && (forall m :: m in after <==> m in table || m in rows)
    && (forall m :: m in after ==>
          if m in table then after[m] == table[m] else m in fetched && after[m] == fetched[m])
  }

  lemma WriteOneExactly(table: Table, rows: seq<int>, fetched: Table, w: Written, m: int)
    requires m in fetched && Exact(table, rows, fetched, w.table)
    ensures var written := WriteOne(w, m, fetched[m]);
            && (written.Ok? <==> (m in table ==> Close(table[m], fetched[m])))
            && (written.Ok? ==> Exact(table, rows + [m], fetched, written.value.table))
  {
    if m in w.table { AgreeIsClose(w.table[m], fetched[m]); }
  }

  /** The first `n` rows are absent or close. */
  predicate AllClose(table: Table, rows: seq<int>, fetched: Table, n: nat)
    requires n <= |rows| && forall i :: 0 <= i < |rows| ==> rows[i] in fetched
  {
    forall i :: 0 <= i < n && rows[i] in table ==> Close(table[rows[i]], fetched[rows[i]])
  }

  ghost predicate Writes(table: Table, rows: seq<int>, fetched: Table, stopAt: Option<nat>, n: nat,
                         written: Result<Written, Error>)
    requires n <= |rows| && forall i :: 0 <= i < |rows| ==> rows[i] in fetched
  {
    && (written.Ok? <==> Unstopped(stopAt, n) && AllClose(table, rows, fetched, n))
    && (written.Ok? ==> Exact(table, rows[..n], fetched, written.value.table))
  }

  lemma WriteNext(table: Table, rows: seq<int>, fetched: Table, stopAt: Option<nat>, n: nat, w: Written)
    requires n < |rows| && forall i :: 0 <= i < |rows| ==> rows[i] in fetched
    requires Writes(table, rows, fetched, stopAt, n, Ok(w))
    ensures Writes(table, rows, fetched, stopAt, n + 1,
                   if stopAt == Some(n) then Err(Cancelled) else WriteOne(w, rows[n], fetched[rows[n]]))
  {
    assert rows[..n + 1] == rows[..n] + [rows[n]];
    WriteOneExactly(table, rows[..n], fetched, w, rows[n]);
  }

  lemma {:induction false} WriteSomeExactly(table: Table, rows: seq<int>, fetched: Table, stopAt: Option<nat>, n: nat)
    requires n <= |rows| && forall i :: 0 <= i < |rows| ==> rows[i] in fetched
    ensures Writes(table, rows, fetched, stopAt, n, WriteSome(table, rows, fetched, stopAt, n))
  {
    if n > 0 {
      var before := WriteSome(table, rows, fetched, stopAt, n - 1);
      WriteSomeExactly(table, rows, fetched, stopAt, n - 1);
      if before.Ok? {
        WriteNext(table, rows, fetched, stopAt, n - 1, before.value);
      }
    }
  }

  lemma WriteExactly(table: Table, rows: seq<int>, fetched: Table, stopAt: Option<nat>)
    requires forall i :: 0 <= i < |rows| ==> rows[i] in fetched
    ensures var written := Write(table, rows, fetched, stopAt);
            && (written.Ok? <==> Unstopped(stopAt, |rows| + 1) && AllClose(table, rows, fetched, |rows|))
            && (written.Ok? ==> Exact(table, rows, fetched, written.value.table))
  {
    WriteSomeExactly(table, rows, fetched, stopAt, |rows|);
    assert rows[..|rows|] == rows;
  }

  /** The rows of a table that a sweep did not see when it started. */
  function Appeared(table: Table, existing: Table): Table {
    map m | m in table && m !in existing :: table[m]
  }

  /** A transaction commits exactly when it is not told to stop at any of its checks
      and every row that appeared meanwhile is close to what was fetched; then the rows
      that were absent hold exactly what was fetched, and nothing else has changed. */
  lemma CommitExactly(table: Table, s: Sweep, stopAt: Option<nat>, rows: seq<int>)
    requires s.Ready? && rows == NewRows(s.selected, s.fetched, s.existing)
    requires Within(s.fetched, s.selected) && Extends(table, s.existing)
    ensures var (after, sweep) := CommitRows(table, s, stopAt);
            if Unstopped(stopAt, |rows| + 1) && !Conflicts(Appeared(table, s.existing), s.fetched)
            then sweep.Done? && !sweep.dryRun && sweep.fetched == s.fetched && after == s.fetched + table
            else sweep.Failed? && after == table
  {
    NewRowsAre(s.selected, s.fetched, s.existing);
    var written := Write(table, rows, s.fetched, stopAt);
    WriteExactly(table, rows, s.fetched, stopAt);
    NoneConflicts(table, s, rows);
    if written.Ok? {
      MergedTable(table, s, rows, written.value.table);
    }
  }

  lemma NoneConflicts(table: Table, s: Sweep, rows: seq<int>)
    requires s.Ready?
    requires forall m :: m in rows <==> m in s.selected && m in s.fetched && m !in s.existing
    requires Within(s.fetched, s.selected) && forall i :: 0 <= i < |rows| ==> rows[i] in s.fetched
    ensures Conflicts(Appeared(table, s.existing), s.fetched) <==> !AllClose(table, rows, s.fetched, |rows|)
  {
    var appeared := Appeared(table, s.existing);
    if Conflicts(appeared, s.fetched) {
      var m :| m in s.fetched && m in appeared && !Close(appeared[m], s.fetched[m]);
      assert m in rows;
      var i :| 0 <= i < |rows| && rows[i] == m;
    }
    if i :| 0 <= i < |rows| && rows[i] in table && !Close(table[rows[i]], s.fetched[rows[i]]) {
      var m := rows[i];
      assert m in rows;
      assert m in s.fetched && m in appeared && !Close(appeared[m], s.fetched[m]);
    }
  }

  lemma MergedTable(table: Table, s: Sweep, rows: seq<int>, after: Table)
    requires s.Ready? && Within(s.fetched, s.selected) && Extends(table, s.existing)
    requires forall m :: m in rows <==> m in s.selected && m in s.fetched && m !in s.existing
    requires Exact(table, rows, s.fetched, after)
    ensures after == s.fetched + table
  {
    forall m
      ensures m in after <==> m in s.fetched + table
      ensures m in after ==> after[m] == (s.fetched + table)[m]
    {
      if m in s.fetched && m !in table {
        assert m in rows;
      }
    }
  }

  // ----------------------------------------------------------- starting a sweep

  /** A sweep starts exactly with distinct non-negative markets, and from the rows the
      table then has for them. */
  lemma BeginExactly(table: Table, selected: seq<int>, exact: bool, dryRun: bool)
    ensures var s := BeginSweep(table, selected, exact, dryRun);
            if (forall i, j :: 0 <= i < j < |selected| ==> selected[i] != selected[j])
               && (forall i :: 0 <= i < |selected| ==> selected[i] >= 0)
            then s.Fetching? && s.next == 0 && s.fetched == map[] && s.selected == selected && s.exact == exact
                 && s.dryRun == dryRun && s.existing.Keys == table.Keys * (set m | m in selected)
                 && Extends(table, s.existing)
            else s.Failed?
  {
  }
}
