/** Profit over half-open time windows from portfolio snapshots
    (arena/scripts/calibration.py). Times are parsed timestamps, and which traders
    count is an arbitrary predicate. */
module WindowPnl {
  import opened Wrappers
  import opened Sorting

  datatype Snapshot = Snapshot(time: int, pnl: real)

  datatype Trader = Trader(name: string)

  /** A database row; an unparsable timestamp or profit is absent. */
  datatype Row = Row(trader: Trader, time: Option<int>, pnl: Option<real>)

  // --------------------------------------------------------- the stable sort

  predicate NotLater(a: Snapshot, b: Snapshot) { a.time <= b.time }

  predicate Sorted(h: seq<Snapshot>) { SortedBy(NotLater, h) }

  function SortByTime(h: seq<Snapshot>): seq<Snapshot> { SortBy(NotLater, h) }

  /** The snapshots of one moment, in their order. */
  function At(h: seq<Snapshot>, time: int): seq<Snapshot> {
    if h == [] then [] else (if h[0].time == time then [h[0]] else []) + At(h[1..], time)
  }

  lemma AtCons(s: Snapshot, h: seq<Snapshot>, time: int)
    ensures At([s] + h, time) == (if s.time == time then [s] else []) + At(h, time)
  {
    assert ([s] + h)[1..] == h;
  }

  lemma {:induction false} InsertKeepsAt(s: Snapshot, h: seq<Snapshot>, time: int)
    ensures At(InsertBy(NotLater, s, h), time) == At([s] + h, time)
  {
    AtCons(s, h, time);
    if h != [] && h[0].time < s.time {
      InsertKeepsAt(s, h[1..], time);
      AtCons(s, h[1..], time);
      AtCons(h[0], InsertBy(NotLater, s, h[1..]), time);
    }
  }

  lemma {:induction false} SortKeepsAt(h: seq<Snapshot>, time: int)
    ensures At(SortByTime(h), time) == At(h, time)
  {
    if h != [] {
      SortKeepsAt(h[1..], time);
      InsertKeepsAt(h[0], SortByTime(h[1..]), time);
      AtCons(h[0], SortByTime(h[1..]), time);
    }
  }

  /** The sort orders by time and keeps the row order within a moment. */
  lemma SortIsStable(h: seq<Snapshot>)
    ensures Sorted(SortByTime(h)) && multiset(SortByTime(h)) == multiset(h)
    ensures forall t :: At(SortByTime(h), t) == At(h, t)
  {
    SortSorts(NotLater, h);
    forall t
      ensures At(SortByTime(h), t) == At(h, t)
    {
      SortKeepsAt(h, t);
    }
  }

  // ------------------------------------------------------------- the windows

  function Before(h: seq<Snapshot>, time: int): seq<Snapshot> {
    if h == [] then [] else (if h[0].time < time then [h[0]] else []) + Before(h[1..], time)
  }

  function From(h: seq<Snapshot>, time: int): seq<Snapshot> {
    if h == [] then [] else (if h[0].time >= time then [h[0]] else []) + From(h[1..], time)
  }

  function Last(h: seq<Snapshot>): real
    requires h != []
  {
    h[|h| - 1].pnl
  }

  function TraderPnl(snapshots: seq<Snapshot>, since: Option<int>, until: Option<int>): Option<real> {
    SortedPnl(SortByTime(snapshots), since, until)
  }

  function SortedPnl(sorted: seq<Snapshot>, since: Option<int>, until: Option<int>): Option<real> {
    var eligible := if until.Some? then Before(sorted, until.value) else sorted;
    if eligible == [] then None
    else if since.None? then Some(Last(eligible))
    else
      Rise(From(eligible, since.value), Before(eligible, since.value))
  }

  /** From the last snapshot before the window, or the first in it, to its last. */
  function Rise(inWindow: seq<Snapshot>, before: seq<Snapshot>): Option<real> {
    if inWindow == [] then None
    else Some(Last(inWindow) - (if before != [] then Last(before) else inWindow[0].pnl))
  }

  /** How many snapshots lie before a moment. */
  function Cut(h: seq<Snapshot>, time: int): (k: nat)
    ensures k <= |h|
  {
    if h == [] || h[0].time >= time then 0 else 1 + Cut(h[1..], time)
  }

  /** On sorted snapshots the cut separates earlier from later. */
  predicate CutAt(h: seq<Snapshot>, time: int, k: nat) {
    && k <= |h|
    && (forall i :: 0 <= i < k ==> h[i].time < time)
    && (forall i :: k <= i < |h| ==> h[i].time >= time)
  }

  lemma {:induction false} CutIsAt(h: seq<Snapshot>, time: int)
    requires Sorted(h)
    ensures CutAt(h, time, Cut(h, time))
  {
    if h != [] && h[0].time < time {
      var k := Cut(h[1..], time);
      CutIsAt(h[1..], time);
      assert forall i :: 1 <= i < |h| ==> h[i] == h[1..][i - 1];
    }
  }

  lemma {:induction false} CutGrows(h: seq<Snapshot>, a: int, c: int)
    requires a <= c
    ensures Cut(h, a) <= Cut(h, c)
  {
    if h != [] && h[0].time < a {
      CutGrows(h[1..], a, c);
    }
  }

  lemma {:induction false} FilterAtCut(h: seq<Snapshot>, time: int, k: nat)
    requires CutAt(h, time, k)
    ensures Before(h, time) == h[..k] && From(h, time) == h[k..]
  {
    if k == 0 {
      NoneBefore(h, time);
    } else {
      FilterAtCut(h[1..], time, k - 1);
      assert h[..k] == [h[0]] + h[1..][..k - 1];
      assert h[k..] == h[1..][k - 1..];
    }
  }

  lemma CutSplits(h: seq<Snapshot>, time: int)
    requires Sorted(h)
    ensures CutAt(h, time, Cut(h, time))
    ensures Before(h, time) == h[..Cut(h, time)] && From(h, time) == h[Cut(h, time)..]
  {
    CutIsAt(h, time);
    FilterAtCut(h, time, Cut(h, time));
  }

  lemma {:induction false} NoneBefore(h: seq<Snapshot>, time: int)
    requires forall i :: 0 <= i < |h| ==> h[i].time >= time
    ensures Before(h, time) == [] && From(h, time) == h
  {
    if h != [] {
      NoneBefore(h[1..], time);
    }
  }

  /** The reference: the profit level standing at a moment, which before the first
      snapshot is the first one's. */
  function Level(snapshots: seq<Snapshot>, time: int): real { SortedLevel(SortByTime(snapshots), time) }

  function SortedLevel(sorted: seq<Snapshot>, time: int): real { LevelAt(sorted, Cut(sorted, time)) }

  function LevelAt(sorted: seq<Snapshot>, k: nat): real
    requires k <= |sorted|
  {
    if sorted == [] then 0.0 else if k == 0 then sorted[0].pnl else sorted[k - 1].pnl
  }

  predicate SeenIn(snapshots: seq<Snapshot>, a: int, c: int) {
    exists s :: s in snapshots && a <= s.time < c
  }

  lemma SameMembers(snapshots: seq<Snapshot>, s: Snapshot)
    ensures s in snapshots <==> s in SortByTime(snapshots)
  {
    SortSorts(NotLater, snapshots);
    assert s in snapshots <==> s in multiset(snapshots);
    assert s in SortByTime(snapshots) <==> s in multiset(SortByTime(snapshots));
  }

  lemma SortedSeen(snapshots: seq<Snapshot>, a: int, c: int)
    requires a <= c
    ensures var h := SortByTime(snapshots); SeenIn(snapshots, a, c) <==> Cut(h, a) < Cut(h, c)
  {
    var h := SortByTime(snapshots);
    SortSorts(NotLater, snapshots);
    CutIsAt(h, a);
    CutIsAt(h, c);
    if SeenIn(snapshots, a, c) {
      var s :| s in snapshots && a <= s.time < c;
      SameMembers(snapshots, s);
      var i :| 0 <= i < |h| && h[i] == s;
      assert Cut(h, a) <= i < Cut(h, c);
    }
    if Cut(h, a) < Cut(h, c) {
      var s := h[Cut(h, a)];
      SameMembers(snapshots, s);
      assert s in snapshots && a <= s.time < c;
    }
  }

  lemma PrefixCut(h: seq<Snapshot>, a: int, c: int)
    requires Sorted(h) && a <= c
    ensures Cut(h, a) <= Cut(h, c) && CutAt(h[..Cut(h, c)], a, Cut(h, a))
  {
    CutIsAt(h, a);
    CutIsAt(h, c);
    CutGrows(h, a, c);
  }

  function OrZero(p: Option<real>): real { if p.Some? then p.value else 0.0 }

  lemma RiseIsLevels(h: seq<Snapshot>, i: nat, k: nat)
    requires i <= k <= |h|
    ensures Rise(h[i..k], h[..i]).Some? <==> i < k
    ensures OrZero(Rise(h[i..k], h[..i])) == LevelAt(h, k) - LevelAt(h, i)
  {
  }

  lemma SortedPnlIsRise(h: seq<Snapshot>, a: int, c: int)
    requires Sorted(h) && a <= c
    ensures Cut(h, a) <= Cut(h, c)
    ensures SortedPnl(h, Some(a), Some(c)) == Rise(h[Cut(h, a)..Cut(h, c)], h[..Cut(h, a)])
  {
    var i, k := Cut(h, a), Cut(h, c);
    PrefixCut(h, a, c);
    var eligible := h[..k];
    assert Before(h, c) == eligible by { CutSplits(h, c); }
    FilterAtCut(eligible, a, i);
    assert eligible[..i] == h[..i] && eligible[i..] == h[i..k];
  }

  lemma SortedWindow(h: seq<Snapshot>, a: int, c: int)
    requires Sorted(h) && a <= c
    ensures SortedPnl(h, Some(a), Some(c)).Some? <==> Cut(h, a) < Cut(h, c)
    ensures SortedLevel(h, c) - SortedLevel(h, a) == OrZero(SortedPnl(h, Some(a), Some(c)))
  {
    SortedPnlIsRise(h, a, c);
    RiseIsLevels(h, Cut(h, a), Cut(h, c));
  }

  /** A window has a profit exactly when a snapshot falls in it, and that profit is
      the rise of the level across it. */
  lemma WindowIsRise(snapshots: seq<Snapshot>, a: int, c: int)
    requires a <= c
    ensures TraderPnl(snapshots, Some(a), Some(c)).Some? <==> SeenIn(snapshots, a, c)
    ensures var p := TraderPnl(snapshots, Some(a), Some(c));
            Level(snapshots, c) - Level(snapshots, a) == OrZero(p)
  {
    SortSorts(NotLater, snapshots);
    SortedSeen(snapshots, a, c);
    SortedWindow(SortByTime(snapshots), a, c);
  }

  /** Profit over [a, c) is profit over [a, b) plus profit over [b, c), an absent
      window counting as zero. */
  lemma WindowsAdd(snapshots: seq<Snapshot>, a: int, b: int, c: int)
    requires a <= b <= c
    ensures OrZero(TraderPnl(snapshots, Some(a), Some(c)))
         == OrZero(TraderPnl(snapshots, Some(a), Some(b))) + OrZero(TraderPnl(snapshots, Some(b), Some(c)))
  {
    WindowIsRise(snapshots, a, c);
    WindowIsRise(snapshots, a, b);
    WindowIsRise(snapshots, b, c);
  }

  /** Without a start, the profit is the level itself, where there is one. */
  lemma OpenStartIsLevel(snapshots: seq<Snapshot>, c: int)
    ensures var p := TraderPnl(snapshots, None, Some(c));
            && (p.Some? <==> exists s :: s in snapshots && s.time < c)
            && (p.Some? ==> p.value == Level(snapshots, c))
  {
    var h := SortByTime(snapshots);
    SortSorts(NotLater, snapshots);
    CutSplits(h, c);
    if s :| s in snapshots && s.time < c {
      SameMembers(snapshots, s);
      var i :| 0 <= i < |h| && h[i] == s;
      assert i < Cut(h, c);
    }
    if Cut(h, c) > 0 {
      SameMembers(snapshots, h[0]);
    }
  }

  // ----------------------------------------------------- every trader at once

  predicate Usable(row: Row, matches: Trader -> bool) {
    matches(row.trader) && row.time.Some? && row.pnl.Some?
  }

  /** One trader's snapshots among the first `n` rows, in row order. */
  function SnapshotsIn(rows: seq<Row>, matches: Trader -> bool, trader: Trader, n: nat): seq<Snapshot>
    requires n <= |rows|
  {
    if n == 0 then []
    else
      var row := rows[n - 1];
      SnapshotsIn(rows, matches, trader, n - 1)
      + (if Usable(row, matches) && row.trader == trader then [Snapshot(row.time.value, row.pnl.value)] else [])
  }

  function SnapshotsOf(rows: seq<Row>, matches: Trader -> bool, trader: Trader): seq<Snapshot> {
    SnapshotsIn(rows, matches, trader, |rows|)
  }

  function HistoryOf(snapshots: map<Trader, seq<Snapshot>>, trader: Trader): seq<Snapshot> {
    if trader in snapshots then snapshots[trader] else []
  }

  /** `snapshots.setdefault(trader, []).append(...)`. */
  function Filed(snapshots: map<Trader, seq<Snapshot>>, row: Row): map<Trader, seq<Snapshot>>
    requires row.time.Some? && row.pnl.Some?
  {
    snapshots[row.trader := HistoryOf(snapshots, row.trader) + [Snapshot(row.time.value, row.pnl.value)]]
  }

  lemma FiledHistory(snapshots: map<Trader, seq<Snapshot>>, row: Row, trader: Trader)
    requires row.time.Some? && row.pnl.Some?
    ensures HistoryOf(Filed(snapshots, row), trader)
         == HistoryOf(snapshots, trader)
            + (if trader == row.trader then [Snapshot(row.time.value, row.pnl.value)] else [])
  {
  }

  /** The dictionary after the first `n` rows. */
  function FiledRows(rows: seq<Row>, matches: Trader -> bool, n: nat): map<Trader, seq<Snapshot>>
    requires n <= |rows|
  {
    if n == 0 then map[]
    else
      var before := FiledRows(rows, matches, n - 1);
      if Usable(rows[n - 1], matches) then Filed(before, rows[n - 1]) else before
  }

  lemma {:induction false} FiledRowsHistory(rows: seq<Row>, matches: Trader -> bool, trader: Trader, n: nat)
    requires n <= |rows|
    ensures HistoryOf(FiledRows(rows, matches, n), trader) == SnapshotsIn(rows, matches, trader, n)
  {
    if n > 0 {
      FiledRowsHistory(rows, matches, trader, n - 1);
      if Usable(rows[n - 1], matches) {
        FiledHistory(FiledRows(rows, matches, n - 1), rows[n - 1], trader);
      }
    }
  }

  method GroupRows(rows: seq<Row>, matches: Trader -> bool) returns (snapshots: map<Trader, seq<Snapshot>>)
    ensures snapshots == FiledRows(rows, matches, |rows|)
  {
    snapshots := map[];
    var i := 0;
    while i < |rows|
      invariant 0 <= i <= |rows|
      invariant snapshots == FiledRows(rows, matches, i)
    {
      if Usable(rows[i], matches) {
        snapshots := Filed(snapshots, rows[i]);
      }
      i := i + 1;
    }
  }

  method PnlByTrader(rows: seq<Row>, matches: Trader -> bool, since: Option<int>, until: Option<int>)
    returns (pnls: map<Trader, real>)
    ensures forall trader :: trader in pnls <==> TraderPnl(SnapshotsOf(rows, matches, trader), since, until).Some?
    ensures forall trader :: trader in pnls ==>
              pnls[trader] == TraderPnl(SnapshotsOf(rows, matches, trader), since, until).value
  {
    var snapshots := GroupRows(rows, matches);
    pnls := AllPnls(snapshots, since, until);
    NoHistoryNoPnl(since, until);
    forall trader
      ensures HistoryOf(snapshots, trader) == SnapshotsOf(rows, matches, trader)
    {
      FiledRowsHistory(rows, matches, trader, |rows|);
    }
  }

  lemma NoHistoryNoPnl(since: Option<int>, until: Option<int>)
    ensures TraderPnl([], since, until).None?
  {
  }

  method AllPnls(snapshots: map<Trader, seq<Snapshot>>, since: Option<int>, until: Option<int>)
    returns (pnls: map<Trader, real>)
    ensures forall trader ::
              trader in pnls <==> trader in snapshots && TraderPnl(HistoryOf(snapshots, trader), since, until).Some?
    ensures forall trader :: trader in pnls ==>
              pnls[trader] == TraderPnl(HistoryOf(snapshots, trader), since, until).value
  {
    pnls := map[];
    var todo := snapshots.Keys;
    while todo != {}
      invariant todo <= snapshots.Keys
      invariant forall trader :: trader in pnls <==>
                  trader in snapshots && trader !in todo && TraderPnl(HistoryOf(snapshots, trader), since, until).Some?
      invariant forall trader :: trader in pnls ==>
                  pnls[trader] == TraderPnl(HistoryOf(snapshots, trader), since, until).value
      decreases |todo|
    {
      var trader :| trader in todo;
      var p := TraderPnl(snapshots[trader], since, until);
      if p.Some? {
        pnls := pnls[trader := p.value];
      }
      todo := todo - {trader};
    }
  }
}
