/** What a bounded deque keeps: `popleft` on overflow keeps the newest entries,
    `pop` on overflow keeps the oldest ones. */
module DropQueues {

  function KeepNewest<T>(queue: seq<T>, max: nat): (kept: seq<T>)
    ensures |kept| == if |queue| <= max then |queue| else max
    ensures kept == queue[|queue| - |kept|..]
  {
    if |queue| <= max then queue else queue[|queue| - max..]
  }

  function KeepOldest<T>(queue: seq<T>, max: nat): (kept: seq<T>)
    ensures |kept| == if |queue| <= max then |queue| else max
    ensures kept == queue[..|kept|]
  {
    if |queue| <= max then queue else queue[..max]
  }

  /** How many entries a queue of `n` loses to the bound. */
  function Lost(n: nat, max: nat): (lost: nat)
    ensures lost <= n
  {
    if n <= max then 0 else n - max
  }

  lemma NewestDrops<T>(queue: seq<T>, max: nat)
    ensures KeepNewest(queue, max) == queue[Lost(|queue|, max)..]
  {
  }

  lemma DropTwice<T>(s: seq<T>, i: nat, j: nat)
    requires i + j <= |s|
    ensures s[i..][j..] == s[i + j..]
  {
  }

  lemma DropFirst<T>(queue: seq<T>, max: nat)
    requires |queue| > max
    ensures KeepNewest(queue[1..], max) == KeepNewest(queue, max)
  {
    assert queue[1..][|queue| - 1 - max..] == queue[|queue| - max..];
  }

  lemma DropLast<T>(queue: seq<T>, max: nat)
    requires |queue| > max
    ensures KeepOldest(queue[..|queue| - 1], max) == KeepOldest(queue, max)
  {
    assert queue[..|queue| - 1][..max] == queue[..max];
  }

  /** `while len(queue) > max: queue.popleft()`. */
  method PopLeftTo<T>(queue: seq<T>, max: nat) returns (kept: seq<T>)
    ensures kept == KeepNewest(queue, max)
  {
    kept := queue;
    while |kept| > max
      invariant KeepNewest(kept, max) == KeepNewest(queue, max)
    {
      DropFirst(kept, max);
      kept := kept[1..];
    }
  }

  // ------------------------------------------------ positions in a longer order

  function Range(lo: nat, hi: nat): (r: seq<nat>)
    requires lo <= hi
    ensures |r| == hi - lo && forall i :: 0 <= i < |r| ==> r[i] == lo + i
    decreases hi - lo
  {
    if lo == hi then [] else Range(lo, hi - 1) + [hi - 1]
  }

  lemma InRange(lo: nat, hi: nat, x: nat)
    requires lo <= hi
    ensures x in Range(lo, hi) <==> lo <= x < hi
  {
    if lo <= x < hi {
      assert Range(lo, hi)[x - lo] == x;
    }
  }

  predicate Increasing(indices: seq<nat>, below: nat) {
    && (forall i :: 0 <= i < |indices| ==> indices[i] < below)
    && (forall i, j :: 0 <= i < j < |indices| ==> indices[i] < indices[j])
  }

  predicate PicksOut<T(==)>(whole: seq<T>, indices: seq<nat>, part: seq<T>) {
    && |indices| == |part|
    && forall i :: 0 <= i < |indices| ==> indices[i] < |whole| && whole[indices[i]] == part[i]
  }

  lemma AppendIncreasing(indices: seq<nat>, below: nat, lo: nat, hi: nat)
    requires Increasing(indices, below) && below <= lo <= hi
    ensures Increasing(indices + Range(lo, hi), hi)
  {
  }

  lemma AppendPicked<T>(whole: seq<T>, indices: seq<nat>, part: seq<T>, lo: nat, hi: nat)
    requires lo <= hi <= |whole| && PicksOut(whole, indices, part)
    ensures PicksOut(whole, indices + Range(lo, hi), part + whole[lo..hi])
  {
  }

  // Appending a run of positions to ordered positions before it.
  lemma AppendRun<T>(whole: seq<T>, indices: seq<nat>, part: seq<T>, lo: nat, hi: nat)
    requires lo <= hi <= |whole| && Increasing(indices, lo) && PicksOut(whole, indices, part)
    ensures Increasing(indices + Range(lo, hi), hi)
    ensures PicksOut(whole, indices + Range(lo, hi), part + whole[lo..hi])
  {
    AppendIncreasing(indices, lo, lo, hi);
    AppendPicked(whole, indices, part, lo, hi);
  }

  lemma NewestIsRun<T>(whole: seq<T>, lo: nat, hi: nat, max: nat)
    requires lo <= hi <= |whole|
    ensures var newest := KeepNewest(whole[lo..hi], max);
            |newest| <= hi - lo && newest == whole[hi - |newest|..hi]
  {
  }

  /** Each number below `n`, once. */
  function Below(n: nat): (once: multiset<nat>)
    ensures forall i: nat :: once[i] == if i < n then 1 else 0
  {
    if n == 0 then multiset{} else Below(n - 1) + multiset{n - 1}
  }
}
