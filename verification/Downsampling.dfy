/** Which rows of an equity series the read API returns (arena/live/read_api.py):
    every stride-th row and the last, cut to a limit. Rows are numbered from 0. */
module Downsampling {
  import DropQueues

  /** Ceiling of rows over limit. */
  function Stride(rows: nat, limit: nat): nat
    requires limit >= 1
  {
    if rows > limit then (rows + limit - 1) / limit else 1
  }

  predicate Sampled(rows: nat, stride: nat, i: nat) {
    stride <= 1 || i % stride == 0 || i == rows - 1
  }

  /** The sampled rows among the first `n`, in order. */
  function Sample(rows: nat, stride: nat, n: nat): seq<nat> {
    if n == 0 then []
    else Sample(rows, stride, n - 1) + (if Sampled(rows, stride, n - 1) then [n - 1] else [])
  }

  /** The query with its row limit of one more than asked for. */
  function Fetched(rows: nat, limit: nat): seq<nat>
    requires limit >= 1
  {
    var sample := Sample(rows, Stride(rows, limit), rows);
    if |sample| <= limit + 1 then sample else sample[..limit + 1]
  }

  /** The rows returned. */
  function Kept(rows: nat, limit: nat): seq<nat>
    requires limit >= 1
  {
    Trim(Fetched(rows, limit), limit)
  }

  /** One row too many gives up the one before the last. */
  function Trim(fetched: seq<nat>, limit: nat): seq<nat>
    requires limit >= 1
  {
    if |fetched| > limit then fetched[..limit - 1] + [fetched[|fetched| - 1]] else fetched
  }

  // ------------------------------------------------------------- arithmetic

  /** The least stride at which the rows fit the limit. */
  lemma StrideCovers(rows: nat, limit: nat)
    requires limit >= 1
    ensures Stride(rows, limit) >= 1 && Stride(rows, limit) * limit >= rows
    ensures rows > 0 ==> (Stride(rows, limit) - 1) * limit < rows
  {
    if rows > limit {
      var stride := (rows + limit - 1) / limit;
      assert stride * limit + (rows + limit - 1) % limit == rows + limit - 1;
      assert stride == 0 ==> stride * limit == 0;
      assert (stride - 1) * limit == stride * limit - limit;
    }
  }

  lemma MulMono(a: int, b: int, k: nat)
    requires a <= b
    ensures a * k <= b * k
  {
    assert (b - a) * k >= 0;
  }

  /** The only multiple above the previous one and up to the next is the next. */
  lemma MultipleBetween(n: nat, q: nat, stride: nat)
    requires stride >= 1 && (q - 1) * stride < n <= q * stride
    ensures n % stride == 0 <==> n == q * stride
  {
    var k := n / stride;
    assert n == k * stride + n % stride;
    assert (q + 1) * stride == q * stride + stride;
    assert (q - 1) * stride == q * stride - stride;
    if k < q {
      MulMono(k, q - 1, stride);
    } else if k > q {
      MulMono(q + 1, k, stride);
    }
  }

  // --------------------------------------------------------- what is sampled

  predicate Multiples(sample: seq<nat>, stride: nat) {
    forall i :: 0 <= i < |sample| ==> sample[i] == i * stride
  }

  lemma {:induction false} SampleIsMultiples(rows: nat, stride: nat, n: nat)
    requires stride >= 1 && n < rows
    ensures var sample := Sample(rows, stride, n);
            Multiples(sample, stride) && (|sample| - 1) * stride < n <= |sample| * stride
  {
    if n > 0 {
      SampleIsMultiples(rows, stride, n - 1);
      var before := Sample(rows, stride, n - 1);
      var q: nat := |before|;
      MultipleBetween(n - 1, q, stride);
      assert (q + 1) * stride == q * stride + stride;
      if stride == 1 {
        assert n - 1 == q * stride;
      }
    }
  }

  /** Multiples of the stride and then the last row, at most one row too many. */
  lemma SampleShape(rows: nat, limit: nat)
    requires limit >= 1 && rows >= 1
    ensures var stride, sample := Stride(rows, limit), Sample(rows, Stride(rows, limit), rows);
            && 1 <= |sample| <= limit + 1
            && sample[|sample| - 1] == rows - 1
            && Multiples(sample[..|sample| - 1], stride)
            && (|sample| - 2) * stride < rows - 1 <= (|sample| - 1) * stride
            && rows - 1 < limit * stride
  {
    var stride := Stride(rows, limit);
    StrideCovers(rows, limit);
    SampleIsMultiples(rows, stride, rows - 1);
    var before := Sample(rows, stride, rows - 1);
    assert Sample(rows, stride, rows) == before + [rows - 1];
    if |before| > limit {
      MulMono(limit, |before| - 1, stride);
    }
  }

  // ----------------------------------------------------------- the main result

  predicate NoGap(kept: seq<nat>, width: nat) { forall i :: 0 < i < |kept| ==> kept[i] - kept[i - 1] < width }

  /** Multiples followed by a larger last row. */
  lemma LadderShape(kept: seq<nat>, stride: nat, last: nat)
    requires |kept| >= 1 && stride >= 1 && kept[|kept| - 1] == last
    requires Multiples(kept[..|kept| - 1], stride)
    requires (|kept| - 2) * stride < last < |kept| * stride || |kept| == 1
    ensures DropQueues.Increasing(kept, last + 1) && NoGap(kept, 2 * stride)
  {
    var k := |kept| - 1;
    assert forall i :: 0 <= i < k ==> kept[i] == kept[..k][i];
    forall i, j | 0 <= i < j < |kept|
      ensures kept[i] < kept[j]
    {
      if j < k {
        MulMono(i + 1, j, stride);
        assert (i + 1) * stride == i * stride + stride;
      } else {
        MulMono(i, k - 1, stride);
      }
    }
    forall i | 0 < i < |kept|
      ensures kept[i] - kept[i - 1] < 2 * stride
    {
      assert i * stride == (i - 1) * stride + stride;
      assert (i + 1) * stride == i * stride + stride;
    }
  }

  /** For every row count and limit: at most the limit, strictly increasing, the
      last row always in, the first too when the limit is at least two, everything
      when nothing needs cutting, and then no gap of two strides. */
  lemma KeptRows(rows: nat, limit: nat)
    requires limit >= 1
    ensures var kept, stride := Kept(rows, limit), Stride(rows, limit);
            && |kept| <= limit && DropQueues.Increasing(kept, rows)
            && (rows >= 1 ==> kept != [] && kept[|kept| - 1] == rows - 1)
            && (rows >= 1 && limit >= 2 ==> kept[0] == 0 && NoGap(kept, 2 * stride))
            && (rows <= limit ==> |kept| == rows)
  {
    if rows >= 1 {
      SampleShape(rows, limit);
      KeptShape(rows, limit);
      if rows <= limit {
        SmallIsWhole(rows, rows);
      }
    }
  }

  lemma TrimShape(sample: seq<nat>, limit: nat, stride: nat, last: nat)
    requires limit >= 1 && stride >= 1 && 1 <= |sample| <= limit + 1
    requires sample[|sample| - 1] == last && Multiples(sample[..|sample| - 1], stride)
    requires (|sample| - 2) * stride < last <= (|sample| - 1) * stride && last < limit * stride
    ensures var kept := Trim(sample, limit);
            && 1 <= |kept| <= limit && kept[|kept| - 1] == last
            && Multiples(kept[..|kept| - 1], stride)
            && (|kept| == 1 || (|kept| - 2) * stride < last < |kept| * stride)
            && (limit >= 2 && last > 0 ==> |kept| >= 2)
  {
    var kept := Trim(sample, limit);
    if |sample| == limit + 1 {
      assert kept[..|kept| - 1] == sample[..|sample| - 1][..limit - 1];
      MulMono(|kept| - 2, |sample| - 2, stride);
    } else {
      assert |kept| * stride == (|kept| - 1) * stride + stride;
      if |sample| == 1 {
        assert last <= 0 * stride;
      }
    }
  }

  lemma KeptShape(rows: nat, limit: nat)
    requires limit >= 1 && rows >= 1
    ensures var kept, stride := Kept(rows, limit), Stride(rows, limit);
            && 1 <= |kept| <= limit && kept[|kept| - 1] == rows - 1
            && DropQueues.Increasing(kept, rows) && (limit >= 2 ==> kept[0] == 0 && NoGap(kept, 2 * stride))
  {
    SampleShape(rows, limit);
    StrideCovers(rows, limit);
    var kept, stride := Kept(rows, limit), Stride(rows, limit);
    TrimShape(Sample(rows, stride, rows), limit, stride, rows - 1);
    LadderShape(kept, stride, rows - 1);
    if |kept| >= 2 {
      assert kept[..|kept| - 1][0] == 0 * stride;
    }
  }

  lemma {:induction false} SmallIsWhole(rows: nat, n: nat)
    ensures |Sample(rows, 1, n)| == n
  {
    if n > 0 {
      SmallIsWhole(rows, n - 1);
    }
  }
}
