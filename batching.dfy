/**
 * Splitting the (already shuffled) training pairs into mini-batches
 * (`SGD`, net.py lines 103-109): start indices every `batch_size`, the last
 * start popped off as the remainder batch when the size is not a multiple.
 */
module Batching {
  import opened Seqs
  import opened Wrappers

  function Min(a: int, b: int): int { if a <= b then a else b }

  /** The number of batches, ceil(n / b). */
  function CeilDiv(n: nat, b: nat): nat
    requires b > 0
  {
    (n + b - 1) / b
  }

  /** Python's `s[i:j]` for 0 <= i <= j: the bounds are clamped to the length. */
  function PySlice<T>(s: seq<T>, i: nat, j: nat): (r: seq<T>)
    requires i <= j
  {
    s[Min(i, |s|)..Min(j, |s|)]
  }

  lemma MulMonotone(a: nat, c: nat, b: nat)
    ensures a <= c ==> a * b <= c * b
  {
  }

  /** Quotient and remainder are unique. */
  lemma DivUnique(x: nat, b: nat, q: nat, r: nat)
    requires b > 0 && x == q * b + r && r < b
    ensures x / b == q && x % b == r
  {
    var q', r' := x / b, x % b;
    assert x == q' * b + r';
    assert (q + 1) * b == q * b + b;
    assert (q' + 1) * b == q' * b + b;
    MulMonotone(q + 1, q', b);
    MulMonotone(q' + 1, q, b);
  }

  lemma CeilDivFacts(n: nat, b: nat)
    requires b > 0
    ensures n == (n / b) * b + n % b
    ensures n % b == 0 ==> CeilDiv(n, b) == n / b
    ensures n % b != 0 ==> CeilDiv(n, b) == n / b + 1
  {
    var q, r := n / b, n % b;
    assert n == q * b + r;
    if r == 0 {
      DivUnique(n + b - 1, b, q, b - 1);
    } else {
      assert n + b - 1 == (q + 1) * b + (r - 1);
      DivUnique(n + b - 1, b, q + 1, r - 1);
    }
  }

  /** Every start index of a full batch leaves room for b items. */
  lemma FullBatchFits(n: nat, b: nat, k: nat)
    requires b > 0 && k < n / b
    ensures k * b + b <= n
  {
    CeilDivFacts(n, b);
    assert k * b + b == (k + 1) * b;
    MulMonotone(k + 1, n / b, b);
  }

  /** When b does not divide n, the last start index (n / b) * b leaves fewer than b items. */
  lemma RemainderStart(n: nat, b: nat)
    requires b > 0 && n % b != 0
    ensures (n / b) * b < n < (n / b) * b + b
    ensures n - (n / b) * b == n % b
  {
    CeilDivFacts(n, b);
  }

  /** The ceil(n / b) batches cover all n items. */
  lemma CeilCovers(n: nat, b: nat)
    requires b > 0
    ensures CeilDiv(n, b) * b >= n
  {
    CeilDivFacts(n, b);
    if n % b != 0 {
      Step(n / b + 1, b);
    }
  }

  lemma StartBelow(n: nat, b: nat, k: nat)
    requires b > 0 && k < CeilDiv(n, b)
    ensures k * b < n
  {
    CeilDivFacts(n, b);
    if n % b == 0 {
      FullBatchFits(n, b, k);
    } else {
      RemainderStart(n, b);
      MulMonotone(k, n / b, b);
    }
  }

  function Start(k: nat, b: nat): nat { k * b }

  /** `[i for i in range(0, n, b)]`. */
  function StartIndices(n: nat, b: nat): (s: seq<nat>)
    requires b > 0
    ensures |s| == CeilDiv(n, b)
    ensures forall k :: 0 <= k < |s| ==> s[k] == k * b && s[k] < n
  {
    var c := CeilDiv(n, b);
    var s := seq(c, k requires 0 <= k < c => Start(k, b));
    assert forall k :: 0 <= k < c ==> s[k] == k * b && s[k] < n by {
      forall k | 0 <= k < c ensures s[k] == k * b && s[k] < n {
        StartBelow(n, b, k);
      }
    }
    s
  }

  /**
   * The start indices left after lines 103-106, and `last_batch`: when b
   * does not divide |data| the last start index is popped and `last_batch`
   * is the slice from it to the end; otherwise it stays None.
   */
  datatype Split<T> = Split(starts: seq<nat>, lastBatch: Option<seq<T>>)

  function SplitStarts<T>(data: seq<T>, b: nat): (s: Split<T>)
    requires b > 0
    ensures |data| % b == 0 ==> s == Split(StartIndices(|data|, b), None)
    ensures |data| % b != 0 ==>
              |StartIndices(|data|, b)| > 0 && s.starts == StartIndices(|data|, b)[..|StartIndices(|data|, b)| - 1] &&
              s.lastBatch == Some(data[StartIndices(|data|, b)[|StartIndices(|data|, b)| - 1]..]) &&
              |s.lastBatch.value| > 0
  {
    var starts := StartIndices(|data|, b);
    if |data| % b != 0 then Split(starts[..|starts| - 1], Some(data[starts[|starts| - 1]..]))
    else Split(starts, None)
  }

  /** Line 107: `[train_data[i:i+b] for i in starts]`. */
  function Slices<T>(data: seq<T>, starts: seq<nat>, b: nat): (r: seq<seq<T>>)
    ensures |r| == |starts| && forall k :: 0 <= k < |r| ==> r[k] == PySlice(data, starts[k], starts[k] + b)
  {
    seq(|starts|, k requires 0 <= k < |starts| => PySlice(data, starts[k], starts[k] + b))
  }

  /**
   * The batches of `data` for batch size b > 0, as lines 103-109 intend:
   * the slices of line 107, followed by `last_batch` whenever there is one.
   */
  function Batches<T>(data: seq<T>, b: nat): (r: seq<seq<T>>)
    requires b > 0
  {
    var s := SplitStarts(data, b);
    var batches := Slices(data, s.starts, b);
    if s.lastBatch.Some? then batches + [s.lastBatch.value] else batches
  }

  /**
   * Python's truth test of a slice of `rows` rows of the two-column NumPy
   * object array that holds the training pairs (line 100): it has
   * `2 * rows` entries; an empty array is false, and an array of more than
   * one entry raises ValueError (None), its truth value being ambiguous.
   */
  function PairRowsTruth(rows: nat): (r: Option<bool>)
  {
    var entries := 2 * rows;
    if entries == 0 then Some(false) else None
  }

  /** `if last_batch:` (line 108): None is false, a slice is tested as a NumPy array. */
  function LastBatchTruth<T>(lastBatch: Option<seq<T>>): (r: Option<bool>)
  {
    if lastBatch.None? then Some(false) else PairRowsTruth(|lastBatch.value|)
  }

  /**
   * Lines 103-109 as written: the same start indices, `last_batch` and
   * slices as the intended partition, but the remainder is appended only
   * after the truth test of line 108, and a None from that test raises.
   */
  function BatchesAsWritten<T>(data: seq<T>, b: nat): (r: Option<seq<seq<T>>>)
    requires b > 0
  {
    var s := SplitStarts(data, b);
    var batches := Slices(data, s.starts, b);
    var truth := LastBatchTruth(s.lastBatch);
    if truth.None? then None
    else if truth.value && s.lastBatch.Some? then Some(batches + [s.lastBatch.value])
    else Some(batches)
  }

  /**
   * Batching for any integer batch size: `range(0, n, 0)` raises for 0; a
   * negative size gives no start indices, so the remainder `pop()` raises
   * unless the Python remainder `n % batch_size` is 0, leaving no batches.
   */
  function MakeBatches<T>(data: seq<T>, batchSize: int): (r: Option<seq<seq<T>>>)
    ensures batchSize > 0 ==> r == Some(Batches(data, batchSize))
    ensures batchSize == 0 ==> r.None?
    ensures batchSize < 0 ==> (r.Some? <==> |data| % -batchSize == 0) && (r.Some? ==> r.value == [])
  {
    if batchSize > 0 then Some(Batches(data, batchSize))
    else if batchSize == 0 then None
    else if |data| % -batchSize == 0 then Some([])
    else None
  }

  /** There are ceil(n / b) batches. */
  lemma BatchCount<T>(data: seq<T>, b: nat)
    requires b > 0
    ensures |Batches(data, b)| == CeilDiv(|data|, b)
  {
    CeilDivFacts(|data|, b);
  }

  /** There are no batches exactly when there is no data. */
  lemma BatchesEmpty<T>(data: seq<T>, b: nat)
    requires b > 0
    ensures |Batches(data, b)| == 0 <==> |data| == 0
  {
    BatchCount(data, b);
    CeilDivFacts(|data|, b);
    if |data| > 0 && |data| % b == 0 {
      assert |data| / b > 0;
    }
  }

  /** A batch before the remainder is the full slice `data[k*b : k*b + b]`. */
  lemma FullBatchAt<T>(data: seq<T>, b: nat, k: nat)
    requires b > 0 && k < |data| / b
    ensures k < |Batches(data, b)| && k * b + b <= |data|
    ensures Batches(data, b)[k] == data[k * b..k * b + b]
  {
    BatchCount(data, b);
    FullBatchFits(|data|, b, k);
    CeilDivFacts(|data|, b);
    assert Batches(data, b)[k] == PySlice(data, k * b, k * b + b);
  }

  /** When b does not divide n, the last batch, number q = n / b, is the remainder `data[q*b:]`. */
  lemma RemainderBatchAt<T>(data: seq<T>, b: nat, q: nat)
    requires b > 0 && |data| % b != 0 && q == |data| / b
    ensures q < |Batches(data, b)| && q * b < |data|
    ensures Batches(data, b)[q] == data[q * b..]
  {
    BatchCount(data, b);
    RemainderStart(|data|, b);
    CeilDivFacts(|data|, b);
  }

  /** Batch k is `data[k*b : min((k+1)*b, n)]`, and there are ceil(n / b) batches. */
  lemma BatchAt<T>(data: seq<T>, b: nat, k: nat)
    requires b > 0
    ensures |Batches(data, b)| == CeilDiv(|data|, b)
    ensures k < CeilDiv(|data|, b) ==>
              k * b < |data| && Batches(data, b)[k] == data[k * b..Min(k * b + b, |data|)]
  {
    var n := |data|;
    BatchCount(data, b);
    if k < CeilDiv(n, b) {
      StartBelow(n, b, k);
      CeilDivFacts(n, b);
      if n % b != 0 && k == n / b {
        RemainderBatchAt(data, b, k);
        RemainderStart(n, b);
      } else {
        FullBatchAt(data, b, k);
      }
    }
  }

  lemma Step(m: nat, b: nat)
    requires m > 0
    ensures (m - 1) * b + b == m * b
  {
  }

  lemma PrefixSplit<T>(s: seq<T>, i: nat, j: nat)
    requires i <= j <= |s|
    ensures s[..i] + s[i..j] == s[..j]
  {
  }

  /** Concatenating the first m batches gives the first min(m*b, n) items. */
  lemma {:induction false} ConcatPrefix<T>(data: seq<T>, b: nat, m: nat)
    requires b > 0 && m <= CeilDiv(|data|, b)
    ensures Concat(Batches(data, b)[..m]) == data[..Min(m * b, |data|)]
  {
    var r := Batches(data, b);
    BatchCount(data, b);
    if m > 0 {
      ConcatPrefix(data, b, m - 1);
      BatchAt(data, b, m - 1);
      StartBelow(|data|, b, m - 1);
      Step(m, b);
      var lo, hi := (m - 1) * b, Min(m * b, |data|);
      assert Min(lo, |data|) == lo;
      assert r[..m][..m - 1] == r[..m - 1];
      assert Concat(r[..m]) == Concat(r[..m - 1]) + r[m - 1];
      assert r[m - 1] == data[lo..hi];
      PrefixSplit(data, lo, hi);
    }
  }

  /** Concatenating the batches in order gives back the input exactly: nothing dropped or repeated. */
  lemma BatchesConcat<T>(data: seq<T>, b: nat)
    requires b > 0
    ensures Concat(Batches(data, b)) == data
  {
    var r := Batches(data, b);
    BatchAt(data, b, 0);
    ConcatPrefix(data, b, |r|);
    CeilCovers(|data|, b);
    assert r[..|r|] == r;
    assert data[..|data|] == data;
  }

  /** Every batch is non-empty and holds at most b items; all but the last hold exactly b. */
  lemma BatchSizes<T>(data: seq<T>, b: nat)
    requires b > 0
    ensures forall k :: 0 <= k < |Batches(data, b)| ==> 0 < |Batches(data, b)[k]| <= b
    ensures forall k :: 0 <= k < |Batches(data, b)| - 1 ==> |Batches(data, b)[k]| == b
  {
    var r := Batches(data, b);
    BatchAt(data, b, 0);
    forall k | 0 <= k < |r| ensures 0 < |r[k]| <= b && (k < |r| - 1 ==> |r[k]| == b) {
      BatchAt(data, b, k);
      if k < |r| - 1 {
        BatchAt(data, b, k + 1);
        Step(k + 1, b);
      }
    }
  }

  /** Every item of every batch is an item of the input. */
  lemma BatchMembers<T>(data: seq<T>, b: nat)
    requires b > 0
    ensures forall k, j :: 0 <= k < |Batches(data, b)| && 0 <= j < |Batches(data, b)[k]| ==>
              Batches(data, b)[k][j] in data
  {
    var r := Batches(data, b);
    BatchAt(data, b, 0);
    forall k, j | 0 <= k < |r| && 0 <= j < |r[k]| ensures r[k][j] in data {
      BatchAt(data, b, k);
      assert r[k][j] == data[k * b + j];
    }
  }

  /** The last batch holds n mod b items when that is nonzero, and b items otherwise. */
  lemma LastBatch<T>(data: seq<T>, b: nat)
    requires b > 0 && |data| > 0
    ensures |Batches(data, b)| > 0
    ensures |data| % b != 0 ==> |Batches(data, b)[|Batches(data, b)| - 1]| == |data| % b
    ensures |data| % b == 0 ==> |Batches(data, b)[|Batches(data, b)| - 1]| == b
  {
    var n := |data|;
    CeilDivFacts(n, b);
    var k := CeilDiv(n, b) - 1;
    BatchAt(data, b, k);
    if n % b != 0 {
      RemainderStart(n, b);
    } else {
      assert k + 1 == n / b;
      Step(k + 1, b);
    }
  }

  /** A batch size equal to the data size gives one batch, the whole input. */
  lemma OneBatch<T>(data: seq<T>)
    requires |data| > 0
    ensures Batches(data, |data|) == [data]
  {
    var n := |data|;
    DivUnique(n, n, 1, 0);
    CeilDivFacts(n, n);
    BatchAt(data, n, 0);
    var r := Batches(data, n);
    assert |r| == 1;
    assert r[0] == data[0..n];
    assert data[0..n] == data;
  }

  /** A batch size of 1 gives n batches of one item each, in order. */
  lemma SingletonBatches<T>(data: seq<T>)
    ensures |Batches(data, 1)| == |data|
    ensures forall k :: 0 <= k < |data| ==> Batches(data, 1)[k] == [data[k]]
  {
    BatchAt(data, 1, 0);
    forall k | 0 <= k < |data| ensures Batches(data, 1)[k] == [data[k]] {
      BatchAt(data, 1, k);
    }
  }

  /** Line 108 as written fails on three items in batches of two, where the intended partition has two batches. */
  lemma AsWrittenRaisesOnRemainder()
    ensures BatchesAsWritten([1, 2, 3], 2).None?
    ensures Batches([1, 2, 3], 2) == [[1, 2], [3]]
  {
    var data := [1, 2, 3];
    BatchAt(data, 2, 0);
    BatchAt(data, 2, 1);
    DivUnique(4, 2, 2, 0);
    var r := Batches(data, 2);
    assert |r| == 2;
    assert r[0] == data[0..2] == [1, 2];
    assert r[1] == data[2..3] == [3];
  }

  /** As written, the batching succeeds exactly when b divides the data size, and then agrees with the intended one. */
  lemma AsWrittenAgreesWhenDivisible<T>(data: seq<T>, b: nat)
    requires b > 0
    ensures BatchesAsWritten(data, b).Some? <==> |data| % b == 0
    ensures BatchesAsWritten(data, b).Some? ==> BatchesAsWritten(data, b).value == Batches(data, b)
  {
  }
}
