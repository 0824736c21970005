/**
 * Class labels: the one-hot ("eye") encoding of a digit label used as the
 * back-propagation target (`_y2i`, `_labels_2_activations`), the `np.argmax`
 * decoding used by prediction, and the accuracy count of evaluation.
 */
module Labels {
  import opened LinAlg
  import opened Wrappers

  /** Number of digit classes: the length of every one-hot vector. */
  const Classes: nat := 10

  /** How Python resolves index `i` into a list of length `n`; None raises IndexError. */
  function PyIndex(i: int, n: nat): (r: Option<nat>)
    ensures r.Some? <==> -(n as int) <= i < n
    ensures r.Some? ==> r.value < n && (r.value == i || r.value == i + n)
  {
    if 0 <= i < n then Some(i as nat)
    else if -(n as int) <= i < 0 then Some((i + n) as nat)
    else None
  }

  /** The vector of length n that is 1 at index k and 0 everywhere else. */
  function Eye(k: nat, n: nat): (e: Vector)
    requires k < n
    ensures |e| == n && e[k] == 1.0
    ensures forall j :: 0 <= j < n && j != k ==> e[j] == 0.0
  {
    seq(n, j => if j == k then 1.0 else 0.0)
  }

  lemma {:induction false} SumOfZeros(n: nat)
    ensures Sum(Zeros(n)) == 0.0
  {
    if n > 0 {
      assert Zeros(n)[..n - 1] == Zeros(n - 1);
      SumOfZeros(n - 1);
    }
  }

  /** Every eye vector sums to exactly 1. */
  lemma {:induction false} EyeSumsToOne(k: nat, n: nat)
    requires k < n
    ensures Sum(Eye(k, n)) == 1.0
  {
    var e := Eye(k, n);
    if k < n - 1 {
      assert e[..n - 1] == Eye(k, n - 1);
      EyeSumsToOne(k, n - 1);
    } else {
      assert e[..n - 1] == Zeros(n - 1);
      SumOfZeros(n - 1);
    }
  }

  /**
   * The one-hot encoding of a label y in [0, 9]: length 10, 1 at index y,
   * 0 at every other index, sum 1, and no other label has the same encoding.
   */
  lemma OneHot(y: nat)
    requires y < Classes
    ensures |Eye(y, Classes)| == Classes
    ensures Eye(y, Classes)[y] == 1.0
    ensures forall j :: 0 <= j < Classes && j != y ==> Eye(y, Classes)[j] == 0.0
    ensures Sum(Eye(y, Classes)) == 1.0
    ensures forall z: nat :: z < Classes && Eye(z, Classes) == Eye(y, Classes) ==> z == y
  {
    EyeSumsToOne(y, Classes);
    forall z: nat | z < Classes && Eye(z, Classes) == Eye(y, Classes) ensures z == y {
      assert Eye(z, Classes)[z] == 1.0;
    }
  }

  /** `np.argmax`: the first index whose entry is maximal. */
  function ArgMax(a: Vector): (k: nat)
    requires |a| > 0
    ensures k < |a|
    ensures forall j :: 0 <= j < |a| ==> a[j] <= a[k]
    ensures forall j :: 0 <= j < k ==> a[j] < a[k]
  {
    if |a| == 1 then 0
    else
      var k := ArgMax(a[..|a| - 1]);
      if a[|a| - 1] > a[k] then |a| - 1 else k
  }

  /** Decoding an encoded label with argmax gives the label back. */
  lemma ArgMaxOfEye(k: nat, n: nat)
    requires k < n
    ensures ArgMax(Eye(k, n)) == k
  {
    var e := Eye(k, n);
    var m := ArgMax(e);
    assert e[k] == 1.0;
    assert e[m] >= 1.0;
  }

  /**
   * `_labels_2_activations`: `np.apply_along_axis(_y2i, 1, labels[:, newaxis])`.
   * It raises on an empty label list (NumPy refuses to apply along an axis
   * with no iterations) and on a label Python cannot use as an index into
   * ten entries; otherwise row i is the eye vector at the resolved index.
   */
  function LabelsToActivations(labels: seq<int>): (r: Option<seq<Vector>>)
    ensures r.Some? <==> |labels| > 0 && forall i :: 0 <= i < |labels| ==> -10 <= labels[i] < 10
    ensures r.Some? ==> |r.value| == |labels|
    ensures r.Some? ==> forall i :: 0 <= i < |labels| ==>
              PyIndex(labels[i], Classes).Some? && r.value[i] == Eye(PyIndex(labels[i], Classes).value, Classes)
  {
    if |labels| == 0 then None
    else if forall i :: 0 <= i < |labels| ==> PyIndex(labels[i], Classes).Some? then
      Some(seq(|labels|, i requires 0 <= i < |labels| => Eye(PyIndex(labels[i], Classes).value, Classes)))
    else None
  }

  /** For labels in [0, 9], one encoded row per label, in order, each decoding back to its label. */
  lemma LabelsRoundTrip(labels: seq<int>)
    requires |labels| > 0
    requires forall i :: 0 <= i < |labels| ==> 0 <= labels[i] < Classes
    ensures LabelsToActivations(labels).Some?
    ensures |LabelsToActivations(labels).value| == |labels|
    ensures forall i :: 0 <= i < |labels| ==>
              LabelsToActivations(labels).value[i] == Eye(labels[i], Classes) &&
              ArgMax(LabelsToActivations(labels).value[i]) == labels[i]
  {
    var rows := LabelsToActivations(labels).value;
    forall i | 0 <= i < |labels| ensures rows[i] == Eye(labels[i], Classes) && ArgMax(rows[i]) == labels[i] {
      ArgMaxOfEye(labels[i], Classes);
    }
  }

  /** Number of the first m samples whose predicted class equals the label. */
  function CountCorrect(classes: seq<nat>, labels: seq<int>, m: nat): (c: nat)
    requires m <= |classes| && m <= |labels|
    ensures c <= m
    ensures c == 0 <==> forall i :: 0 <= i < m ==> classes[i] != labels[i]
    ensures c == m <==> forall i :: 0 <= i < m ==> classes[i] == labels[i]
  {
    if m == 0 then 0
    else CountCorrect(classes, labels, m - 1) + (if classes[m - 1] == labels[m - 1] then 1 else 0)
  }

  /** The fraction of correct predictions among the first m samples. */
  function Accuracy(classes: seq<nat>, labels: seq<int>, m: nat): (acc: real)
    requires 0 < m <= |classes| && m <= |labels|
    ensures 0.0 <= acc <= 1.0
    ensures acc == 1.0 <==> forall i :: 0 <= i < m ==> classes[i] == labels[i]
    ensures acc == 0.0 <==> forall i :: 0 <= i < m ==> classes[i] != labels[i]
  {
    var c := CountCorrect(classes, labels, m);
    FractionBounds(c, m);
    (c as real) / (m as real)
  }

  lemma FractionBounds(c: nat, m: nat)
    requires 0 < m && c <= m
    ensures 0.0 <= (c as real) / (m as real) <= 1.0
    ensures (c as real) / (m as real) == 1.0 <==> c == m
    ensures (c as real) / (m as real) == 0.0 <==> c == 0
  {
  }
}
