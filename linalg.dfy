/**
 * Exact linear algebra over `real`: the whole-array NumPy operations the
 * network uses (element-wise arithmetic, dot products, matrix-vector product,
 * transpose, outer product, sums and means), written out explicitly.
 */
module LinAlg {

  type Vector = seq<real>
  type Matrix = seq<Vector>

  predicate IsMatrix(m: Matrix, rows: nat, cols: nat)
  {
    |m| == rows && forall r :: 0 <= r < |m| ==> |m[r]| == cols
  }

  /** `np.sum` of a vector. */
  function Sum(v: Vector): real
  {
    if |v| == 0 then 0.0 else Sum(v[..|v| - 1]) + v[|v| - 1]
  }

  function Zeros(n: nat): (r: Vector)
    ensures |r| == n && forall i :: 0 <= i < n ==> r[i] == 0.0
  {
    seq(n, _ => 0.0)
  }

  function Add(u: Vector, v: Vector): (r: Vector)
    requires |u| == |v|
    ensures |r| == |u| && forall i :: 0 <= i < |r| ==> r[i] == u[i] + v[i]
  {
    seq(|u|, i requires 0 <= i < |u| => u[i] + v[i])
  }

  function Sub(u: Vector, v: Vector): (r: Vector)
    requires |u| == |v|
    ensures |r| == |u| && forall i :: 0 <= i < |r| ==> r[i] == u[i] - v[i]
  {
    seq(|u|, i requires 0 <= i < |u| => u[i] - v[i])
  }

  /** Element-wise product (`u * v` on two NumPy vectors). */
  function Hadamard(u: Vector, v: Vector): (r: Vector)
    requires |u| == |v|
    ensures |r| == |u| && forall i :: 0 <= i < |r| ==> r[i] == u[i] * v[i]
  {
    seq(|u|, i requires 0 <= i < |u| => u[i] * v[i])
  }

  function Scale(c: real, v: Vector): (r: Vector)
    ensures |r| == |v| && forall i :: 0 <= i < |r| ==> r[i] == c * v[i]
  {
    seq(|v|, i requires 0 <= i < |v| => c * v[i])
  }

  function Dot(u: Vector, v: Vector): real
    requires |u| == |v|
  {
    Sum(Hadamard(u, v))
  }

  /** `w.dot(a)`: one dot product per row of `w`. */
  function MatVec(w: Matrix, a: Vector): (r: Vector)
    requires forall i :: 0 <= i < |w| ==> |w[i]| == |a|
    ensures |r| == |w| && forall i :: 0 <= i < |r| ==> r[i] == Dot(w[i], a)
  {
    seq(|w|, i requires 0 <= i < |w| => Dot(w[i], a))
  }

  /** `w.T` for a matrix with `cols` columns. */
  function Transpose(w: Matrix, cols: nat): (t: Matrix)
    requires forall i :: 0 <= i < |w| ==> |w[i]| == cols
    ensures IsMatrix(t, cols, |w|)
    ensures forall c, r :: 0 <= c < cols && 0 <= r < |w| ==> t[c][r] == w[r][c]
  {
    seq(cols, c requires 0 <= c < cols => seq(|w|, r requires 0 <= r < |w| => w[r][c]))
  }

  /**
   * `np.tile(a, (len(e), 1)) * e[:, newaxis]`: row r is `a` scaled by `e[r]`,
   * so the result has |e| rows and |a| columns.
   */
  function Outer(e: Vector, a: Vector): (m: Matrix)
    ensures IsMatrix(m, |e|, |a|)
    ensures forall r, c :: 0 <= r < |e| && 0 <= c < |a| ==> m[r][c] == e[r] * a[c]
  {
    seq(|e|, r requires 0 <= r < |e| => seq(|a|, c requires 0 <= c < |a| => e[r] * a[c]))
  }

  function ZeroMatrix(rows: nat, cols: nat): (m: Matrix)
    ensures IsMatrix(m, rows, cols)
    ensures forall r, c :: 0 <= r < rows && 0 <= c < cols ==> m[r][c] == 0.0
  {
    seq(rows, _ => Zeros(cols))
  }

  function MatAdd(m: Matrix, n: Matrix, rows: nat, cols: nat): (s: Matrix)
    requires IsMatrix(m, rows, cols) && IsMatrix(n, rows, cols)
    ensures IsMatrix(s, rows, cols)
    ensures forall r, c :: 0 <= r < rows && 0 <= c < cols ==> s[r][c] == m[r][c] + n[r][c]
  {
    seq(rows, r requires 0 <= r < rows => Add(m[r], n[r]))
  }

  function MatSub(m: Matrix, n: Matrix, rows: nat, cols: nat): (s: Matrix)
    requires IsMatrix(m, rows, cols) && IsMatrix(n, rows, cols)
    ensures IsMatrix(s, rows, cols)
    ensures forall r, c :: 0 <= r < rows && 0 <= c < cols ==> s[r][c] == m[r][c] - n[r][c]
  {
    seq(rows, r requires 0 <= r < rows => Sub(m[r], n[r]))
  }

  function MatScale(k: real, m: Matrix, rows: nat, cols: nat): (s: Matrix)
    requires IsMatrix(m, rows, cols)
    ensures IsMatrix(s, rows, cols)
    ensures forall r, c :: 0 <= r < rows && 0 <= c < cols ==> s[r][c] == k * m[r][c]
  {
    seq(rows, r requires 0 <= r < rows => Scale(k, m[r]))
  }

  /** Entry-wise sum of a list of equally shaped matrices. */
  function MatSum(ms: seq<Matrix>, rows: nat, cols: nat): (s: Matrix)
    requires forall j :: 0 <= j < |ms| ==> IsMatrix(ms[j], rows, cols)
    ensures IsMatrix(s, rows, cols)
  {
    if |ms| == 0 then ZeroMatrix(rows, cols)
    else MatAdd(MatSum(ms[..|ms| - 1], rows, cols), ms[|ms| - 1], rows, cols)
  }

  /** `np.average(ms, 0)` for a non-empty list of equally shaped matrices. */
  function MatMean(ms: seq<Matrix>, rows: nat, cols: nat): (s: Matrix)
    requires |ms| > 0
    requires forall j :: 0 <= j < |ms| ==> IsMatrix(ms[j], rows, cols)
    ensures IsMatrix(s, rows, cols)
  {
    MatScale(1.0 / (|ms| as real), MatSum(ms, rows, cols), rows, cols)
  }

  /** Entry-wise sum of a list of vectors of length n. */
  function VecSum(vs: seq<Vector>, n: nat): (s: Vector)
    requires forall j :: 0 <= j < |vs| ==> |vs[j]| == n
    ensures |s| == n
  {
    if |vs| == 0 then Zeros(n) else Add(VecSum(vs[..|vs| - 1], n), vs[|vs| - 1])
  }

  /** `np.average(vs, 0)` for a non-empty list of vectors of length n. */
  function VecMean(vs: seq<Vector>, n: nat): (s: Vector)
    requires |vs| > 0
    requires forall j :: 0 <= j < |vs| ==> |vs[j]| == n
    ensures |s| == n
  {
    Scale(1.0 / (|vs| as real), VecSum(vs, n))
  }

  /** A sum of non-negative entries is non-negative, and zero exactly when every entry is zero. */
  lemma {:induction false} SumNonNegative(w: Vector)
    requires forall i :: 0 <= i < |w| ==> w[i] >= 0.0
    ensures Sum(w) >= 0.0
    ensures Sum(w) == 0.0 <==> forall i :: 0 <= i < |w| ==> w[i] == 0.0
  {
    if |w| > 0 {
      var n := |w|;
      var init := w[..n - 1];
      assert forall i :: 0 <= i < n - 1 ==> init[i] == w[i];
      SumNonNegative(init);
    }
  }

  lemma PositiveProduct(a: real, b: real, p: real)
    requires p == a * b && a > 0.0 && b > 0.0
    ensures p > 0.0
  {
  }

  lemma NegativeProduct(a: real, b: real, p: real)
    requires p == a * b && a < 0.0 && b < 0.0
    ensures p > 0.0
  {
    PositiveProduct(0.0 - a, 0.0 - b, (0.0 - a) * (0.0 - b));
  }

  /** A square `p == x * x` is non-negative and zero exactly when x is. */
  lemma Square(x: real, p: real)
    requires p == x * x
    ensures p >= 0.0
    ensures x == 0.0 <==> p == 0.0
  {
    if x > 0.0 {
      PositiveProduct(x, x, p);
    } else if x < 0.0 {
      NegativeProduct(x, x, p);
    }
  }

  /** A sum of squares is non-negative, and zero exactly when every entry is zero. */
  lemma SumOfSquares(v: Vector)
    ensures Sum(Hadamard(v, v)) >= 0.0
    ensures Sum(Hadamard(v, v)) == 0.0 <==> forall i :: 0 <= i < |v| ==> v[i] == 0.0
  {
    var w := Hadamard(v, v);
    Squares(v, w);
    SumNonNegative(w);
  }

  /** Entry-wise squares are non-negative, and zero exactly where the entry is. */
  lemma Squares(v: Vector, w: Vector)
    requires |w| == |v| && forall i :: 0 <= i < |v| ==> w[i] == v[i] * v[i]
    ensures forall i :: 0 <= i < |v| ==> w[i] >= 0.0 && (v[i] == 0.0 <==> w[i] == 0.0)
  {
    forall i | 0 <= i < |v| ensures w[i] >= 0.0 && (v[i] == 0.0 <==> w[i] == 0.0) {
      Square(v[i], w[i]);
    }
  }

  /** The sum of a one-element list of matrices is that matrix. */
  lemma MatSumSingleton(m: Matrix, rows: nat, cols: nat)
    requires IsMatrix(m, rows, cols)
    ensures MatSum([m], rows, cols) == m
  {
    var s := MatSum([m], rows, cols);
    var z := ZeroMatrix(rows, cols);
    assert [m][..0] == [];
    assert MatSum([m][..0], rows, cols) == z;
    assert s == MatAdd(z, m, rows, cols);
    forall r | 0 <= r < rows ensures s[r] == m[r] {
      forall c | 0 <= c < cols ensures s[r][c] == m[r][c] {
        assert s[r][c] == z[r][c] + m[r][c];
        assert z[r][c] == 0.0;
      }
      assert |s[r]| == cols && |m[r]| == cols;
    }
    assert |s| == |m|;
  }

  /** The mean of a one-element list of matrices is that matrix. */
  lemma MatMeanSingleton(m: Matrix, rows: nat, cols: nat)
    requires IsMatrix(m, rows, cols)
    ensures MatMean([m], rows, cols) == m
  {
    MatSumSingleton(m, rows, cols);
    var s := MatMean([m], rows, cols);
    assert s == MatScale(1.0, m, rows, cols);
    forall r | 0 <= r < rows ensures s[r] == m[r] {
      forall c | 0 <= c < cols ensures s[r][c] == m[r][c] {
        assert s[r][c] == 1.0 * m[r][c];
      }
      assert |s[r]| == cols && |m[r]| == cols;
    }
    assert |s| == |m|;
  }

  /** The mean of a one-element list of vectors is that vector. */
  lemma VecMeanSingleton(v: Vector, n: nat)
    requires |v| == n
    ensures VecMean([v], n) == v
  {
    assert [v][..0] == [];
    var s := VecSum([v], n);
    var z := Zeros(n);
    assert VecSum([v][..0], n) == z;
    assert s == Add(z, v);
    forall i | 0 <= i < n ensures s[i] == v[i] {
      assert s[i] == z[i] + v[i];
    }
    assert s == v;
    var mean := VecMean([v], n);
    assert mean == Scale(1.0, s);
    forall i | 0 <= i < n ensures mean[i] == v[i] {
      assert mean[i] == 1.0 * s[i];
    }
    assert |mean| == |v|;
  }
}
