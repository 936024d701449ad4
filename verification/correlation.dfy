/** The correlation step of the key estimator: the circulant matrix of a
    profile (as `scipy.linalg.circulant` builds it), the product of its
    transpose with an input vector divided by two norms, and the first
    index of a maximum (as `np.argmax` returns it). */
module Correlation {
  import opened Vectors

  /** A 12 x 12 matrix given as a sequence of rows. */
  predicate IsSquare12(m: seq<seq<real>>)
  {
    |m| == 12 && forall i :: 0 <= i < 12 ==> |m[i]| == 12
  }

  /** The circulant matrix of `c`: entry `(i, j)` is `c[(i - j) mod 12]`,
      the convention of `scipy.linalg.circulant`. */
  function Circulant(c: seq<real>): (m: seq<seq<real>>)
    requires |c| == 12
    ensures IsSquare12(m)
  {
    seq(12, i requires 0 <= i < 12 => seq(12, j requires 0 <= j < 12 => c[(i - j) % 12]))
  }

  /** Column `j` of a 12 x 12 matrix. */
  function Column(m: seq<seq<real>>, j: int): seq<real>
    requires IsSquare12(m)
    requires 0 <= j < 12
  {
    seq(12, i requires 0 <= i < 12 => m[i][j])
  }

  /** The first column of a circulant matrix is the vector it was built
      from, and column `j` is that vector rotated by `j`: the hypothesis
      "pitch class `j` is the tonic". */
  lemma CirculantColumns(c: seq<real>)
    requires |c| == 12
    ensures Column(Circulant(c), 0) == c
    ensures forall j :: 0 <= j < 12 ==> Column(Circulant(c), j) == Rotate(c, j)
  {
    var m := Circulant(c);
    forall j | 0 <= j < 12 ensures Column(m, j) == Rotate(c, j) {
      assert forall i :: 0 <= i < 12 ==> Column(m, j)[i] == c[(i - j) % 12];
    }
    RotateByMultiple(c, 0);
  }

  /** `weights.T.dot(x) / p_norm / x_norm`: entry `j` is the inner product
      of column `j` with `x`, divided by both norms in turn. */
  function Correlate(m: seq<seq<real>>, x: seq<real>, pNorm: real, xNorm: real): (r: seq<real>)
    requires IsSquare12(m)
    requires |x| == 12
    requires pNorm != 0.0 && xNorm != 0.0
    ensures |r| == 12
  {
    seq(12, j requires 0 <= j < 12 => Dot(Column(m, j), x) / pNorm / xNorm)
  }

  /** Dividing by two numbers in turn is dividing by their product. */
  lemma DivDiv(a: real, p: real, q: real)
    requires p != 0.0 && q != 0.0
    ensures a / p / q == a / (p * q)
  {
  }

  /** Entry `r` of the correlation against a circulant matrix is
      `sum_i p[(i - r) mod 12] * x[i] / (pNorm * xNorm)`. */
  lemma CorrelateCirculant(p: seq<real>, x: seq<real>, pNorm: real, xNorm: real, r: int)
    requires |p| == 12 && |x| == 12
    requires pNorm != 0.0 && xNorm != 0.0
    requires 0 <= r < 12
    ensures Correlate(Circulant(p), x, pNorm, xNorm)[r] == Dot(Rotate(p, r), x) / (pNorm * xNorm)
  {
    CirculantColumns(p);
    DivDiv(Dot(Rotate(p, r), x), pNorm, xNorm);
  }

  /** When the two norms multiply to 12, entry `r` of the correlation
      against a circulant matrix is the inner product over 12. */
  lemma CorrelateOverTwelve(p: seq<real>, x: seq<real>, pNorm: real, xNorm: real, r: int)
    requires |p| == 12 && |x| == 12
    requires pNorm != 0.0 && xNorm != 0.0
    requires pNorm * xNorm == 12.0
    requires 0 <= r < 12
    ensures Correlate(Circulant(p), x, pNorm, xNorm)[r] == Dot(Rotate(p, r), x) / 12.0
  {
    CorrelateCirculant(p, x, pNorm, xNorm, r);
  }

  /** Rotation covariance of the correlation: rotating the input by `k`
      rotates the coefficient vector by `k`, so entry `j` of the new
      coefficients is entry `(j - k) mod 12` of the old ones. */
  lemma CorrelateRotate(p: seq<real>, x: seq<real>, k: int, pNorm: real, xNorm: real)
    requires |p| == 12 && |x| == 12
    requires pNorm != 0.0 && xNorm != 0.0
    ensures Correlate(Circulant(p), Rotate(x, k), pNorm, xNorm)
         == Rotate(Correlate(Circulant(p), x, pNorm, xNorm), k)
  {
    var before := Correlate(Circulant(p), x, pNorm, xNorm);
    var after := Correlate(Circulant(p), Rotate(x, k), pNorm, xNorm);
    forall j | 0 <= j < 12 ensures after[j] == Rotate(before, k)[j] {
      var r := (j - k) % 12;
      CorrelateCirculant(p, Rotate(x, k), pNorm, xNorm, j);
      CorrelateCirculant(p, x, pNorm, xNorm, r);
      RotateCongruent(p, r, j - k);
      RotateCompose(p, j - k, k);
      DotRotate(Rotate(p, j - k), x, k);
    }
  }

  /** A 12-vector of squared norm 12 whose first entry occurs nowhere
      else matches itself, rotated by `r`, with inner product 12, and
      every other rotation of itself with a smaller inner product. */
  lemma SelfMatch(p: seq<real>, r: int, j: int)
    requires |p| == 12 && SumSq(p) == 12.0
    requires forall d :: 1 <= d < 12 ==> p[d] != p[0]
    requires 0 <= r < 12 && 0 <= j < 12
    ensures Dot(Rotate(p, r), Rotate(p, r)) == 12.0
    ensures j != r ==> Dot(Rotate(p, j), Rotate(p, r)) < 12.0
  {
    DotRotate(p, p, r);
    if j != r {
      DotRotate(p, p, j);
      var d := (r - j) % 12;
      RotateAt(p, r, 0);
      assert Rotate(p, r)[r] == p[0];
      assert Rotate(p, j)[r] == p[d];
      DotBelowBound(Rotate(p, j), Rotate(p, r), r);
    }
  }

  /** The first index of a maximal entry among the first `n` entries. */
  function ArgMaxBelow(v: seq<real>, n: int): (k: nat)
    requires 0 < n <= |v|
    ensures k < n
    ensures forall i :: 0 <= i < n ==> v[i] <= v[k]
    ensures forall i :: 0 <= i < k ==> v[i] < v[k]
  {
    if n == 1 then 0
    else
      var k := ArgMaxBelow(v, n - 1);
      if v[n - 1] > v[k] then n - 1 else k
  }

  /** The first index of a maximal entry, as `np.argmax` returns it. */
  function ArgMax(v: seq<real>): (k: nat)
    requires |v| > 0
    ensures k < |v|
    ensures forall i :: 0 <= i < |v| ==> v[i] <= v[k]
    ensures forall i :: 0 <= i < k ==> v[i] < v[k]
  {
    ArgMaxBelow(v, |v|)
  }

  /** A rotation has the same maximum value. */
  lemma MaxRotate(v: seq<real>, k: int)
    requires |v| == 12
    ensures Rotate(v, k)[ArgMax(Rotate(v, k))] == v[ArgMax(v)]
  {
    var w := Rotate(v, k);
    var a, b := ArgMax(v), ArgMax(w);
    RotateAt(v, k, a);
    assert w[b] == v[(b - k) % 12];
  }
}
