/** Population statistics on real vectors, as `scipy.stats.zscore` and
    `scipy.linalg.norm` compute them. Dafny has no square root, so the
    square root enters as a parameter `sqrt` that must satisfy IsSqrt. */
module Statistics {
  import opened Vectors

  /** Arithmetic mean. */
  function Mean(x: seq<real>): real
    requires |x| > 0
  {
    Sum(x) / (|x| as real)
  }

  /** Each entry minus the mean. */
  function Deviations(x: seq<real>): seq<real>
    requires |x| > 0
  {
    seq(|x|, i requires 0 <= i < |x| => x[i] - Mean(x))
  }

  /** Population variance: the mean squared deviation (divisor `n`, not
      `n - 1`, as `zscore` uses by default). */
  function Variance(x: seq<real>): real
    requires |x| > 0
  {
    SumSq(Deviations(x)) / (|x| as real)
  }

  /** Some entry differs from the first, i.e. the vector is not flat. */
  predicate NonConstant(x: seq<real>)
  {
    exists i :: 0 <= i < |x| && x[i] != x[0]
  }

  /** `r` is the non-negative square root of `v`. */
  predicate IsRoot(r: real, v: real)
  {
    0.0 <= r && r * r == v
  }

  /** `sqrt` returns the non-negative square root of every non-negative
      real: the behaviour the model assumes of numpy's square root. */
  ghost predicate IsSqrt(sqrt: real -> real)
  {
    forall v :: 0.0 <= v ==> IsRoot(sqrt(v), v)
  }

  /** Dividing by `n` and multiplying back by `n` is the identity. */
  lemma DivMul(a: real, n: real)
    requires n != 0.0
    ensures (a / n) * n == a
  {
  }

  /** Multiplying by `n` and dividing back by `n` is the identity. */
  lemma MulDivCancel(a: real, n: real)
    requires n != 0.0
    ensures (n * a) / n == a
  {
  }

  /** A vector whose every entry is `c` has mean `c`. */
  lemma MeanOfConstant(x: seq<real>, c: real)
    requires |x| > 0
    requires forall i :: 0 <= i < |x| ==> x[i] == c
    ensures Mean(x) == c
  {
    SumConstant(x, c);
    MulDivCancel(c, |x| as real);
  }

  /** Dividing by `s` is multiplying by its reciprocal. */
  lemma DivIsMulReciprocal(a: real, s: real)
    requires s != 0.0
    ensures a / s == (1.0 / s) * a
  {
  }

  /** `(c x)^2 == c^2 x^2`, with the squares named. */
  lemma ScaledSquare(x: real, y: real, c: real, c2: real, xx: real, yy: real)
    requires c2 == c * c
    requires y == c * x && xx == x * x && yy == y * y
    ensures yy == c2 * xx
  {
  }

  /** `ScaledSquare` at entry `i` of two vectors. */
  lemma ScaledSquareAt(d: seq<real>, z: seq<real>, c: real, c2: real, i: int)
    requires c2 == c * c
    requires |z| == |d| && 0 <= i < |d|
    requires z[i] == c * d[i]
    ensures Mul(z, z)[i] == c2 * Mul(d, d)[i]
  {
    ScaledSquare(d[i], z[i], c, c2, Mul(d, d)[i], Mul(z, z)[i]);
  }

  /** Scaling a vector by `c` scales its squared norm by `c2 == c * c`. */
  lemma SumSqScale(d: seq<real>, z: seq<real>, c: real, c2: real)
    requires c2 == c * c
    requires |z| == |d|
    requires forall i :: 0 <= i < |d| ==> z[i] == c * d[i]
    ensures SumSq(z) == c2 * SumSq(d)
  {
    var dd, zz := Mul(d, d), Mul(z, z);
    forall i | 0 <= i < |d| ensures zz[i] == c2 * dd[i] {
      ScaledSquareAt(d, z, c, c2, i);
    }
    SumScale(dd, zz, c2);
  }

  /** The deviations from the mean sum to zero. */
  lemma DeviationsSumToZero(x: seq<real>)
    requires |x| > 0
    ensures Sum(Deviations(x)) == 0.0
  {
    var n := |x| as real;
    var ones := seq(|x|, i requires 0 <= i < |x| => 1.0);
    SumConstant(ones, 1.0);
    SumLinear(x, ones, Deviations(x), 1.0, -Mean(x));
    DivMul(Sum(x), n);
  }

  /** The variance is never negative, and it is positive exactly when the
      vector is not flat. */
  lemma VarianceSign(x: seq<real>)
    requires |x| > 0
    ensures Variance(x) >= 0.0
    ensures Variance(x) > 0.0 <==> NonConstant(x)
  {
    SumSqNonNegative(Deviations(x));
    if NonConstant(x) {
      VariancePositive(x);
    } else {
      VarianceOfFlat(x);
    }
  }

  /** A vector that is not flat has a non-zero deviation. */
  lemma VariancePositive(x: seq<real>)
    requires |x| > 0
    requires NonConstant(x)
    ensures SumSq(Deviations(x)) > 0.0
  {
    var d := Deviations(x);
    var i :| 0 <= i < |x| && x[i] != x[0];
    assert d[i] != 0.0 || d[0] != 0.0;
    SumSqNonNegative(d);
  }

  /** A flat vector has mean equal to its entries and no deviation. */
  lemma {:induction false} VarianceOfFlat(x: seq<real>)
    requires |x| > 0
    requires !NonConstant(x)
    ensures SumSq(Deviations(x)) == 0.0
  {
    MeanOfConstant(x, x[0]);
    var dd := Mul(Deviations(x), Deviations(x));
    forall i | 0 <= i < |x| ensures dd[i] == 0.0 {
      assert x[i] == x[0];
    }
    SumConstant(dd, 0.0);
  }

  /** Population standard deviation, the square root of the variance. */
  function StdDev(x: seq<real>, sqrt: real -> real): (sd: real)
    requires |x| > 0
    requires IsSqrt(sqrt)
    ensures IsRoot(sd, Variance(x))
    ensures sd > 0.0 <==> NonConstant(x)
  {
    VarianceSign(x);
    RootSign(sqrt(Variance(x)), Variance(x));
    sqrt(Variance(x))
  }

  /** A non-negative square root is positive exactly when its square is. */
  lemma RootSign(r: real, v: real)
    requires IsRoot(r, v)
    ensures r > 0.0 <==> v > 0.0
  {
    if r > 0.0 {
      ProductPositive(v, r, r);
    }
  }

  /** Population z-score of a non-flat vector: each entry minus the mean,
      divided by the population standard deviation. */
  function ZScore(x: seq<real>, sqrt: real -> real): (z: seq<real>)
    requires |x| > 0
    requires IsSqrt(sqrt)
    requires NonConstant(x)
    ensures |z| == |x|
    ensures Sum(z) == 0.0
    ensures SumSq(z) == |x| as real
  {
    var sd := StdDev(x, sqrt);
    var z := seq(|x|, i requires 0 <= i < |x| => (x[i] - Mean(x)) / sd);
    assert z == Standardize(x, Mean(x), sd);
    StandardizeScales(x, Mean(x), sd);
    ScaledDeviationsSumToZero(x, 1.0 / sd, z);
    ZScoreSumSq(x, sd, z);
    z
  }

  /** Each entry minus `mu`, divided by `sd`. */
  function Standardize(x: seq<real>, mu: real, sd: real): (z: seq<real>)
    requires sd != 0.0
    ensures |z| == |x|
  {
    seq(|x|, i requires 0 <= i < |x| => (x[i] - mu) / sd)
  }

  /** Entry `i` is recovered from its z-score. */
  lemma ZScoreAt(x: seq<real>, sqrt: real -> real, i: int)
    requires |x| > 0
    requires IsSqrt(sqrt)
    requires NonConstant(x)
    requires 0 <= i < |x|
    ensures x[i] == Mean(x) + StdDev(x, sqrt) * ZScore(x, sqrt)[i]
  {
    var sd := StdDev(x, sqrt);
    var t := ZScore(x, sqrt)[i];
    assert t == (x[i] - Mean(x)) / sd;
    Recover(x[i], Mean(x), sd, t);
  }

  /** `t == (a - mu) / sd` gives back `a == mu + sd * t`. */
  lemma Recover(a: real, mu: real, sd: real, t: real)
    requires sd != 0.0
    requires t == (a - mu) / sd
    ensures a == mu + sd * t
  {
  }

  /** The z-score loses nothing but the mean and the standard deviation:
      each entry is recovered from its z-score. */
  lemma ZScoreRecovers(x: seq<real>, sqrt: real -> real)
    requires |x| > 0
    requires IsSqrt(sqrt)
    requires NonConstant(x)
    ensures forall i :: 0 <= i < |x| ==> x[i] == Mean(x) + StdDev(x, sqrt) * ZScore(x, sqrt)[i]
  {
    forall i | 0 <= i < |x| ensures x[i] == Mean(x) + StdDev(x, sqrt) * ZScore(x, sqrt)[i] {
      ZScoreAt(x, sqrt, i);
    }
  }

  /** The z-score keeps distinct entries distinct. */
  lemma ZScoreDistinct(x: seq<real>, sqrt: real -> real, i: int, j: int)
    requires |x| > 0
    requires IsSqrt(sqrt)
    requires NonConstant(x)
    requires 0 <= i < |x| && 0 <= j < |x|
    requires x[i] != x[j]
    ensures ZScore(x, sqrt)[i] != ZScore(x, sqrt)[j]
  {
    var z := ZScore(x, sqrt);
    ZScoreAt(x, sqrt, i);
    ZScoreAt(x, sqrt, j);
    AffineDistinct(Mean(x), StdDev(x, sqrt), z[i], z[j], x[i], x[j]);
  }

  /** Equal arguments of `t -> mu + sd * t` give equal values. */
  lemma AffineDistinct(mu: real, sd: real, a: real, b: real, xa: real, xb: real)
    requires xa == mu + sd * a && xb == mu + sd * b
    requires xa != xb
    ensures a != b
  {
  }

  /** A scaled deviation vector sums to zero. */
  lemma ScaledDeviationsSumToZero(x: seq<real>, c: real, z: seq<real>)
    requires |x| > 0
    requires |z| == |x|
    requires forall i :: 0 <= i < |x| ==> z[i] == c * (x[i] - Mean(x))
    ensures Sum(z) == 0.0
  {
    DeviationsSumToZero(x);
    assert forall i :: 0 <= i < |x| ==> Deviations(x)[i] == x[i] - Mean(x);
    SumScale(Deviations(x), z, c);
  }

  /** A z-score vector of length `n` has squared norm `n`, i.e. unit
      population variance. */
  lemma ZScoreSumSq(x: seq<real>, sd: real, z: seq<real>)
    requires |x| > 0
    requires IsRoot(sd, Variance(x)) && sd != 0.0
    requires z == Standardize(x, Mean(x), sd)
    ensures SumSq(z) == |x| as real
  {
    StandardizedDeviations(x, sd);
    var d := Deviations(x);
    var c := 1.0 / sd;
    SumSqScale(d, z, c, c * c);
    UnitScale(SumSq(z), SumSq(d), Variance(x), |x| as real, sd);
  }

  /** Entry by entry, a standardized value is the deviation from `mu`
      times the reciprocal of `sd`. */
  lemma StandardizeScales(x: seq<real>, mu: real, sd: real)
    requires sd != 0.0
    ensures forall i :: 0 <= i < |x| ==> Standardize(x, mu, sd)[i] == (1.0 / sd) * (x[i] - mu)
  {
    var z := Standardize(x, mu, sd);
    forall i | 0 <= i < |x| ensures z[i] == (1.0 / sd) * (x[i] - mu) {
      DivIsMulReciprocal(x[i] - mu, sd);
    }
  }

  /** Standardizing about the mean scales the deviations by `1 / sd`. */
  lemma StandardizedDeviations(x: seq<real>, sd: real)
    requires |x| > 0
    requires sd != 0.0
    ensures forall i :: 0 <= i < |x| ==> Standardize(x, Mean(x), sd)[i] == (1.0 / sd) * Deviations(x)[i]
  {
    StandardizeScales(x, Mean(x), sd);
  }

  /** The arithmetic step of the unit-variance fact: a sum of squares
      `n * v` scaled by `1 / (sd * sd)`, where `sd * sd == v`, is `n`. */
  lemma UnitScale(sz: real, sdd: real, v: real, n: real, sd: real)
    requires sd > 0.0 && sd * sd == v
    requires n != 0.0 && v == sdd / n
    requires sz == ((1.0 / sd) * (1.0 / sd)) * sdd
    ensures sz == n
  {
    var c := 1.0 / sd;
    var p := c * sd;
    assert p == 1.0;
    assert p * p == 1.0;
    assert (c * c) * (sd * sd) == p * p;
    calc {
      sz;
      (c * c) * sdd;
      { DivMul(sdd, n); }
      (c * c) * (v * n);
      ((c * c) * (sd * sd)) * n;
      n;
    }
  }

  /** Euclidean norm, as `scipy.linalg.norm` of a vector. */
  function Norm(v: seq<real>, sqrt: real -> real): (r: real)
    requires IsSqrt(sqrt)
    ensures IsRoot(r, SumSq(v))
  {
    SumSqNonNegative(v);
    sqrt(SumSq(v))
  }

  /** Two vectors of equal squared norm have equal norms, whose product
      is that squared norm. */
  lemma NormsOfEqualSquares(u: seq<real>, v: seq<real>, sqrt: real -> real)
    requires IsSqrt(sqrt)
    requires SumSq(u) == SumSq(v)
    ensures Norm(u, sqrt) == Norm(v, sqrt)
    ensures Norm(u, sqrt) * Norm(v, sqrt) == SumSq(u)
  {
  }

  /** Rotating a 12-vector keeps its mean and variance and rotates its
      deviations by the same amount. */
  lemma MomentsRotate(x: seq<real>, k: int)
    requires |x| == 12
    ensures Mean(Rotate(x, k)) == Mean(x)
    ensures Deviations(Rotate(x, k)) == Rotate(Deviations(x), k)
    ensures Variance(Rotate(x, k)) == Variance(x)
  {
    var y := Rotate(x, k);
    SumRotate(x, k);
    assert Mean(y) == Mean(x);
    forall j | 0 <= j < 12 ensures Deviations(y)[j] == Rotate(Deviations(x), k)[j] {
      assert y[j] == x[(j - k) % 12];
    }
    assert Deviations(y) == Rotate(Deviations(x), k);
    DotRotate(Deviations(x), Deviations(x), k);
  }

  /** A rotation of a non-flat 12-vector is non-flat. */
  lemma NonConstantRotate(x: seq<real>, k: int)
    requires |x| == 12
    requires NonConstant(x)
    ensures NonConstant(Rotate(x, k))
  {
    var y := Rotate(x, k);
    var i :| 0 <= i < 12 && x[i] != x[0];
    RotateAt(x, k, i);
    RotateAt(x, k, 0);
  }

  /** Rotating a non-flat 12-vector keeps its standard deviation and
      rotates its z-score by the same amount. */
  lemma ZScoreRotate(x: seq<real>, k: int, sqrt: real -> real)
    requires |x| == 12
    requires IsSqrt(sqrt)
    requires NonConstant(x)
    ensures NonConstant(Rotate(x, k))
    ensures StdDev(Rotate(x, k), sqrt) == StdDev(x, sqrt)
    ensures ZScore(Rotate(x, k), sqrt) == Rotate(ZScore(x, sqrt), k)
  {
    var y := Rotate(x, k);
    MomentsRotate(x, k);
    NonConstantRotate(x, k);
    assert StdDev(y, sqrt) == StdDev(x, sqrt);
    var zy, zx := ZScore(y, sqrt), ZScore(x, sqrt);
    forall j | 0 <= j < 12 ensures zy[j] == Rotate(zx, k)[j] {
      var a := (j - k) % 12;
      assert y[j] == x[a];
    }
  }
}
