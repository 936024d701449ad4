/** What the key estimator promises about its coefficients and its
    ranking: the closed form of a coefficient, its bounds, covariance
    under transposition of the input, and the exact-match case. */
module KeyProperties {
  import opened Vectors
  import opened Statistics
  import opened Correlation
  import opened Estimates
  import opened KeyEstimation

  /** Both norms are square roots of 12, since a z-scored 12-vector has
      squared norm 12; their product is 12. */
  lemma NormProduct(m: Mode, x: seq<real>, sqrt: real -> real)
    requires IsSqrt(sqrt)
    requires |x| == 12 && NonConstant(x)
    ensures ProfileNorm(m, sqrt) * Norm(ZScore(x, sqrt), sqrt) == 12.0
  {
    NormsOfEqualSquares(ModeProfile(m, sqrt), ZScore(x, sqrt), sqrt);
  }

  /** Coefficient `r` of a mode is the inner product of the mode's
      z-scored profile, with its tonic moved to `r`, and the z-scored
      input, over 12: `sum_i p[(i - r) mod 12] * z[i] / (norm_p * norm_x)`. */
  lemma CoefficientFormula(m: Mode, x: seq<real>, sqrt: real -> real, r: int)
    requires IsSqrt(sqrt)
    requires |x| == 12 && NonConstant(x)
    requires 0 <= r < 12
    ensures Coefficients(m, x, sqrt)[r] == Dot(Rotate(ModeProfile(m, sqrt), r), ZScore(x, sqrt)) / 12.0
  {
    var z := ZScore(x, sqrt);
    var pn, xn := ProfileNorm(m, sqrt), Norm(z, sqrt);
    RootOfTwelve(pn);
    RootOfTwelve(xn);
    NormProduct(m, x, sqrt);
    CorrelateOverTwelve(ModeProfile(m, sqrt), z, pn, xn, r);
  }

  /** Every coefficient is a correlation: it lies in [-1, 1]. */
  lemma CoefficientBounds(m: Mode, x: seq<real>, sqrt: real -> real, r: int)
    requires IsSqrt(sqrt)
    requires |x| == 12 && NonConstant(x)
    requires 0 <= r < 12
    ensures -1.0 <= Coefficients(m, x, sqrt)[r] <= 1.0
  {
    var p := ModeProfile(m, sqrt);
    var z := ZScore(x, sqrt);
    CoefficientFormula(m, x, sqrt, r);
    DotRotate(p, p, r);
    DotBound(Rotate(p, r), z);
  }

  /** A coefficient reaches 1 exactly when the z-scored input is the
      mode's z-scored profile with its tonic at `r`. */
  lemma PerfectCorrelation(m: Mode, x: seq<real>, sqrt: real -> real, r: int)
    requires IsSqrt(sqrt)
    requires |x| == 12 && NonConstant(x)
    requires 0 <= r < 12
    ensures Coefficients(m, x, sqrt)[r] == 1.0 <==> ZScore(x, sqrt) == Rotate(ModeProfile(m, sqrt), r)
  {
    var p := ModeProfile(m, sqrt);
    var q := Rotate(p, r);
    var z := ZScore(x, sqrt);
    CoefficientFormula(m, x, sqrt, r);
    DotRotate(p, p, r);
    if Coefficients(m, x, sqrt)[r] == 1.0 {
      DotAtBound(q, z);
    }
  }

  /** The confidence of each mode's estimate lies in [-1, 1]. */
  lemma ModeEstimateBounds(m: Mode, x: seq<real>, sqrt: real -> real)
    requires IsSqrt(sqrt)
    requires |x| == 12 && NonConstant(x)
    ensures -1.0 <= MakeEstimate(m, Coefficients(m, x, sqrt)).correlation <= 1.0
  {
    var c := Coefficients(m, x, sqrt);
    CoefficientBounds(m, x, sqrt, MakeEstimate(m, c).keyIndex);
  }

  /** The confidence of every entry of the ranking lies in [-1, 1]. */
  lemma EstimateBounds(x: seq<real>, sqrt: real -> real, i: int)
    requires IsSqrt(sqrt)
    requires |x| == 12 && NonConstant(x)
    requires 0 <= i < |Modes|
    ensures -1.0 <= Ranking(x, sqrt)[i].correlation <= 1.0
  {
    RankingOrder(x, sqrt);
    var s := ModeEstimates(x, sqrt);
    forall k | 0 <= k < |s| ensures -1.0 <= s[k].correlation <= 1.0 {
      ModeEstimateBounds(Modes[k], x, sqrt);
    }
    CorrelationsWithin(s, Ranking(x, sqrt), i);
  }

  /** Transposing the input by `k` pitch classes transposes every mode's
      coefficient vector by `k`: `coef'[j] == coef[(j - k) mod 12]`. */
  lemma CoefficientsRotate(m: Mode, x: seq<real>, k: int, sqrt: real -> real)
    requires IsSqrt(sqrt)
    requires |x| == 12 && NonConstant(x)
    ensures NonConstant(Rotate(x, k))
    ensures Coefficients(m, Rotate(x, k), sqrt) == Rotate(Coefficients(m, x, sqrt), k)
  {
    var z := ZScore(x, sqrt);
    ZScoreRotate(x, k, sqrt);
    assert ZScore(Rotate(x, k), sqrt) == Rotate(z, k);
    assert Norm(Rotate(z, k), sqrt) == sqrt(12.0) == Norm(z, sqrt);
    RootOfTwelve(ProfileNorm(m, sqrt));
    RootOfTwelve(Norm(z, sqrt));
    CorrelateRotate(ModeProfile(m, sqrt), z, k, ProfileNorm(m, sqrt), Norm(z, sqrt));
  }

  /** Under transposition by `k` a mode's best correlation is unchanged. */
  lemma EstimateRotateCorrelation(m: Mode, x: seq<real>, k: int, sqrt: real -> real)
    requires IsSqrt(sqrt)
    requires |x| == 12 && NonConstant(x)
    ensures NonConstant(Rotate(x, k))
    ensures MakeEstimate(m, Coefficients(m, Rotate(x, k), sqrt)).correlation
         == MakeEstimate(m, Coefficients(m, x, sqrt)).correlation
  {
    CoefficientsRotate(m, x, k, sqrt);
    EstimateShift(m, Coefficients(m, x, sqrt), Coefficients(m, Rotate(x, k), sqrt), k);
  }

  /** When tonic `r` of a mode correlates strictly better than every other
      tonic, transposing the input by `k` moves the best tonic to
      `(r + k) mod 12`. */
  lemma EstimateRotateKey(m: Mode, x: seq<real>, k: int, r: int, sqrt: real -> real)
    requires IsSqrt(sqrt)
    requires |x| == 12 && NonConstant(x)
    requires 0 <= r < 12
    requires forall j :: 0 <= j < 12 && j != r ==> Coefficients(m, x, sqrt)[j] < Coefficients(m, x, sqrt)[r]
    ensures NonConstant(Rotate(x, k))
    ensures MakeEstimate(m, Coefficients(m, x, sqrt)).keyIndex == r
    ensures MakeEstimate(m, Coefficients(m, Rotate(x, k), sqrt)).keyIndex == (r + k) % 12
  {
    CoefficientsRotate(m, x, k, sqrt);
    EstimateShiftAt(m, Coefficients(m, x, sqrt), Coefficients(m, Rotate(x, k), sqrt), k, r);
  }

  /** Transposing the input leaves the ranking's modes and correlations
      unchanged, position by position; in particular the confidence the
      estimator returns does not depend on the key. */
  lemma RankingRotate(x: seq<real>, k: int, sqrt: real -> real)
    requires IsSqrt(sqrt)
    requires |x| == 12 && NonConstant(x)
    ensures NonConstant(Rotate(x, k))
    ensures |Ranking(Rotate(x, k), sqrt)| == |Ranking(x, sqrt)| == |Modes|
    ensures forall i :: 0 <= i < |Modes| ==>
      Ranking(Rotate(x, k), sqrt)[i].mode == Ranking(x, sqrt)[i].mode &&
      Ranking(Rotate(x, k), sqrt)[i].correlation == Ranking(x, sqrt)[i].correlation
  {
    NonConstantRotate(x, k);
    var s, t := ModeEstimates(x, sqrt), ModeEstimates(Rotate(x, k), sqrt);
    forall i | 0 <= i < |Modes| ensures t[i].mode == s[i].mode && t[i].correlation == s[i].correlation {
      EstimateRotateCorrelation(Modes[i], x, k, sqrt);
    }
    SortSameKeys(t, s);
  }

  /** The estimates of the ranking carry pairwise distinct modes and
      pairwise distinct full names. */
  lemma RankingDistinct(x: seq<real>, sqrt: real -> real)
    requires IsSqrt(sqrt)
    requires |x| == 12 && NonConstant(x)
    ensures forall i, j :: 0 <= i < j < |Ranking(x, sqrt)| ==>
      Ranking(x, sqrt)[i].mode != Ranking(x, sqrt)[j].mode &&
      Ranking(x, sqrt)[i].fullName != Ranking(x, sqrt)[j].fullName
  {
    RankingOrder(x, sqrt);
    DistinctInPermutation(ModeEstimates(x, sqrt), Ranking(x, sqrt));
  }

  /** A chroma vector that is mode `m`'s profile with its tonic at `r`
      correlates perfectly with tonic `r` of that mode, and strictly less
      with every other tonic of that mode. */
  lemma ExactMatchCoefficients(m: Mode, r: int, sqrt: real -> real)
    requires IsSqrt(sqrt)
    requires 0 <= r < 12
    ensures NonConstant(Rotate(RawWeights(m), r))
    ensures Coefficients(m, Rotate(RawWeights(m), r), sqrt)[r] == 1.0
    ensures forall j :: 0 <= j < 12 && j != r ==> Coefficients(m, Rotate(RawWeights(m), r), sqrt)[j] < 1.0
  {
    var w := RawWeights(m);
    var x := Rotate(w, r);
    var p := ModeProfile(m, sqrt);
    ZScoreRotate(w, r, sqrt);
    assert ZScore(x, sqrt) == Rotate(p, r);
    forall d | 1 <= d < 12 ensures p[d] != p[0] {
      ZScoreDistinct(w, sqrt, d, 0);
    }
    forall j | 0 <= j < 12 ensures Coefficients(m, x, sqrt)[j] == Dot(Rotate(p, j), Rotate(p, r)) / 12.0 {
      CoefficientFormula(m, x, sqrt, j);
    }
    forall j | 0 <= j < 12 ensures Dot(Rotate(p, j), Rotate(p, r)) <= 12.0 && (j == r <==> Dot(Rotate(p, j), Rotate(p, r)) == 12.0) {
      SelfMatch(p, r, j);
    }
  }

  /** For that same input the mode's estimate names tonic `r` with
      confidence 1, and the overall best confidence is 1. */
  lemma ExactMatch(m: Mode, r: int, sqrt: real -> real)
    requires IsSqrt(sqrt)
    requires 0 <= r < 12
    ensures NonConstant(Rotate(RawWeights(m), r))
    ensures MakeEstimate(m, Coefficients(m, Rotate(RawWeights(m), r), sqrt)).keyIndex == r
    ensures MakeEstimate(m, Coefficients(m, Rotate(RawWeights(m), r), sqrt)).correlation == 1.0
    ensures Ranking(Rotate(RawWeights(m), r), sqrt)[0].correlation == 1.0
  {
    var x := Rotate(RawWeights(m), r);
    ExactMatchCoefficients(m, r, sqrt);
    RankingBest(x, sqrt, m, r);
    EstimateBounds(x, sqrt, 0);
  }

  /** An input that is the major profile with its tonic at `r` is
      estimated as "<note r> major" with confidence 1: ionian wins every
      tie because it is declared first. */
  lemma ExactMajor(r: int, sqrt: real -> real)
    requires IsSqrt(sqrt)
    requires 0 <= r < 12
    ensures NonConstant(Rotate(RawWeights(Ionian), r))
    ensures Ranking(Rotate(RawWeights(Ionian), r), sqrt)[0].mode == Ionian
    ensures Ranking(Rotate(RawWeights(Ionian), r), sqrt)[0].keyIndex == r
    ensures Ranking(Rotate(RawWeights(Ionian), r), sqrt)[0].fullName == NoteNames[r] + " major"
    ensures Ranking(Rotate(RawWeights(Ionian), r), sqrt)[0].correlation == 1.0
  {
    var x := Rotate(RawWeights(Ionian), r);
    ExactMatch(Ionian, r, sqrt);
    RankingOrder(x, sqrt);
    RankingFind(x, sqrt, Ionian);
    var t := Ranking(x, sqrt);
    var e := MakeEstimate(Ionian, Coefficients(Ionian, x, sqrt));
    assert FindByMode(t, Ionian) == Some(e);
    var i :| 0 <= i < |t| && t[i] == e;
    EstimateBounds(x, sqrt, 0);
    if i != 0 {
      assert false;
    }
  }
}
