/** The Krumhansl–Schmuckler key estimator: a table of seven mode
    profiles, prepared once (z-score, norm, circulant matrix), against
    which a 12-bin chroma vector is correlated for every tonic of every
    mode; the per-mode estimates are then ranked by correlation. */
module KeyEstimation {
  import opened Vectors
  import opened Statistics
  import opened Correlation
  import opened Estimates

  /** The Krumhansl–Schmuckler weights of each mode, indexed from the
      tonic. In every mode the tonic weight differs from all the others,
      so no rotation of a profile but the trivial one gives it back. */
  function RawWeights(m: Mode): (w: seq<real>)
    ensures |w| == 12
    ensures forall i :: 1 <= i < 12 ==> w[i] != w[0]
    ensures NonConstant(w)
  {
    var w := match m
    case Ionian => [6.35, 2.23, 3.48, 2.33, 4.38, 4.09, 2.52, 5.19, 2.39, 3.66, 2.29, 2.88]
    case Dorian => [6.33, 2.68, 3.52, 5.38, 2.60, 3.53, 2.69, 1.66, 3.69, 2.59, 3.59, 4.75]
    case Phrygian => [6.59, 2.52, 3.68, 5.06, 1.03, 4.60, 3.52, 5.35, 3.54, 4.90, 1.75, 1.80]
    case Lydian => [6.50, 2.33, 3.52, 2.68, 3.59, 2.59, 3.66, 5.17, 3.63, 2.59, 2.70, 3.33]
    case Mixolydian => [6.47, 2.37, 3.50, 2.52, 3.64, 2.50, 3.58, 2.64, 3.68, 2.50, 2.60, 3.38]
    case Aeolian => [6.39, 2.55, 3.77, 3.98, 2.71, 3.91, 2.92, 2.29, 3.70, 3.27, 3.16, 6.20]
    case Locrian => [6.17, 2.74, 3.98, 2.69, 3.66, 3.68, 2.90, 2.42, 2.60, 2.70, 2.88, 6.59];
    assert w[1] != w[0];
    w
  }

  /** A value of the weight table: a profile vector before preparation
      and a 12 x 12 matrix after it. */
  datatype Weights = Profile(v: seq<real>) | Matrix(rows: seq<seq<real>>)

  /** The weight table as declared: each mode maps to its raw profile. */
  function RawTable(): (t: map<Mode, Weights>)
    ensures forall m :: m in t && t[m] == Profile(RawWeights(m))
  {
    ModesIndex();
    map m | m in Modes :: Profile(RawWeights(m))
  }

  /** The prepared profile of a mode: the z-score of its weights. */
  function ModeProfile(m: Mode, sqrt: real -> real): (p: seq<real>)
    requires IsSqrt(sqrt)
    ensures |p| == 12 && Sum(p) == 0.0 && SumSq(p) == 12.0
  {
    ZScore(RawWeights(m), sqrt)
  }

  /** The norm recorded for a mode: the norm of its prepared profile. */
  function ProfileNorm(m: Mode, sqrt: real -> real): (n: real)
    requires IsSqrt(sqrt)
    ensures IsRoot(n, 12.0)
  {
    Norm(ModeProfile(m, sqrt), sqrt)
  }

  /** The matrix recorded for a mode: column `j` is the prepared profile
      with its tonic moved to pitch class `j`. */
  function ProfileMatrix(m: Mode, sqrt: real -> real): (w: seq<seq<real>>)
    requires IsSqrt(sqrt)
    ensures IsSquare12(w)
  {
    Circulant(ModeProfile(m, sqrt))
  }

  /** A positive square root of 12 is not zero. */
  lemma RootOfTwelve(n: real)
    requires IsRoot(n, 12.0)
    ensures n > 0.0
  {
    if n == 0.0 {
      SquareSign(n * n, n);
    }
  }

  /** The correlation coefficients of chroma vector `x` against every
      tonic of mode `m`. */
  function Coefficients(m: Mode, x: seq<real>, sqrt: real -> real): (c: seq<real>)
    requires IsSqrt(sqrt)
    requires |x| == 12 && NonConstant(x)
    ensures |c| == 12
  {
    var z := ZScore(x, sqrt);
    RootOfTwelve(ProfileNorm(m, sqrt));
    RootOfTwelve(Norm(z, sqrt));
    Correlate(ProfileMatrix(m, sqrt), z, ProfileNorm(m, sqrt), Norm(z, sqrt))
  }

  /** One estimate per mode, in declaration order. */
  function ModeEstimates(x: seq<real>, sqrt: real -> real): (s: seq<Estimate>)
    requires IsSqrt(sqrt)
    requires |x| == 12 && NonConstant(x)
    ensures |s| == |Modes|
    ensures forall i :: 0 <= i < |Modes| ==> s[i].mode == Modes[i]
    ensures InDeclarationOrder(s)
  {
    ModesIndex();
    seq(|Modes|, i requires 0 <= i < |Modes| => MakeEstimate(Modes[i], Coefficients(Modes[i], x, sqrt)))
  }

  /** Entry `i` of the per-mode estimates is the estimate of mode `i`. */
  lemma ModeEstimatesAt(x: seq<real>, sqrt: real -> real, i: int)
    requires IsSqrt(sqrt)
    requires |x| == 12 && NonConstant(x)
    requires 0 <= i < |Modes|
    ensures ModeEstimates(x, sqrt)[i] == MakeEstimate(Modes[i], Coefficients(Modes[i], x, sqrt))
  {
  }

  /** All estimates ranked by correlation, highest first. */
  function Ranking(x: seq<real>, sqrt: real -> real): (s: seq<Estimate>)
    requires IsSqrt(sqrt)
    requires |x| == 12 && NonConstant(x)
    ensures |s| == |Modes|
    ensures multiset(s) == multiset(ModeEstimates(x, sqrt))
  {
    SortByCorrelation(ModeEstimates(x, sqrt))
  }

  /** The ranking holds exactly the seven per-mode estimates, ordered by
      non-increasing correlation with ties in declaration order. */
  lemma RankingOrder(x: seq<real>, sqrt: real -> real)
    requires IsSqrt(sqrt)
    requires |x| == 12 && NonConstant(x)
    ensures |Ranking(x, sqrt)| == |Modes|
    ensures multiset(Ranking(x, sqrt)) == multiset(ModeEstimates(x, sqrt))
    ensures Ranked(Ranking(x, sqrt)) && NonIncreasing(Ranking(x, sqrt))
  {
    SortRanked(ModeEstimates(x, sqrt));
  }

  /** Looking a mode up in the ranking finds that mode's estimate. */
  lemma RankingFind(x: seq<real>, sqrt: real -> real, m: Mode)
    requires IsSqrt(sqrt)
    requires |x| == 12 && NonConstant(x)
    ensures FindByMode(Ranking(x, sqrt), m) == Some(MakeEstimate(m, Coefficients(m, x, sqrt)))
  {
    ModesIndex();
    FindInPermutation(ModeEstimates(x, sqrt), Ranking(x, sqrt), m);
  }

  /** The first entry's correlation is at least every coefficient of every
      tonic of every mode. */
  lemma RankingBest(x: seq<real>, sqrt: real -> real, m: Mode, r: int)
    requires IsSqrt(sqrt)
    requires |x| == 12 && NonConstant(x)
    requires 0 <= r < 12
    ensures |Ranking(x, sqrt)| == |Modes|
    ensures Coefficients(m, x, sqrt)[r] <= Ranking(x, sqrt)[0].correlation
  {
    RankingOrder(x, sqrt);
    RankingFind(x, sqrt, m);
    var t := Ranking(x, sqrt);
    FirstIsBest(t, FindByMode(t, m).value);
  }

  /** The first entry of the ranking bounds every coefficient of every
      mode, and both the major and the minor estimate can be looked up. */
  lemma RankingTop(x: seq<real>, sqrt: real -> real)
    requires IsSqrt(sqrt)
    requires |x| == 12 && NonConstant(x)
    ensures |Ranking(x, sqrt)| == |Modes|
    ensures forall m, r :: 0 <= r < 12 ==> Coefficients(m, x, sqrt)[r] <= Ranking(x, sqrt)[0].correlation
    ensures FindByMode(Ranking(x, sqrt), Ionian).Some? && FindByMode(Ranking(x, sqrt), Aeolian).Some?
  {
    RankingOrder(x, sqrt);
    forall m, r | 0 <= r < 12 ensures Coefficients(m, x, sqrt)[r] <= Ranking(x, sqrt)[0].correlation {
      RankingBest(x, sqrt, m, r);
    }
    RankingFind(x, sqrt, Ionian);
    RankingFind(x, sqrt, Aeolian);
  }

  /** The weight table once every mode is prepared. */
  ghost function PreparedWeights(sqrt: real -> real): (t: map<Mode, Weights>)
    requires IsSqrt(sqrt)
    ensures forall m :: m in t && t[m] == Matrix(ProfileMatrix(m, sqrt))
  {
    ModesIndex();
    map m | m in Modes :: Matrix(ProfileMatrix(m, sqrt))
  }

  /** The table of norms once every mode is prepared. */
  ghost function PreparedNorms(sqrt: real -> real): (t: map<Mode, real>)
    requires IsSqrt(sqrt)
    ensures forall m :: m in t && t[m] == ProfileNorm(m, sqrt)
  {
    ModesIndex();
    map m | m in Modes :: ProfileNorm(m, sqrt)
  }

  /** At the end of the pass every mode holds its prepared matrix and the
      norm of its prepared profile. */
  lemma PreparedComplete(sqrt: real -> real, w: map<Mode, Weights>, n: map<Mode, real>)
    requires IsSqrt(sqrt)
    requires w == Staged(|Modes|, PreparedWeights(sqrt), RawTable())
    requires n == Filled(|Modes|, PreparedNorms(sqrt))
    ensures forall m :: m in w && w[m] == Matrix(ProfileMatrix(m, sqrt)) &&
                        m in n && n[m] == ProfileNorm(m, sqrt)
  {
    ModesIndex();
  }

  /** The estimator object. The weight table and the table of norms are
      updated in place when the object is set up. */
  class KeyEstimator {
    var modeWeights: map<Mode, Weights>
    var modeWeightNorms: map<Mode, real>

    /** Every mode holds its prepared matrix and the norm of its prepared
        profile. */
    ghost predicate Valid(sqrt: real -> real)
      reads this
    {
      IsSqrt(sqrt) &&
      forall m :: m in modeWeights && modeWeights[m] == Matrix(ProfileMatrix(m, sqrt)) &&
                  m in modeWeightNorms && modeWeightNorms[m] == ProfileNorm(m, sqrt)
    }

    /** Starts from the declared table and an empty table of norms, then
        prepares every mode. */
    constructor (sqrt: real -> real)
      requires IsSqrt(sqrt)
      ensures Valid(sqrt)
    {
      modeWeights := RawTable();
      modeWeightNorms := map[];
      new;
      PostInit(sqrt);
    }

    /** Visits the modes in declaration order and prepares each one. */
    method PostInit(sqrt: real -> real)
      requires IsSqrt(sqrt)
      requires modeWeights == RawTable() && modeWeightNorms == map[]
      modifies this
      ensures Valid(sqrt)
    {
      ghost var done, norms, todo := PreparedWeights(sqrt), PreparedNorms(sqrt), RawTable();
      StagedStart(done, todo);
      StagedStart(norms, norms);
      for i := 0 to |Modes|
        invariant modeWeights == Staged(i, done, todo)
        invariant modeWeightNorms == Filled(i, norms)
      {
        PrepareStep(i, sqrt, done, norms, todo);
      }
      PreparedComplete(sqrt, modeWeights, modeWeightNorms);
    }

    /** One turn of the preparation loop: mode number `i` is prepared, and
        the table now holds prepared entries for the first `i + 1` modes. */
    method PrepareStep(i: nat, sqrt: real -> real, ghost done: map<Mode, Weights>, ghost norms: map<Mode, real>, ghost todo: map<Mode, Weights>)
      requires IsSqrt(sqrt) && i < |Modes|
      requires done == PreparedWeights(sqrt) && norms == PreparedNorms(sqrt) && todo == RawTable()
      requires modeWeights == Staged(i, done, todo) && modeWeightNorms == Filled(i, norms)
      modifies this
      ensures modeWeights == Staged(i + 1, done, todo) && modeWeightNorms == Filled(i + 1, norms)
    {
      StagedStep(i, done, todo);
      FilledStep(i, norms);
      PrepareMode(Modes[i], sqrt);
    }

    /** The body of the preparation loop for one mode: the raw profile is
        replaced by its z-score, the norm of that vector is recorded, and
        the vector is replaced by its circulant matrix. */
    method PrepareMode(mode: Mode, sqrt: real -> real)
      requires IsSqrt(sqrt)
      requires mode in modeWeights && modeWeights[mode] == Profile(RawWeights(mode))
      modifies this
      ensures modeWeights == old(modeWeights)[mode := Matrix(ProfileMatrix(mode, sqrt))]
      ensures modeWeightNorms == old(modeWeightNorms)[mode := ProfileNorm(mode, sqrt)]
    {
      modeWeights := modeWeights[mode := Profile(ZScore(modeWeights[mode].v, sqrt))];
      modeWeightNorms := modeWeightNorms[mode := Norm(modeWeights[mode].v, sqrt)];
      modeWeights := modeWeights[mode := Matrix(Circulant(modeWeights[mode].v))];
    }

    /** Estimates the key of chroma vector `x`: the best estimate's full
        name and correlation, and all estimates ranked. */
    method Call(x: seq<real>, sqrt: real -> real) returns (fullName: string, confidence: real, allEstimates: seq<Estimate>)
      requires Valid(sqrt)
      requires |x| == 12 && NonConstant(x)
      ensures allEstimates == Ranking(x, sqrt)
      ensures |allEstimates| == |Modes|
      ensures fullName == allEstimates[0].fullName && confidence == allEstimates[0].correlation
      ensures forall m, r :: 0 <= r < 12 ==> Coefficients(m, x, sqrt)[r] <= confidence
      ensures FindByMode(allEstimates, Ionian).Some? && FindByMode(allEstimates, Aeolian).Some?
    {
      var z := ZScore(x, sqrt);
      var xNorm := Norm(z, sqrt);
      RootOfTwelve(xNorm);
      var coefficients: map<Mode, seq<real>> := map[];
      allEstimates := [];
      ModesIndex();
      for i := 0 to |Modes|
        invariant |allEstimates| == i
        invariant forall j :: 0 <= j < i ==> allEstimates[j] == ModeEstimates(x, sqrt)[j]
      {
        var mode := Modes[i];
        var weights := modeWeights[mode];
        RootOfTwelve(modeWeightNorms[mode]);
        coefficients := coefficients[mode := Correlate(weights.rows, z, modeWeightNorms[mode], xNorm)];
        ModeEstimatesAt(x, sqrt, i);
        allEstimates := allEstimates + [MakeEstimate(mode, coefficients[mode])];
      }
      assert allEstimates == ModeEstimates(x, sqrt);
      allEstimates := SortByCorrelation(allEstimates);
      RankingTop(x, sqrt);
      var best := allEstimates[0];
      return best.fullName, best.correlation, allEstimates;
    }
  }
}
