# Krumhansl–Schmuckler key estimator

A Dafny model of the `KeyEstimator` class of the harmonic analyzer
(`src/python/harmonic-analyzer.py`, lines 25–108). The estimator holds a table of
seven Krumhansl–Schmuckler mode profiles (ionian, dorian, phrygian, lydian,
mixolydian, aeolian, locrian). Each profile is a vector of 12 weights indexed from
the tonic.

Setting the object up (`__post_init__`) prepares every profile in declaration
order, in place:

- the vector is replaced by its population z-score;
- its Euclidean norm is recorded;
- the vector is replaced by its 12 × 12 circulant matrix, whose column `j` is the
  profile with its tonic moved to pitch class `j`.

Estimating a key (`__call__`) works on a 12-bin chroma vector:

- the vector is z-scored and its norm taken;
- for every mode, the transposed matrix is multiplied by the vector, then divided
  by both norms, giving 12 correlation coefficients (one per tonic);
- the first index of the largest coefficient picks the tonic;
- an estimate record is built: mode, display name ("major" / "minor" / mode
  name), key index, note name, correlation, full name and the coefficients;
- the seven estimates are sorted by correlation, highest first, with a stable sort;
- the full name and correlation of the first estimate are returned, together with
  the whole ranking.

The project has six files:

- `vectors.dfy`: sums, inner products, squared norms and cyclic rotation of
  12-vectors, with the bound `2ab ≤ a² + b²`, which holds entry by entry and
  summed.
- `statistics.dfy`: mean, population variance, standard deviation, z-score and
  Euclidean norm. It also shows that a z-scored `n`-vector has squared norm `n`.
- `correlation.dfy`: the circulant matrix in the convention of
  `scipy.linalg.circulant`, the correlation step, and `argmax`.
- `estimates.dfy`:
  - the modes and their declaration order;
  - the estimate record;
  - the stable descending sort and its ordering and permutation lemmas;
  - the lookup of an estimate by mode;
  - the bookkeeping of the in-place preparation pass.
- `key_estimator.dfy`:
  - the weight table and the prepared profiles, norms and matrices;
  - the per-mode coefficients and the ranking;
  - the `KeyEstimator` class, whose fields `modeWeights` and `modeWeightNorms`
    are updated in place by `PostInit`, plus the `Call` method.
- `properties.dfy`: the properties of the estimator as a whole:
  - the closed form of a coefficient;
  - every coefficient and confidence lies in [-1, 1];
  - transposing the input transposes the coefficients and keeps the ranking;
  - the ranking has distinct modes and names;
  - the exact-match behaviour on a rotated profile.

Arithmetic is exact (`real`). The square root used by the standard deviation and
the norm is a parameter `sqrt`, constrained by `IsSqrt`: for every `v ≥ 0` the
result is non-negative and squares back to `v`.

The central fact is the following. A population z-scored 12-vector has squared
norm 12, so the two norms multiply to 12 and every coefficient equals
`Σ p[(i − r) mod 12] · z[i] / 12`. The bounds, the rotation covariance and the
exact-match results all follow from that form.

## Model

| member | source | states |
|---|---|---|
| KeyEstimation.RawWeights | src/python/harmonic-analyzer.py:39-47 | each declared profile has 12 weights, and its tonic weight differs from every other weight, so the profile is not flat |
| KeyEstimation.RawTable | src/python/harmonic-analyzer.py:39-47 | the declared table maps every one of the seven modes to its raw profile |
| Estimates.Rank | src/python/harmonic-analyzer.py:39-47 | a mode's rank is its position in the table's declaration order |
| Estimates.ModesIndex | src/python/harmonic-analyzer.py:39-47 | the seven modes appear once each in declaration order, and position `j` holds the mode of rank `j` |
| Statistics.VarianceSign | src/python/harmonic-analyzer.py:58 | population variance is non-negative, and positive exactly when the vector is not flat |
| Statistics.DeviationsSumToZero | src/python/harmonic-analyzer.py:58 | the deviations from `Mean` sum to zero, which characterises the mean that `zscore` subtracts |
| Statistics.MeanOfConstant | src/python/harmonic-analyzer.py:58 | the `Mean` of a vector whose entries all equal `c` is `c` |
| Statistics.VarianceOfFlat | src/python/harmonic-analyzer.py:58 | a flat vector has no deviation from its mean, so its `Variance` is zero (the case `zscore` cannot scale) |
| Statistics.StdDev | src/python/harmonic-analyzer.py:58 | the standard deviation squares to the variance, and is positive exactly when the vector is not flat |
| Statistics.RootSign | src/python/harmonic-analyzer.py:58 | a non-negative square root is positive exactly when its square is |
| Statistics.ZScore | src/python/harmonic-analyzer.py:58 | a z-scored non-flat vector has the input's length, sums to 0, and has squared norm equal to its length |
| Statistics.ZScoreRecovers | src/python/harmonic-analyzer.py:58 | every entry is recovered from its z-score as mean + standard deviation × z-score (z-scoring inverts) |
| Statistics.ZScoreDistinct | src/python/harmonic-analyzer.py:53 | z-scoring keeps distinct entries distinct |
| Statistics.Norm | src/python/harmonic-analyzer.py:59 | the norm is the non-negative square root of the squared norm |
| Statistics.NormsOfEqualSquares | src/python/harmonic-analyzer.py:59 | vectors of equal squared norm have equal norms, whose product is that squared norm |
| Statistics.MomentsRotate | src/python/harmonic-analyzer.py:58 | rotating a 12-vector keeps its mean and variance and rotates its deviations |
| Statistics.NonConstantRotate | src/python/harmonic-analyzer.py:58 | a rotation of a non-flat vector is non-flat |
| Statistics.ZScoreRotate | src/python/harmonic-analyzer.py:58 | the z-score of a rotated vector is the rotated z-score, with the same standard deviation |
| Correlation.CirculantColumns | src/python/harmonic-analyzer.py:55 | column 0 of the circulant matrix is the profile, and column `j` is the profile rotated by `j` |
| Correlation.Circulant | src/python/harmonic-analyzer.py:55 | `scipy.linalg.circulant` of a 12-vector is a 12 × 12 matrix; `CirculantColumns` gives its columns |
| Correlation.CorrelateCirculant | src/python/harmonic-analyzer.py:68 | coefficient `r` is `Σ p[(i − r) mod 12] · x[i]` over the product of the two norms |
| Correlation.Correlate | src/python/harmonic-analyzer.py:68 | `weights.T.dot(x) / p_norm / x_norm` yields 12 coefficients; `CorrelateCirculant` gives each in closed form |
| Correlation.CorrelateRotate | src/python/harmonic-analyzer.py:68 | rotating the input by `k` rotates the coefficient vector by `k` |
| Correlation.SelfMatch | src/python/harmonic-analyzer.py:68 | a 12-vector of squared norm 12 whose first entry occurs nowhere else has inner product 12 with itself rotated by `r`, and less than 12 between that rotation and any other |
| Correlation.ArgMaxBelow | src/python/harmonic-analyzer.py:71 | the result is the first index of a maximum among the first `n` entries |
| Correlation.ArgMax | src/python/harmonic-analyzer.py:71 | the result indexes a maximal entry, and every earlier entry is strictly smaller (the first maximum, as `np.argmax`) |
| Correlation.MaxRotate | src/python/harmonic-analyzer.py:71-72 | a rotated vector has the same maximum value |
| Estimates.MakeEstimate | src/python/harmonic-analyzer.py:71-85 | it builds the `Estimate` record, which mirrors the dict of lines 77–85; the record's key index is the first maximal coefficient; its correlation is that maximum, which bounds every coefficient; its key, display name and full name are formed from the index and the mode |
| Estimates.EstimateShift | src/python/harmonic-analyzer.py:71-72 | rotating the coefficients leaves the estimate's correlation unchanged |
| Estimates.EstimateShiftAt | src/python/harmonic-analyzer.py:71 | when entry `r` beats every other, the estimate picks `r`, and after rotating by `k` it picks `(r + k) mod 12` |
| Estimates.DisplayModeInjective | src/python/harmonic-analyzer.py:75 | distinct modes have distinct display names |
| Estimates.DisplayMode | src/python/harmonic-analyzer.py:75 | the display name is "major" exactly for ionian, "minor" exactly for aeolian, and the mode's own name otherwise |
| Estimates.NameShapes | src/python/harmonic-analyzer.py:62 | the twelve note names of `NoteNames` are distinct, one or two characters long (the second a sharp), and neither they nor display names contain a space |
| Estimates.FullNameInjective | src/python/harmonic-analyzer.py:83 | two well-formed full names are equal only for the same key index and the same mode |
| Estimates.Insert | src/python/harmonic-analyzer.py:88 | insertion adds exactly one element, keeping the other elements |
| Estimates.SortByCorrelation | src/python/harmonic-analyzer.py:88 | the sort is a permutation of its input |
| Estimates.InsertRanked | src/python/harmonic-analyzer.py:88 | inserting an earlier-declared estimate into a ranked list keeps it ranked |
| Estimates.Before | src/python/harmonic-analyzer.py:88 | an estimate goes before another only if its correlation is at least as high, and never before itself |
| Estimates.Ranked | src/python/harmonic-analyzer.py:88 | a ranked list has non-increasing correlations and no repeated entry |
| Estimates.SortRanked | src/python/harmonic-analyzer.py:88 | sorting a list in declaration order gives non-increasing correlations, with ties kept in declaration order (a stable descending sort) |
| Estimates.SortSameKeys | src/python/harmonic-analyzer.py:88 | the order the sort produces depends only on modes and correlations |
| Estimates.FindByMode | src/python/harmonic-analyzer.py:101 | the lookup succeeds exactly when some entry has the mode, and returns the first such entry |
| Estimates.FindInPermutation | src/python/harmonic-analyzer.py:101 | in a permutation of the per-mode list, looking a mode up finds that mode's estimate |
| Estimates.DistinctInPermutation | src/python/harmonic-analyzer.py:77-85 | a ranked permutation of the well-named per-mode list has pairwise distinct modes and full names |
| Estimates.CorrelationsWithin | src/python/harmonic-analyzer.py:88 | a permutation keeps every correlation within [-1, 1] when the original did |
| Estimates.FirstIsBest | src/python/harmonic-analyzer.py:95 | in a non-increasing list, the first entry's correlation is at least that of any member |
| Estimates.Staged | src/python/harmonic-analyzer.py:52-53 | part way through the pass, the first `i` modes hold their prepared value and the rest their declared one |
| Estimates.Filled | src/python/harmonic-analyzer.py:54 | part way through the pass, exactly the first `i` modes have a recorded norm |
| Estimates.StagedStart | src/python/harmonic-analyzer.py:51-52 | before the pass every mode holds its declared value and no norm is recorded |
| Estimates.StagedStep | src/python/harmonic-analyzer.py:52-55 | one turn of the pass replaces exactly the entry of the current mode |
| Estimates.FilledStep | src/python/harmonic-analyzer.py:54 | one turn of the pass records exactly the norm of the current mode |
| KeyEstimation.ModeProfile | src/python/harmonic-analyzer.py:53 | a prepared profile has 12 entries, sums to 0 and has squared norm 12 |
| KeyEstimation.ProfileNorm | src/python/harmonic-analyzer.py:54 | every recorded norm is the positive square root of 12 |
| KeyEstimation.ProfileMatrix | src/python/harmonic-analyzer.py:55 | every prepared matrix is 12 × 12 |
| KeyEstimation.Coefficients | src/python/harmonic-analyzer.py:68 | each mode gets 12 coefficients, one per tonic; `CoefficientFormula` gives each in closed form |
| KeyEstimation.PreparedWeights | src/python/harmonic-analyzer.py:51-55 | after preparation, every mode maps to the circulant matrix of its z-scored profile |
| KeyEstimation.PreparedNorms | src/python/harmonic-analyzer.py:54 | after preparation, every mode maps to the norm of its z-scored profile |
| KeyEstimation.PreparedComplete | src/python/harmonic-analyzer.py:51-55 | once the pass has visited all seven modes, both tables hold the prepared value of every mode |
| KeyEstimation.ModeEstimates | src/python/harmonic-analyzer.py:64-85 | one estimate per mode, in declaration order |
| KeyEstimation.Ranking | src/python/harmonic-analyzer.py:88 | the sorted list holds exactly the seven per-mode estimates; `RankingOrder` adds its order |
| KeyEstimation.RankingOrder | src/python/harmonic-analyzer.py:88 | the ranking is a permutation of the seven per-mode estimates, with non-increasing correlations and ties in declaration order |
| KeyEstimation.RankingFind | src/python/harmonic-analyzer.py:101 | looking any mode up in the ranking finds that mode's estimate |
| KeyEstimation.RankingBest | src/python/harmonic-analyzer.py:95 | the best estimate's correlation is at least any coefficient of any tonic of any mode |
| KeyEstimation.RankingTop | src/python/harmonic-analyzer.py:95-101 | the ranking has seven entries, the first bounds every coefficient, and the major and minor lookups both succeed |
| KeyEstimation.KeyEstimator.constructor | src/python/harmonic-analyzer.py:49-55 | starting from the declared table and no norms, the object ends up fully prepared |
| KeyEstimation.KeyEstimator.PostInit | src/python/harmonic-analyzer.py:51-55 | visiting the modes in declaration order leaves every mode holding its circulant matrix of the z-scored profile, and that profile's norm |
| KeyEstimation.KeyEstimator.PrepareStep | src/python/harmonic-analyzer.py:52-55 | one turn of the loop extends the prepared prefix of both tables by the current mode |
| KeyEstimation.KeyEstimator.PrepareMode | src/python/harmonic-analyzer.py:53-55 | the mode's entry becomes the circulant matrix of its z-scored profile, its norm is recorded, and nothing else changes |
| KeyEstimation.KeyEstimator.Call | src/python/harmonic-analyzer.py:57-104 | the returned list is the ranking of the seven per-mode estimates; the name and confidence are those of its first entry; the confidence bounds every coefficient of every mode; the major and minor lookups succeed |
| KeyProperties.NormProduct | src/python/harmonic-analyzer.py:59 | the profile norm times the input norm is exactly 12 |
| KeyProperties.CoefficientFormula | src/python/harmonic-analyzer.py:68 | coefficient `r` is the inner product of the rotated z-scored profile and the z-scored input, over 12 |
| KeyProperties.PerfectCorrelation | src/python/harmonic-analyzer.py:68 | a coefficient is 1 exactly when the z-scored input equals the rotated z-scored profile |
| KeyProperties.CoefficientBounds | src/python/harmonic-analyzer.py:68 | every coefficient lies in [-1, 1] |
| KeyProperties.ModeEstimateBounds | src/python/harmonic-analyzer.py:72 | each mode's best correlation lies in [-1, 1] |
| KeyProperties.EstimateBounds | src/python/harmonic-analyzer.py:82 | every correlation in the ranking lies in [-1, 1] |
| KeyProperties.CoefficientsRotate | src/python/harmonic-analyzer.py:68 | transposing the input by `k` transposes each mode's coefficient vector by `k` |
| KeyProperties.EstimateRotateCorrelation | src/python/harmonic-analyzer.py:72 | transposing the input leaves each mode's best correlation unchanged |
| KeyProperties.EstimateRotateKey | src/python/harmonic-analyzer.py:71 | when tonic `r` strictly wins for a mode, transposing by `k` makes `(r + k) mod 12` win |
| KeyProperties.RankingRotate | src/python/harmonic-analyzer.py:88 | transposing the input leaves the ranking's modes and correlations unchanged, position by position |
| KeyProperties.RankingDistinct | src/python/harmonic-analyzer.py:77-85 | the ranking's modes are pairwise distinct, and so are its full names |
| KeyProperties.ExactMatchCoefficients | src/python/harmonic-analyzer.py:68 | for an input that is a mode's profile rotated to `r`, tonic `r` of that mode correlates with 1 and every other tonic with less |
| KeyProperties.ExactMatch | src/python/harmonic-analyzer.py:71-95 | for that input the mode's estimate names tonic `r` with confidence 1, and the best confidence is 1 |
| KeyProperties.ExactMajor | src/python/harmonic-analyzer.py:75-95 | the major profile rotated to `r` is estimated as "<note r> major" with confidence 1 |

## Left out

- Audio loading, chroma extraction, the message handler and the service lifecycle
  (lines 110–181) are not part of this model. Neither is the duplicate analyzer
  under `src/services/python/`. The key-detection test script is not part of this
  model either.
- The console output of `__call__` (lines 90–102) is left out. The model keeps
  only the lookups the printing performs (the first estimate, and the ionian and
  aeolian entries).
- Floating point is left out: arithmetic is exact, and the square root is a
  parameter specified by `IsSqrt`.
- KeyEstimation.KeyEstimator.Call: requires a non-flat input of length 12. Every
  input this excludes makes the source raise `ValueError`, and the `requires`
  drops those error paths.
  - A flat input of any length z-scores to all NaN at line 58. `scipy.linalg.norm`
    checks its argument for finite values and raises at line 59, so no NaN reaches
    lines 68–104.
  - A non-flat input of any other length raises numpy's shape error at the matrix
    product on line 68.
  - The caller in the message handler catches either error and reports the key as
    `'Unknown'` (lines 154–158). That handler is not part of this model.
- KeyEstimation.KeyEstimator.PostInit: requires the declared table and an empty
  table of norms.
  - In the source both dictionaries are class attributes, shared by every
    instance.
  - A second instantiation would prepare the already prepared matrices again.
  - The module creates exactly one instance (line 108), and the model covers that
    single preparation.
- Estimates.SortByCorrelation is a stable insertion sort written as a function.
  The ranking is assigned back to the list, not rearranged in place. The Timsort
  of `list.sort` is not modelled; only its result is, which is a stable ordering
  by non-increasing correlation.
- KeyEstimation.KeyEstimator.Call keeps the coefficients of each mode in the
  estimate record and in a local map. The `.tolist()` copy is not modelled
  separately.
- KeyEstimation.KeyEstimator.Call and KeyProperties.ExactMajor: a global exact
  match is proved only for the major profile.
  - Another mode can reach confidence 1 on the same input only if the two profiles
    are rotations of each other after z-scoring.
  - Declaration order then puts ionian first.
  - The same statement for aeolian or any later mode would also need to rule out
    exact ties with an earlier-declared mode. That is not proved.
- KeyProperties.EstimateRotateKey: assumes a strict maximum at tonic `r` rather
  than stating what happens on ties.
  - On a tie, `np.argmax` picks the first maximal index.
  - After a rotation, that index need not be the rotation of the old one.
