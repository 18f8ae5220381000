# Chi-squared uniformity test, modelled in Dafny

This project models `Modulos/PruebaChiCuadrado.py`. That module tests
whether a sample of values drawn from `[0, 1)` is uniform, using Pearson's
chi-squared goodness-of-fit test. The test runs in five steps:

1. `CrearLimitesIntervalos(k)` builds `k + 1` cumulative boundaries. The
   step `round(1/k, 4)` is added repeatedly, and every boundary is rounded
   to 3 digits.
2. `CrearIntervalos` pairs consecutive boundaries into labelled half-open
   intervals `[lo, hi)`.
3. `ContarFrecuencias` counts the sample values in each interval.
4. `EstadisticoChi2` and `EstadisticoChi2Acumulado` add up the terms
   `(o - e)^2 / e`. When no expected frequencies are given, each one
   defaults to the mean observed count. The statistic and each term are
   rounded to 2 digits, and the degrees of freedom are `len - 1`.
5. `PruebaChiCuadrado` compares the statistic with the critical value of
   the chi-squared distribution. The null hypothesis stands exactly when
   the statistic is strictly below it.

Modules (one file each):

- `Rounding` (`rounding.dfy`): Python's `round(x, n)` on exact reals.
  It rounds to the nearest multiple of `10^-n`, and an exact tie goes to
  the even neighbour.
- `Dicts` (`dicts.dfy`): Python dictionaries, modelled as ordered lists of
  entries with distinct keys.
  - Assigning to a present key overwrites that entry in place.
  - Assigning to a new key appends an entry.
  - A dictionary comprehension assigns its pairs left to right.
- `Outcomes` (`outcomes.dfy`): `Result`, the value of a step or the
  `ZeroDivisionError` it raises.
- `Sums` (`sums.dfy`): Python's `sum`, added up left to right.
- `Intervals` (`intervals.dfy`): `CrearLimitesIntervalos`, as a method
  that fills an array in place, and `CrearIntervalos`.
- `Counting` (`counting.dfy`): `ContarFrecuencias`, as a method that
  starts every counter at zero and then overwrites each counter in turn.
  Also how the counts add up over a partition.
- `Statistic` (`statistic.dfy`): `EstadisticoChi2`, and
  `EstadisticoChi2Acumulado` as a method with an accumulator loop.
- `ChiSquaredTest` (`chi_squared_test.dfy`): `PruebaChiCuadrado`, the
  end-to-end properties, and the two worked examples of the source.

Each method is proved equal to a function of its inputs: `Boundaries`,
`Frequencies`, `Accumulated` and `ChiSquaredTest`. The lemmas state their
properties about those functions.

What the code does at its edges, and the model with it:

- `k == 0` raises `ZeroDivisionError`.
- A negative `k` gives an empty boundary list, not an error. That empty
  list leads to a division by zero when the mean count is taken.
- Because each boundary is rounded, the last boundary need not be 1.0.
  With three intervals it is 0.999, and a sample value in `[0.999, 1)` is
  counted nowhere.
- From 2500 intervals on, the width rounds to at most 0.0004 and every
  boundary stays at 0.0. Every label is then the same, so the intervals
  collapse to one empty interval and the test divides by zero whatever the
  sample.
- The textbook vector `[8, 7, 5, 4, 6]` gives the per-interval contributions
  `[0.67, 0.17, 0.17, 0.67, 0.0]`, statistic 1.67 and 4 degrees of freedom.

## Model

| member | source | states |
|---|---|---|
| `Rounding.NearestInt` | Modulos/PruebaChiCuadrado.py:33 | the integer `round` picks lies within one half of the value |
| `Rounding.RoundError` | Modulos/PruebaChiCuadrado.py:32-33 | rounding to `n` digits moves a value by at most half a unit in the last digit |
| `Rounding.RoundNonNegative` | Modulos/PruebaChiCuadrado.py:32 | rounding never turns a non-negative value negative |
| `Rounding.RoundSmall` | Modulos/PruebaChiCuadrado.py:58 | a non-negative value below half a unit in the last digit rounds to 0 |
| `Dicts.Put` | Modulos/PruebaChiCuadrado.py:46-48 | `d[k] = v` overwrites the entry of a present key in place or appends a new one; keys stay distinct |
| `Dicts.FromPairs` | Modulos/PruebaChiCuadrado.py:68-71 | a dictionary comprehension has distinct keys and at most one entry per pair |
| `Dicts.FromDistinctPairs` | Modulos/PruebaChiCuadrado.py:68-71 | with distinct keys the comprehension holds exactly the given pairs, in order |
| `Dicts.FromRepeatedKey` | Modulos/PruebaChiCuadrado.py:68-71 | when every key is the same, the comprehension keeps one entry with the last value |
| `Sums.SumOfNonNegative` | Modulos/PruebaChiCuadrado.py:29-31 | a sum of non-negative terms is non-negative, and zero exactly when every term is |
| `Sums.SumOfConstant` | Modulos/PruebaChiCuadrado.py:27 | `n` copies of `c` add up to `n * c` |
| `Intervals.Limits` | Modulos/PruebaChiCuadrado.py:56-58 | the boundaries for `n` steps are `n + 1` values starting at 0.0 |
| `Intervals.LimitsStep` | Modulos/PruebaChiCuadrado.py:57-58 | each boundary is the previous one plus the width, rounded to 3 digits |
| `Intervals.CrearLimitesIntervalos` | Modulos/PruebaChiCuadrado.py:51-59 | returns the boundaries: division by zero exactly for `k == 0`; `[]` for negative `k`; otherwise `k + 1` values from 0.0, each the rounded sum of its predecessor and `round(1/k, 4)` |
| `Intervals.LimitsIncrease` | Modulos/PruebaChiCuadrado.py:55-58 | a width above 0.0005 makes the boundaries strictly increasing |
| `Intervals.LimitsStall` | Modulos/PruebaChiCuadrado.py:55-58 | a width below 0.0005 leaves every boundary at 0.0 |
| `Intervals.FewIntervalsIncrease` | Modulos/PruebaChiCuadrado.py:55-58 | for 1 to 1000 intervals the boundaries strictly increase |
| `Intervals.ManyIntervalsCollapse` | Modulos/PruebaChiCuadrado.py:55-58 | from 2500 intervals on all `k + 1` boundaries are 0.0 |
| `Intervals.ThreeBoundaries` | Modulos/PruebaChiCuadrado.py:55-58 | three intervals give the boundaries 0.0, 0.333, 0.666, 0.999: the last one is not 1.0 |
| `Intervals.CrearIntervalos` | Modulos/PruebaChiCuadrado.py:61-72 | the interval dictionary has distinct keys and at most `len(b) - 1` entries |
| `Intervals.IntervalsOfIncreasing` | Modulos/PruebaChiCuadrado.py:68-71 | for increasing boundaries: `len(b) - 1` intervals in index order, interval `i` is `[b[i], b[i+1]]`, each upper bound is the next lower bound |
| `Intervals.IntervalsOfConstant` | Modulos/PruebaChiCuadrado.py:68-71 | equal boundaries produce one label, so a single interval remains |
| `Counting.Count` | Modulos/PruebaChiCuadrado.py:46-47 | a filtered count never exceeds the sample size |
| `Counting.CountIsPositions` | Modulos/PruebaChiCuadrado.py:46-47 | the count is the number of sample positions whose value lies in `[lo, hi)` |
| `Counting.CountAll` | Modulos/PruebaChiCuadrado.py:46-47 | the count equals the sample size exactly when every value lies in the interval |
| `Counting.CountConcat` | Modulos/PruebaChiCuadrado.py:47 | counting a concatenation adds the counts of its parts |
| `Counting.Frequencies` | Modulos/PruebaChiCuadrado.py:43-49 | one count per interval |
| `Counting.ContarFrecuencias` | Modulos/PruebaChiCuadrado.py:35-49 | returns the intervals' keys in their order, each with its filtered count; each count is at most the sample size |
| `Counting.TotalIsHitTotal` | Modulos/PruebaChiCuadrado.py:45-48 | the counts add up to the number of (value, containing interval) pairs |
| `Counting.HitsOfPartition` | Modulos/PruebaChiCuadrado.py:47 | over increasing boundaries a value in `[b[0], b[last])` lies in exactly one interval, any other value in none |
| `Counting.HitTotalOfPartition` | Modulos/PruebaChiCuadrado.py:45-48 | over increasing boundaries every value in range is counted once and no other value is counted |
| `Counting.CountsOfPartition` | Modulos/PruebaChiCuadrado.py:45-48 | the counts add up to the number of values in `[b[0], b[last])`: at most the sample size, and equal to it exactly when every value lies in range |
| `Counting.BoundaryValues` | Modulos/PruebaChiCuadrado.py:47 | an inner boundary is counted in the interval that starts there, the first boundary in the first interval, the last boundary in none |
| `Statistic.Square` | Modulos/PruebaChiCuadrado.py:10 | `d ** 2` is non-negative and zero exactly for `d == 0` |
| `Statistic.EstadisticoChi2` | Modulos/PruebaChiCuadrado.py:4-10 | division by zero exactly when `e == 0`; otherwise the term times `e` is `(o - e)^2`; for `e > 0` the term is non-negative and zero exactly when `o == e` |
| `Statistic.EstadisticoChi2Acumulado` | Modulos/PruebaChiCuadrado.py:12-33 | returns `len - 1` degrees of freedom, the rounded sum of the terms and the rounded terms in order, or the division by zero raised by an empty list or a zero expectation |
| `Statistic.UniformExpectedSum` | Modulos/PruebaChiCuadrado.py:25-27 | the defaulted expectations add up to the observed total |
| `Statistic.ExplicitDefaultsAgree` | Modulos/PruebaChiCuadrado.py:25-27 | passing the defaults explicitly gives the same result as leaving them out |
| `Statistic.UniformFailsIff` | Modulos/PruebaChiCuadrado.py:25-30 | with defaulted expectations the computation fails exactly when the list is empty or its total is 0 |
| `Statistic.StatisticOfPositiveExpected` | Modulos/PruebaChiCuadrado.py:29-33 | with positive expectations the unrounded statistic is non-negative and zero exactly when every observation equals its expectation; the reported values are non-negative |
| `Statistic.RoundedSumNear` | Modulos/PruebaChiCuadrado.py:32 | rounding each term to 2 digits moves their sum by at most 0.005 per term |
| `Statistic.StatisticNearContributions` | Modulos/PruebaChiCuadrado.py:31-33 | the reported statistic differs from the sum of the reported contributions by at most 0.005 per interval plus 0.005 |
| `Statistic.TextbookExample` | Modulos/PruebaChiCuadrado.py:108-109 | `[8, 7, 5, 4, 6]` gives 4 degrees of freedom, statistic 1.67 and contributions 0.67, 0.17, 0.17, 0.67, 0.0 |
| `ChiSquaredTest.Decide` | Modulos/PruebaChiCuadrado.py:94-97 | the null hypothesis stands exactly when the statistic is strictly below the critical value, and a tie rejects it |
| `ChiSquaredTest.PruebaChiCuadrado` | Modulos/PruebaChiCuadrado.py:74-97 | runs the steps in order and returns the composed result; `H0_NO_RECHAZABLE` exactly when the statistic is below `quantile(1 - alpha, df)` |
| `ChiSquaredTest.FrequenciesKeepKeys` | Modulos/PruebaChiCuadrado.py:43 | the counter dictionary has the intervals' keys, so its keys are distinct |
| `ChiSquaredTest.PerIntervalPairs` | Modulos/PruebaChiCuadrado.py:92 | the per-interval dictionary pairs the `i`-th count label with the `i`-th contribution |
| `ChiSquaredTest.StatisticNonNegative` | Modulos/PruebaChiCuadrado.py:90 | a completed test reports a non-negative statistic and non-negative contributions |
| `ChiSquaredTest.NoIntervals` | Modulos/PruebaChiCuadrado.py:87-90 | a non-positive number of intervals always ends in a division by zero |
| `ChiSquaredTest.FewIntervals` | Modulos/PruebaChiCuadrado.py:87-90 | for 1 to 1000 intervals: `k - 1` degrees of freedom, `k` counts in interval order adding up to the number of values in `[0, b[k])`, and failure exactly when no value is in that range |
| `ChiSquaredTest.ManyIntervals` | Modulos/PruebaChiCuadrado.py:87-90 | from 2500 intervals on the test divides by zero for every sample |
| `ChiSquaredTest.TopValueDropped` | Modulos/PruebaChiCuadrado.py:87-90 | with three intervals the sample `[0.9995]` is counted nowhere and the test divides by zero |
| `ChiSquaredTest.ClassroomCounts` | Modulos/PruebaChiCuadrado.py:128-131 | the thirty-value sample with five intervals gives the boundaries 0.0 to 1.0 in steps of 0.2 and the counts 8, 7, 5, 4, 6 |
| `ChiSquaredTest.ClassroomRun` | Modulos/PruebaChiCuadrado.py:128-131 | the full result of the thirty-value run; the null hypothesis stands at `alpha = 0.5` whenever the median with 4 degrees of freedom exceeds 1.67 |

## Left out

- `scipy.stats.chi2.ppf` is a floating-point quantile function, so it is a parameter `quantile(p, df)`. Its NaN result for 0 degrees of freedom (a single interval) is not modelled; in Python that NaN makes the test reject.
- Floating point is not modelled: values are exact reals. `round` is modelled on the exact decimal value, so a case where Python rounds the binary neighbour of a decimal tie differently is not captured, and neither are overflow, infinities or NaN. This matters for the boundaries: every boundary is a multiple of 0.001, so whenever `round(1/k, 4)` ends in the digit 5 (for example k = 16, k = 80 or 646 <= k <= 689) every step of `CrearLimitesIntervalos` is an exact decimal tie, which the model rounds to the even neighbour. For 1819 <= k <= 2222 the width is 0.0005, so the model keeps every boundary at 0.0 and its test divides by zero for every sample, while Python's binary 0.0005 lies just above the tie and its boundaries climb. For those k, `Boundaries` and `ChiSquaredTest` give the exact-decimal answer.
- The text of the labels, `str(lo) + " - " + str(hi)`, is not modelled. A label is the pair of its bounds, so two labels are equal exactly when their bounds are. This matches `str` on distinct floats.
- The console harnesses `testEstadisticoChi2Acumulado` and `testPruebaChi2` do I/O (`print`, `input`). They are not modelled; their constants appear in `Statistic.TextbookExample` and `ChiSquaredTest.ClassroomRun`.
- `Modulos/Constantes.py` is not part of this model; `ResultadosChi2` is the two-constructor datatype `Decision`.
- Statistic.EstadisticoChi2Acumulado: an explicit expectation list shorter than the observed list raises `IndexError` in the source. It is a precondition (`Admissible`) rather than an error value.
- Counting.ContarFrecuencias: it requires distinct interval keys, which every dictionary has. The counter dictionary is a list value that the loop reassigns, not a shared object, so aliasing is not modelled.
- Type errors from non-numeric inputs are not modelled; the inputs are typed.
