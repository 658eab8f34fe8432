# A/B simulation engine — Dafny model

This project models the simulation engine that compares two product variants
(A and B) of a mobile game by cohort-based simulation:

- **Retention curves** (`retention.dfy`, module `Retention`): the point-table
  curve `linear_retention` (install-day rule, exact hit, linear extrapolation
  from the two largest known days clamped at 0.0, linear interpolation between
  the nearest known days) and the exponential curves of the two new
  acquisition sources.
- **Cohort simulation** (`cohort.dfy`, module `Cohort`): `simulate_dau`, the
  O(n²) cohort sum in which every past install day contributes
  `installs * retention(age)`, age 1 being the install day.
- **Source combination** (`combine.dfy`, module `SourceCombiner`):
  `combine_sources`, the element-wise sum of per-source series.
- **Revenue simulation** (`revenue.dfy`, module `Revenue`): `VariantConfig`
  and `simulate_revenue`, daily IAP revenue from the day's installs plus ad
  revenue from the day's DAU, with an optional inclusive sale window that adds
  an absolute boost to the purchase rate.
- **Scenarios** (`scenarios.dfy`): the retention tables of the original
  acquisition source and a revenue example, checked against the general
  model.
- `outcomes.dfy` holds the `Option` and `Result` datatypes.

Numbers are Dafny `real`s: exact rational arithmetic in place of Python
floats. Install counts are `int`s and are converted to `real` where Python
multiplies them by a float. The Python loops (`simulate_dau`,
`combine_sources`, `simulate_revenue`) are methods with loops whose
invariants tie the partial list to a specification function (`Cohort.Dau`,
`SourceCombiner.ColumnSum`, `Revenue.RevenueOnDay`); the properties are
lemmas about those functions. `linear_retention` and the exponential curves
are pure functions.

Where the original code raises an exception, the model returns an error
value: `linear_retention` on an empty table (`known_days[-1]`), when it must
extrapolate from a single known day (`known_days[-2]`), or when it must
interpolate below the smallest known day (`max` of an empty sequence); and
`simulate_revenue` on install and DAU series of different lengths (its
`assert`). `combine_sources` does not check lengths: a source shorter than
the first raises `IndexError`, so the model requires every source to be at
least as long as the first, and reads longer sources only up to the first
one's length, as the code does.

Points where the code's behaviour is narrower or different from what its
docstrings or a reader might expect:
- The docstring of `linear_retention` (src/retention.py:19-20) calls the
  result a fraction "between 0 and 1"; the code clamps only below, so no
  upper bound is promised.
- The docstring of `combine_sources` (src/ab_test_task_1.py:62-63) asks for
  sources of the same length; the code does not check this (see above).
- An empty table, or a table with a single point, is accepted as an argument;
  the code fails only when a lookup needs the missing points, which
  `Retention.LinearRetentionFailsExactly` characterises.
- With a constant nonnegative install count and a nonnegative retention
  curve, DAU never decreases from one day to the next
  (`Cohort.ConstantInstallsDauNeverDecreases`): each day adds a cohort and no
  contribution turns negative, so such a series never declines; it levels
  off only once the retention curve reaches 0.0, as the clamped
  extrapolation of the driver's tables does.

The two retention families keep their different conventions below the
install day (the table gives 1.0 for every `day <= 1`, the exponential curves
give 0.0 for `day < 1`). `Cohort.DauReadsAgesFromOne` shows the difference
never reaches the DAU simulation, which asks only for ages 1 and up.

## Model

| member | source | states |
|---|---|---|
| `Retention.LastTwoKnownDays` | src/retention.py:30-35 | the two days used for extrapolation are known days `d1 < d2` and every other known day is below `d1`: the last two of the sorted keys |
| `Retention.NearestKnownDays` | src/retention.py:40-44 | the interpolation endpoints are known days `prev < day < next` with no known day strictly between them except `day`: the largest key below and the smallest key above |
| `Retention.Interpolate` | src/retention.py:43-47 | the interpolating line passes through both known points and, between them, stays between their two values |
| `Retention.Extrapolate` | src/retention.py:34-37 | the extrapolated value is never negative; it is the line through the two last points where that line is nonnegative and 0.0 where it is negative |
| `Retention.LinearRetention` | src/retention.py:5-47 | every `day <= 1` gives 1.0 whatever the table; a known day `> 1` gives its table value exactly; an extrapolated value is never negative |
| `Retention.LinearRetentionFailsExactly` | src/retention.py:27-41 | the lookup fails iff `day > 1`, `day` is not a key and either extrapolation has fewer than two keys or interpolation has no key below `day`; empty table, single key and no key below each give their own error |
| `Retention.ExtrapolationBeyondLastKnownDay` | src/retention.py:33-37 | beyond the largest key `d2`, with `d1` the next largest, the result is the line through `(d1, r1)` and `(d2, r2)` clamped at 0.0, and never negative |
| `Retention.InterpolationBetweenAdjacentKnownDays` | src/retention.py:39-47 | strictly between adjacent keys the result is the line through their points and lies between `min(r1, r2)` and `max(r1, r2)` |
| `Retention.TableWithInstallDayNeverFails` | src/retention.py:22-41 | a table with at least two keys, one of them `<= 1`, gives a value for every day |
| `Retention.ExponentialRetention` | src/retention.py:56-58 | 0.0 before the install day, never negative, `r0 * exp(0)` on the install day |
| `Retention.RetentionNewVariantA` | src/retention.py:51-58 | 0.0 for `day < 1`, `0.58 * exp(-0.12 * (day - 1))` otherwise, never negative |
| `Retention.RetentionNewVariantB` | src/retention.py:62-69 | 0.0 for `day < 1`, `0.52 * exp(-0.10 * (day - 1))` otherwise, never negative |
| `Cohort.SimulateDau` | src/ab_test_task_1.py:28-58 | the DAU list has one entry per install day (empty for no installs) and entry `t - 1` is the sum over install days `s` in `1..t` of `installs[s - 1] * retention(t - s + 1)` |
| `Cohort.ZeroInstallsZeroDau` | src/ab_test_task_1.py:47-56 | all-zero installs give all-zero DAU whatever the retention curve |
| `Cohort.SingleCohortTracesRetention` | src/ab_test_task_1.py:51-54 | a single cohort of size `N` on day `k` gives `N * retention(t - k + 1)` on every day `t >= k` and 0 before |
| `Cohort.DauIgnoresFutureInstalls` | src/ab_test_task_1.py:51-52 | DAU on day `t` depends only on the installs of days `1..t` |
| `Cohort.DauReadsAgesFromOne` | src/ab_test_task_1.py:51-54 | DAU on day `t` depends only on the retention of ages `1..t` |
| `Cohort.DauAdditive` | src/ab_test_task_1.py:51-54 | simulating the element-wise sum of two install series gives the sum of their DAUs |
| `Cohort.ConstantInstallsDau` | src/ab_test_task_1.py:47-54 | with `n` installs every day, DAU on day `t` is `n` times the retention summed over ages `1..t` |
| `Cohort.ConstantInstallsDauNeverDecreases` | src/ab_test_task_1.py:47-56 | with a constant nonnegative install count and nonnegative retention, DAU never decreases from one day to the next |
| `SourceCombiner.CombineSources` | src/ab_test_task_1.py:60-82 | no sources give `[]`; otherwise the result is as long as the first source and day `i` is the sum of day `i` of every source |
| `SourceCombiner.CombineOrderIndependent` | src/ab_test_task_1.py:76-80 | any reordering of equal-length sources gives the same sums on every day |
| `SourceCombiner.ColumnSumSplit` | src/ab_test_task_1.py:76-80 | summing two groups of sources together equals adding the sums of each group (combining is associative) |
| `Revenue.SimulateRevenue` | src/ab_test_task_1.py:84-143 | no sale, no boost and ARPPU 5.0 unless given; different lengths of installs and DAU are rejected with no output; otherwise one value per day, day `i` being `installs[i] * rate_i * arppu + dau[i] * impressions * ecpm / 1000` with the rate boosted exactly inside the inclusive 1-based sale window |
| `Revenue.SaleEffect` | src/ab_test_task_1.py:122-134 | outside the sale window (or with no sale) a day earns the no-sale revenue; inside it earns exactly `installs[i] * boost * arppu` more |
| `Revenue.RevenueNonnegative` | src/ab_test_task_1.py:130-141 | with nonnegative inputs every day's revenue is nonnegative |
| `Scenarios.RetentionPointsAInsideTable` | task_1.py:34-40 | table A gives 1.0 on the install day, 0.17 on known day 8 and 0.40 on day 3, between days 2 and 4 |
| `Scenarios.RetentionPointsABeyondTable` | task_1.py:34-40 | table A extrapolates to 0.31/7 on day 16 and is clamped to 0.0 on day 30 |
| `Scenarios.RetentionTablesNeverFail` | task_1.py:34-48 | neither retention table of the original acquisition source ever makes the lookup fail |
| `Scenarios.NewSourceFirstDayDau` | src/ab_test_task_1.py:47-54 | 20000 installs a day under variant A's new-source curve give 20000 * 0.58 active users on day 1 (taking exp(0) = 1) |
| `Scenarios.RevenueExample` | src/ab_test_task_1.py:84-143 | 100 installs and 100 DAU a day at rate 0.03, the default ARPPU of 5.0, eCPM 10 and 2 impressions earn 17.0 a day; a sale on days 2–4 with boost 0.01 raises those days to 22.0 |

## Left out

- `math.exp` is a transcendental floating-point function; the exponential curves take it as a parameter returning a nonnegative real, and nothing else is assumed about it.
- IEEE floating-point rounding: all arithmetic is exact over `real`, so the model makes no claim of bit-exact agreement with Python floats.
- `Retention.LinearRetention` is a ghost function (the sorted keys are obtained by choosing largest and smallest elements of the key set), so the point-table curve cannot be passed as a value to the compiled `Cohort.SimulateDau`; the DAU lemmas are stated for any retention function and apply to it.
- Python's dynamic typing: a non-integer `day` or a non-numeric table value cannot be expressed, because the types are `int` and `real`.
- `VariantConfig.name` is carried but, as in the code, never used in a computation.
- `src/task_2_analysis.py` (loading compressed event files, pandas aggregation, plotting), `task_1.py` (the driver: scenario wiring, printed totals, charts and the global plot style) and `task_2_runner.py` are I/O, library calls and presentation; only `task_1.py`'s retention tables are reused, in `scenarios.dfy`.
- The driver's sums of revenue through day 15 or 30 and the comparison of variants are not modelled.
