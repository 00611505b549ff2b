# Data4Civic fairness metrics in Dafny

Data4Civic is a dashboard that compares how a budget is shared out across
sectors with how the population is shared out. Its only real logic is
`compute_metrics`. That function takes a table of `(sector, budget,
population)` rows and adds four columns: the budget share, the population
share, a fairness index and a fairness ratio. The index uses one of three
formulas, chosen by the method name: `difference`, `proportional` or
`ratio`. The dashboard then shows the average index with a note about its
sign, and a one-line "storytelling" narrative about the most extreme sector.

The model has four modules:

- `Wrappers` (wrappers.dfy) defines `Option`.
- `Series` (series.dfy) holds the pandas Series operations the code uses:
  `sum`, `mean`, `abs`, `clip`, `idxmin` and `idxmax`. They work on exact
  reals. `idxmin` and `idxmax` return the first position that holds the
  extreme value.
- `CivicMetrics` (metrics.dfy) models `compute_metrics`. It is an in-place
  update of an `array<Row>`, as the source writes each new column into the
  caller's frame. `ColumnSum` computes the two totals. Then one loop per
  column writes it; the proportional index takes two passes, as in the
  source (first the raw deviation, then clip and scale). `ComputeMetrics`
  is proved to leave the array equal to `Metrics(old(table))`, a function
  of the input table. The lemmas state what that table promises: the
  shares sum to 100, the formulas, their signs and bounds, that unknown
  methods leave the index alone, and that running it twice changes
  nothing.
- `Dashboard` (dashboard.dfy) holds the summary from
  `render_fairness_index` and the row selection and wording from
  `render_storytelling`.

The code has no guard on its divisions. `Computable` states the
preconditions it needs:

- a non-empty table has a non-zero budget total and a non-zero population
  total;
- every row has a non-zero population, which is the divisor of its ratio.

For an empty table pandas divides nothing, so there is no precondition.
`app.py` has no fallback for zero totals either, and the model adds
none.

A consequence proved for the exact-real model
(`Dashboard.DifferenceAverageIsZero`): under `difference`, the indices of a
computed table sum to 100 − 100 = 0. So the average is exactly 0, and the
sign test at app.py:54 picks the over-funding note. In the program, which
computes in floating point, the average is a rounding leftover close to 0.
Under `difference`, the average therefore tells the user nothing about the
table.

## Model

| member | source | states |
|---|---|---|
| `Series.Abs` | app.py:20 | the absolute value is non-negative and is either the value or its negation |
| `Series.AbsAll` | app.py:107 | the element-wise absolute value keeps the column's length and order, and holds `Abs` of each element |
| `Series.SumDifference` | app.py:9-10 | the sum of element-wise differences is the difference of the two column sums |
| `Series.SumAtLeast` | app.py:9-10 | a column whose elements are all at least lo sums to at least n × lo |
| `Series.SumAtMost` | app.py:46 | a column whose elements are all at most hi sums to at most n × hi |
| `Series.Clip` | app.py:21 | the result lies in [lower, upper], equals x when x is already inside, and equals the bound x crosses otherwise |
| `Series.Mean` | app.py:46 | the mean is undefined (NaN) exactly for an empty column; otherwise mean × count equals the column sum |
| `Series.IdxMin` | app.py:101 | the position of the smallest element, and of the first one when several tie |
| `Series.IdxMax` | app.py:107 | the position of the largest element, and of the first one when several tie |
| `Series.FirstMinIsUnique` | app.py:101 | "first minimum" names exactly one position, so the selected row is determined |
| `Series.FirstMaxIsUnique` | app.py:107 | "first maximum" names exactly one position, so the row selected by the absolute index is determined |
| `Series.MeanBounds` | app.py:46 | the mean of a non-empty column of values in [lo, hi] lies in [lo, hi] |
| `CivicMetrics.Share` | app.py:11-12 | one value as a percentage of its column total: the share times the total is 100 times the value |
| `CivicMetrics.Deviation` | app.py:20 | the unclipped proportional deviation 1 − abs(bs − ps)/ps is at most 1 for a positive population share, and equals 1 exactly at parity |
| `CivicMetrics.IndexFor` | app.py:14-24 | one row's index under each method: `difference` and `ratio` are 0 exactly at parity and positive exactly when over-funded (for `ratio`, given a positive share); `proportional` lies in [0, 100] and is 100 exactly at parity for a positive share; any other method keeps the previous index |
| `CivicMetrics.Derive` | app.py:7-26 | one computed row keeps sector, budget and population; each share times its total is 100 times the value; the population share is non-zero, and the ratio times the population share is the budget share |
| `CivicMetrics.Metrics` | app.py:6-27 | the output has the same number of rows in the same order, with sector, budget and population unchanged |
| `CivicMetrics.ColumnSum` | app.py:9-10 | a column total computed row by row equals the sum of the column |
| `CivicMetrics.AssignBudgetShare` | app.py:11 | every row's budget share becomes its budget divided by the total and times 100; nothing else changes |
| `CivicMetrics.AssignPopulationShare` | app.py:12 | every row's population share becomes its population divided by the total and times 100; nothing else changes |
| `CivicMetrics.AssignFairnessIndex` | app.py:14-24 | every row's index becomes the chosen method's formula of its two shares, or stays as it was for an unknown method; nothing else changes |
| `CivicMetrics.AssignDifferenceIndex` | app.py:15-17 | every row's index becomes budget share minus population share |
| `CivicMetrics.AssignProportionalIndex` | app.py:18-21 | after the raw-deviation pass and the clip-and-scale pass, every row's index is clip(1 − abs(bs − ps)/ps, 0, 1) × 100 |
| `CivicMetrics.AssignRatioIndex` | app.py:22-24 | every row's index becomes (bs/ps − 1) × 100 |
| `CivicMetrics.AssignFairnessRatio` | app.py:26 | every row's fairness ratio becomes bs/ps, whatever the method; nothing else changes |
| `CivicMetrics.ComputeMetrics` | app.py:6-27 | the array is updated in place to exactly `Metrics` of its old contents |
| `CivicMetrics.BudgetSharesSumTo100` | app.py:9-11 | each budget share is budget / total budget × 100, and the shares of a non-empty table sum to exactly 100 |
| `CivicMetrics.PopulationSharesSumTo100` | app.py:10-12 | each population share is population / total population × 100, and the shares of a non-empty table sum to exactly 100 |
| `CivicMetrics.PopulationSharesPositive` | app.py:10-12 | if no population is negative, every population share is strictly positive |
| `CivicMetrics.DifferenceIndex` | app.py:15-17 | under `difference` the index is bs − ps; it is 0 exactly at parity and positive exactly when the row is over-funded |
| `CivicMetrics.ProportionalIndex` | app.py:18-21 | under `proportional` the index is the clipped relative deviation × 100; it always lies in [0, 100] and, for a positive population share, equals 100 exactly at parity |
| `CivicMetrics.RatioIndex` | app.py:22-24 | under `ratio` the index is (bs/ps − 1) × 100; it is 0 exactly at parity and, for a positive population share, positive exactly when over-funded |
| `CivicMetrics.FairnessRatioParity` | app.py:26 | for every method the ratio is bs/ps, and it equals 1 exactly at parity |
| `CivicMetrics.DifferenceIndicesSumToZero` | app.py:15-17 | under `difference` the indices of a non-empty computed table sum to exactly 0 |
| `CivicMetrics.UnknownMethodKeepsIndex` | app.py:14-24 | a method name other than the three leaves the whole fairness-index column unchanged |
| `CivicMetrics.MetricsIdempotent` | app.py:157-160 | the output is again computable, and recomputing it gives back the same table |
| `CivicMetrics.DifferenceExample` | app.py:6-27 | two sectors with equal budgets and populations get shares of 50, index 0 and ratio 1 |
| `CivicMetrics.RatioExample` | app.py:22-24 | shares 80/20 give a ratio index of 300, and shares 20/80 give −75 |
| `Dashboard.FairnessSummary` | app.py:45-57 | the average is undefined exactly for an empty table, and otherwise average × count equals the index sum; the note is "higher is better" exactly under `proportional`, and otherwise "under-funding" exactly when the average is negative |
| `Dashboard.Storytelling` | app.py:96-113 | no story for an empty table (pandas raises there); otherwise the story names a real row with its sector and index; under `proportional` that row is the first minimum of the index; otherwise it is the first maximum of the absolute index, called under-funded exactly when the index is negative and over-funded otherwise |
| `Dashboard.ProportionalAverageBounded` | app.py:46-51 | under `proportional` the average index of a non-empty computed table lies in [0, 100] |
| `Dashboard.DifferenceAverageIsZero` | app.py:46-57 | under `difference` the average index of a non-empty computed table is exactly 0, so the over-funding note is shown |
| `Dashboard.ProportionalStoryBounded` | app.py:99-104 | under `proportional` the narrative reports an index in [0, 100] |

## Left out

- Streamlit rendering (`render_chart`, `render_table`, `render_fairness_table`, the title, sidebar and `st.*` calls in `main`): these are UI calls into a library outside this model.
- CSV upload and parsing (app.py:143-155) and the required-column check (app.py:147): this is I/O. The model's `Row` always has the three input columns.
- `astype(float)` (app.py:7-8): the columns are reals already, so the conversion is the identity. Its failure on text that is not a number is not modelled.
- Floating point: rounding (so share sums are exactly 100 here), and the NaN or infinity the unguarded divisions would give. `Computable` rules those inputs out instead.
- Extra input columns: `Row` has only the seven columns the code reads or writes.
- The first call with an unknown method: `Row` always has a fairness-index field, so the missing column (and the KeyError it later causes) is not modelled. Such a call keeps whatever value the row held.
- Index labels: pandas `idxmin` and `idxmax` return labels. The model returns positions, which are the same for the default index `read_csv` builds. The table that reaches `render_storytelling` (app.py:163) comes from `st.data_editor(df, num_rows="dynamic")` (app.py:39), where deleting rows leaves gaps in the labels. There `Story.row` is a position that can differ from the pandas label. The sector and value still come from the same row.
- The user's edits in the data editor between the two `compute_metrics` calls (app.py:159): they are external input. `MetricsIdempotent` covers the case where nothing was edited.
- The default argument `fairness_method="difference"`: every call in `main` passes the method.
- Message texts, emoji and format strings (app.py:50-57, 82-91, 104-113): presentation only. The model keeps which note or wording is chosen.
- CivicMetrics.ProportionalIndex: the "100 exactly at parity" part is stated only for a positive population share. With a negative share the clip always gives 100.
- CivicMetrics.RatioIndex: the "positive exactly when over-funded" part is stated only for a positive population share. A negative share flips the sign.
- Dashboard.DifferenceAverageIsZero: holds over exact reals only. In the program the float shares sum to 100 only up to rounding, so under `difference` the sign of the near-zero average, and with it the note at app.py:54-57, is decided by rounding.
