# AQI sub-index and aggregation, modelled in Dafny

This project models the core of a small Air Quality Index (AQI) program:

- the **sub-index calculator**, which maps one pollutant concentration to a
  score through a six-segment piecewise-linear table per pollutant (PM2.5,
  PM10, NO2, SO2, CO, Ozone);
- the **AQI aggregator**, which computes the six sub-index columns of every
  row of a table of daily readings and takes, per row, the largest defined
  sub-index as that row's AQI.

Modules:

- `Options` (`options.dfy`): the `Option` type that stands for a missing
  reading (a NaN cell) and for an undefined score.
- `Pollutants` (`pollutants.dfy`): the six pollutant kinds, their column
  names, recognition of a name by exact string comparison, and the column
  order of the aggregation step.
- `Breakpoints` (`breakpoints.dfy`): generic breakpoint tables (inclusive
  upper bounds, one linear formula per segment, an open-ended top segment)
  and their evaluation. This is the reference definition against which the
  program's branch chains are checked, and the place where monotonicity and
  continuity are proved once for any table.
- `SubIndexCalculator` (`subindex.dfy`): `SubIndex`, the branch chain of
  each pollutant exactly as written, with its constants; `CalculateSubIndex`,
  the name-dispatching entry point on a possibly missing reading; the six
  tables; and the properties of the scores.
- `AqiAggregator` (`aqi.dfy`): readings rows, sub-index columns, the
  NaN-skipping row maximum, and the table-level AQI step.

Concentrations and scores are exact `real`s. A missing reading is `None`:
in the program a NaN fails every comparison of the branch chain, so control
falls off the end and the result is `None`; the model returns `None`
directly. An unrecognised pollutant name also gives `None`.

Behaviour of the code that the model keeps exactly:

- A negative concentration is not rejected. It takes the first
  `value <= bound` branch (environment.py:11, 25, 39, 53, 68, 82) and gets a
  negative score, e.g. PM2.5 at -1 scores -5/3 (`ZeroAndSign`).
- Every table except Ozone's is continuous at every bound, PM10's identity
  segments (environment.py:25-36) and all open top segments included
  (`ContinuousExceptOzone`).
- Ozone's 208-748 segment divides by 539 rather than 540 (environment.py:91),
  so 748 scores 300 + 54000/539, just above 400. Ozone's open segment
  subtracts 400 rather than 748 (environment.py:93), so just past 748 the
  score jumps to about 464.6 (`OzoneJump`, `OpenSegment`). The jump is
  upward, so Ozone's score is still strictly increasing (`Monotone`).
- A score is non-negative exactly when the concentration is non-negative.

## Model

| member | source | states |
|---|---|---|
| `Pollutants.Parse` | environment.py:9-96 | a recognised name is exactly the column name of the pollutant it selects |
| `Pollutants.ParseName` | environment.py:10-81 | each of the six names selects its own pollutant, so no two pollutants share a branch |
| `Pollutants.ParseRecognises` | environment.py:9-96 | a name is recognised exactly when it is one of the six column names; every other string falls to the `None` branch |
| `Pollutants.ColumnIndex` | environment.py:99 | every pollutant has exactly one sub-index column in the aggregation order |
| `Breakpoints.SelectsSegment` | environment.py:11-22 | a value is scored by the formula of the one segment whose half-open range (previous bound, bound] covers it; the last segment is open above |
| `Breakpoints.SegmentsPartition` | environment.py:11-22 | the segments of a table cover every real value, each value exactly once |
| `Breakpoints.BoundUsesLowerSegment` | environment.py:11-22 | a value exactly on a bound uses the formula of the segment below (upper bounds are inclusive) |
| `Breakpoints.StrictlyIncreasing` | environment.py:9-93 | a table whose formulas all rise and never drop at a bound is strictly increasing over all reals |
| `Breakpoints.RiseBounded` | environment.py:9-79 | a continuous table whose slopes are at most L rises between any two values by at least 0 and at most L times their distance |
| `Breakpoints.UnrollFive` | environment.py:11-22 | a table with five finite bounds is evaluated as a six-way chain of inclusive-upper-bound tests |
| `SubIndexCalculator.SubIndex` | environment.py:10-93 | the six branch chains with their constants as written; it has no contract of its own and is characterised by `MatchesTable`, `Monotone`, `BreakpointValues`, `ZeroAndSign` and `OpenSegment` |
| `SubIndexCalculator.CalculateSubIndex` | environment.py:9-96 | a score is produced exactly when the reading is present and the name is recognised; an unknown name gives `None` for every value |
| `SubIndexCalculator.TableValid` | environment.py:9-93 | every pollutant's table has strictly increasing finite bounds and one more formula than bounds |
| `SubIndexCalculator.TableShape` | environment.py:9-93 | every pollutant's formulas have positive slopes and never drop at a bound; all but Ozone's meet exactly at every bound |
| `SubIndexCalculator.BranchesAreChain` | environment.py:9-93 | each pollutant's branch chain, constants as written, is the six-way chain of its breakpoint table |
| `SubIndexCalculator.MatchesTable` | environment.py:9-93 | for every pollutant and every real value the branch chain equals the lookup of the breakpoint table |
| `SubIndexCalculator.Monotone` | environment.py:9-93 | for every pollutant, a higher concentration gives a strictly higher score, across all segments and Ozone's jump at 748 |
| `SubIndexCalculator.SlopesWithinSteepest` | environment.py:9-93 | every slope of a pollutant's table lies between 0 and that pollutant's steepest slope |
| `SubIndexCalculator.ContinuousExceptOzone` | environment.py:10-79 | for PM2.5, PM10, NO2, SO2 and CO the score rises between a and b by at most the steepest slope times b - a, so it has no jump at any bound |
| `SubIndexCalculator.OzoneJump` | environment.py:90-93 | Ozone at 748 scores 300 + 540 * 100 / 539, just above 400, and every concentration above 748 scores more than 64 higher |
| `SubIndexCalculator.BreakpointValues` | environment.py:10-93 | every finite bound scores its table index 50, 100, 200, 300 or 400 (e.g. PM2.5 at 30 and PM10 at 50 give 50), except Ozone's bound 748 |
| `SubIndexCalculator.ZeroAndSign` | environment.py:11-83 | 0 scores 0 for every pollutant; the score is non-negative exactly for non-negative values and negative exactly for negative values; PM2.5 at -1 scores -5/3 |
| `SubIndexCalculator.OpenSegment` | environment.py:21-93 | above the last bound the score is 400 plus the distance from the last bound times the previous segment's slope (PM2.5: 400 + (v - 250) * 100 / 130); Ozone is anchored at 400 instead: 400 + (v - 400) * 100 / 539 |
| `AqiAggregator.SubIndices` | environment.py:99-101 | a row has six sub-index columns in the order PM2.5, PM10, Ozone, NO2, SO2, CO; each is defined exactly when its reading is present and is then that pollutant's score |
| `AqiAggregator.MaxDefined` | environment.py:102 | the NaN-skipping maximum is undefined exactly when every entry is missing, and otherwise is one of the present entries and no smaller than any |
| `AqiAggregator.NoSubIndexIffAllMissing` | environment.py:99-102 | a row has no defined sub-index exactly when all six readings are missing |
| `AqiAggregator.RowAqi` | environment.py:99-102 | a row's AQI is undefined exactly when all six readings are missing; otherwise it is one of the row's sub-indices and at least every defined one |
| `AqiAggregator.CalculateAqi` | environment.py:98-103 | one output row per input row in the same order, rows with undefined AQI included; readings unchanged; the sub-index columns added; AQI the maximum of that row's defined sub-indices |
| `AqiAggregator.RowsIndependent` | environment.py:100-102 | scoring a table split in two and joining the results equals scoring the whole table |
| `AqiAggregator.MaxDefinedMonotone` | environment.py:102 | raising present entries without changing which are present never lowers the maximum or changes whether it is defined |
| `AqiAggregator.AqiMonotone` | environment.py:98-102 | raising readings of a row without changing which are present never lowers its AQI |
| `AqiAggregator.WorkedExample` | environment.py:98-103 | PM2.5=25, PM10=40, Ozone=45, NO2=30, SO2=20, CO=0.5 give sub-indices 125/3, 40, 45, 37.5, 25, 25 and AQI 45 |
| `AqiAggregator.OpenSegmentExample` | environment.py:21-22 | PM2.5 at 300 with every other reading 0 gives AQI 400 + 50 * 100 / 130 |

## Left out

- `load_data` (environment.py:5-7): reading the CSV file and parsing dates is I/O; the model starts from a sequence of rows.
- The date column: it is carried through untouched and does not affect any score; `CalculateAqi` keeps row order, so the i-th AQI belongs to the i-th date.
- `fit_prophet_model` and the forecasting, future-date creation and date filtering in `main` (environment.py:105-109, 116-136): an external forecasting library whose behaviour is not visible.
- `get_user_input` (environment.py:111-114): interactive terminal input.
- Writing the forecast CSV and plotting (environment.py:139-149): output side effects.
- Floating point: the program computes in IEEE doubles (`50 / 30` is rounded); the model uses exact reals, so results agree up to rounding.
- NaN is modelled only as a missing reading (`None`); other non-numeric cell contents are not modelled.
- The pandas column mutation (environment.py:101-102): the model returns new rows carrying the readings, the six sub-index columns and the AQI instead of adding columns to a data frame in place.
