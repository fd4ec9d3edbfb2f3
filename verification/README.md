# Vibration analytics tools, modelled in Dafny

The repository is a classroom demo. Its language-model agents call a handful of
Python "tools" over a MySQL table of equipment readings. The tools list the
table's columns and guess which one holds the vibration reading and which one
holds the timestamp. They fetch one day's rows and turn them into a text
answer: every reading of the day, the day's maximum, or the day's outliers.
Two more tools summarise a list of readings (mean, population variance,
maximum, minimum) and add a list up. Alongside the agents are a preview script
that inspects the table and an upload script that normalises column names
before writing a DataFrame.

This project models the logic of those tools over given inputs. The column
list, the fetched rows and the database's answers are parameters. Numbers are
`real`. A cell is `Num(x)` when Python's `isinstance(v, (int, float))` holds,
otherwise `NonNum`. Python's `str` of a cell is a parameter `show`.

Modules (one file each):

- `Text` (`text.dfy`): the string built-ins the tools use. These are ASCII
  `lower`, the substring test, `strip`, one-character `replace`, `join` and
  `str` of a natural number. It also defines a one-character `split`, which
  no tool calls: the lemmas use it to read an answer back into its lines.
- `Schema` (`schema.dfy`): column-role resolution. The vibration column is the
  first name whose lower-case form contains `vibration`. The time columns are
  every name containing `time` or `date`, in order, and the time column is the
  first of them. A missing vibration column is reported before a missing time
  column.
- `Stats` (`stats.dfy`): `analyze_vibration_list` and `calculate_sum`, plus
  the facts about mean and population variance that the outlier test relies
  on, up to Samuelson's inequality.
- `Outliers` (`outliers.dfy`): `find_vibration_outliers_on_date` after the
  fetch. It keeps the numeric readings and computes their mean and spread. It
  collects the flagged rows, projected onto the columns, in a loop, then
  builds the numbered report in a second loop. Both loops are methods proved
  against specification functions.
- `RowReport` (`rowreport.dfy`): the answers of `get_vibration_all_on_date`
  (one line per row) and `get_vibration_max_on_date`.
- `Preview` (`preview.dfy`): `main` of the preview script, as the sequence of
  reports it issues. Its loop runs over the time columns.
- `Normalize` (`normalize.dfy`): the column-name comprehension of
  `upload_dataframe`.

`openai_agent_case2_vibration.py` and `Vibration_openai_agent_case3_Multiagent.py`
hold the same tool code at the same line numbers (85-269). One model serves
both, and the table cites whichever file is clearer.

The outlier test `std > 0 and abs(val - avg) > threshold * std` is stated
without the square root: `variance > 0 and (threshold < 0 or (val - avg)² >
threshold² · variance)`. `Outliers.FlagsAgreesWithStd` proves this agrees with
the original test for any exact root `std` of the variance.

At the default threshold 3.0 the readings `[1, 1, 1, 1, 100]` flag nothing,
because the code uses the population formulas. By Samuelson's inequality no
reading is more than sqrt(n - 1) population standard deviations from the
mean, so in exact arithmetic at least 11 numeric readings are needed before
threshold 3.0 can flag anything (`Outliers.DefaultThresholdNeedsElevenReadings`).
With exactly 10 readings the extreme case `[0] * 9 + [x]` sits exactly on the
bound, where floating-point rounding of the real code could decide either way.
`analyze_vibration_list` returns no count of the readings, only the mean, the
variance, the maximum and the minimum.

## Model

| member | source | states |
|---|---|---|
| Text.Contains | Vibration_openai_agent_case3_Multiagent.py:156 | the substring test `pattern in s` holds exactly when the pattern occurs at some position of the string |
| Text.Lower | Vibration_openai_agent_case3_Multiagent.py:156 | lower-casing keeps the length of a name |
| Text.StripLeft | upload_data.py:69 | the result is a suffix whose first character is not whitespace; everything removed is whitespace |
| Text.StripRight | upload_data.py:69 | the result is a prefix whose last character is not whitespace; everything removed is whitespace |
| Text.Strip | Vibration_openai_agent_case3_Multiagent.py:189 | the stripped string is no longer than the input and neither starts nor ends with whitespace |
| Text.StripKeeps | upload_data.py:69 | a string with no whitespace at either end is unchanged by `strip` |
| Text.StripLineFeed | Vibration_openai_agent_case3_Multiagent.py:188-189 | `strip` of a report ending in one line feed removes exactly that line feed |
| Text.StripSpaces | upload_data.py:69 | one space on each side of a trimmed name is removed by `strip` |
| Text.Replace | upload_data.py:69 | `replace` keeps the length |
| Text.ReplaceRemoves | upload_data.py:69 | after replacing a character by a different one none is left, and no other character is introduced |
| Text.ReplaceKeepsEnds | upload_data.py:69 | replacing by a non-whitespace character keeps a trimmed string trimmed |
| Text.JoinAppend | Vibration_openai_agent_case3_Multiagent.py:124 | joining one more part appends the separator and that part |
| Text.JoinEnds | Vibration_openai_agent_case3_Multiagent.py:124 | a join of non-empty parts starts with the first part's first character and ends with the last part's last character |
| Text.Join | Vibration_openai_agent_case3_Multiagent.py:124 | `sep.join(parts)`; `JoinAppend`, `JoinEnds` and `SplitJoin` state its properties |
| Text.Split | test_sql.py:56 | splitting always yields at least one piece |
| Text.SplitWithout | test_sql.py:56 | a string without the separator splits into itself alone |
| Text.SplitAfter | test_sql.py:56 | splitting `a + sep + rest`, with no separator in `a`, yields `a` and then the pieces of `rest` |
| Text.SplitJoin | test_sql.py:56 | splitting at the separator undoes `"\n".join` when no part contains the separator |
| Text.Digits | Vibration_openai_agent_case3_Multiagent.py:186-188 | the number printed before each outlier is a non-empty string of decimal digits, with no leading zero, whose decimal value is that number |
| Text.DigitsInjective | Vibration_openai_agent_case3_Multiagent.py:186-188 | different outlier numbers are printed differently |
| Schema.Matches | Vibration_openai_agent_case3_Multiagent.py:156-157 | the two name rules: "vibration", or "time" or "date", in the lower-cased name; `FirstVibrationColumn`, `TimeColumns` and `Resolve` state what follows from them |
| Schema.FirstVibrationColumn | Vibration_openai_agent_case3_Multiagent.py:156 | `None` exactly when no name contains "vibration" case-insensitively; otherwise the first name that does |
| Schema.TimeColumns | Vibration_openai_agent_case3_Multiagent.py:157 | holds exactly the names containing "time" or "date" case-insensitively; empty exactly when there are none; its head is the first such column |
| Schema.TimeColumnsConcat | check_db_preview.py:68 | the time-column filter distributes over concatenation, so it keeps the ordinal order |
| Schema.Resolve | Vibration_openai_agent_case3_Multiagent.py:156-162 | "no vibration column" exactly when no name matches; "no time column" exactly when a vibration column exists and no time column does; otherwise the first vibration column and the first time column, both taken from the list |
| Schema.ResolvedTimeIsFirstTimeColumn | test_sql.py:45 | `time_col` is `time_columns[0]` |
| Schema.SchemaMessage | Vibration_openai_agent_case3_Multiagent.py:158-161 | each schema failure message is a sentence ending in a full stop |
| Schema.SchemaMessagesDistinct | test_sql.py:41-44 | the two schema failures produce different messages |
| Schema.DeviceTimeRoles | test_sql.py:39-40 | `Device_Time` is a time column and not a vibration column |
| Schema.ShortNamesRoles | test_sql.py:39-40 | `id` and `reading` match no role; `VibrationX` is a vibration column |
| Schema.ResolveExamples | test_sql.py:39-45 | `["id","Device_Time","VibrationX"]` resolves to time `Device_Time` and vibration `VibrationX`; `["id","reading"]` fails with "no vibration column" |
| Stats.SumSqNonNegative | Vibration_openai_agent_case3_Multiagent.py:205 | a sum of squares is never negative |
| Stats.SumConcat | openai_agent_case2_vibration.py:264 | the sum of a concatenation is the sum of the two parts |
| Stats.SumSqConcat | Vibration_openai_agent_case3_Multiagent.py:205 | the sum of squares of a concatenation is the sum of the parts' sums of squares |
| Stats.Sum | openai_agent_case2_vibration.py:264 | Python's `sum`, 0 for the empty list; `SumConcat` and `CalculateSum` relate it to the code's left-to-right sum |
| Stats.Count | Vibration_openai_agent_case3_Multiagent.py:203 | `n` as a real is the length of the list |
| Stats.SumBounds | Vibration_openai_agent_case3_Multiagent.py:204 | n elements within [lo, hi] sum to within [n·lo, n·hi] |
| Stats.Mean | Vibration_openai_agent_case3_Multiagent.py:204 | `sum(values) / n`; `MeanTimesCount` and `MeanBetween` state its properties |
| Stats.Deviations | Vibration_openai_agent_case3_Multiagent.py:205 | the deviations `x - m`, one per reading |
| Stats.DeviationAt | Vibration_openai_agent_case3_Multiagent.py:205 | the i-th deviation is the i-th reading less the mean |
| Stats.Variance | Vibration_openai_agent_case3_Multiagent.py:205 | the population variance; `VarianceTimesCount`, `VarianceNonNegative`, `VarianceZeroIffConstant` and `Samuelson` state its properties |
| Stats.MaxOf | Vibration_openai_agent_case3_Multiagent.py:206 | `max` is an element of the list and at least every element |
| Stats.MinOf | Vibration_openai_agent_case3_Multiagent.py:207 | `min` is an element of the list and at most every element |
| Stats.SumDeviations | Vibration_openai_agent_case3_Multiagent.py:204-205 | the deviations from m sum to the sum less n·m |
| Stats.MeanTimesCount | Vibration_openai_agent_case3_Multiagent.py:204 | mean × n equals the sum |
| Stats.VarianceTimesCount | Vibration_openai_agent_case3_Multiagent.py:205 | variance × n equals the sum of squared deviations from the mean |
| Stats.VarianceNonNegative | Vibration_openai_agent_case3_Multiagent.py:205 | the population variance is never negative |
| Stats.MeanBetween | Vibration_openai_agent_case3_Multiagent.py:204-207 | min ≤ mean ≤ max |
| Stats.WeightedBetween | Vibration_openai_agent_case3_Multiagent.py:204-207 | any m with m·n equal to the sum lies within bounds on every element |
| Stats.SummaryFacts | Vibration_openai_agent_case3_Multiagent.py:203-207 | for a non-empty list the four figures satisfy every relation above: mean and variance by their defining sums, min ≤ mean ≤ max, min and max are readings bounding all readings |
| Stats.Analyze | Vibration_openai_agent_case3_Multiagent.py:199-213 | the error result, with the message "Input list is empty.", exactly for the empty list, so nothing is divided by zero; otherwise a summary with the properties of `SummaryFacts` |
| Stats.CalculateSum | openai_agent_case2_vibration.py:261-264 | the left-to-right sum from 0 equals the sum of the list, which is 0 for the empty list |
| Stats.SquaredSumBound | Vibration_openai_agent_case3_Multiagent.py:175-176 | (Σa)² ≤ n·Σa², the Cauchy–Schwarz step behind Samuelson's inequality |
| Stats.RemoveAt | Vibration_openai_agent_case3_Multiagent.py:175-176 | removing one reading removes its term from the sum and from the sum of squares |
| Stats.Singleton | Vibration_openai_agent_case3_Multiagent.py:175-176 | a one-element list has that element as its sum, its square as its sum of squares, and count 1 |
| Stats.OthersOf | Vibration_openai_agent_case3_Multiagent.py:175-176 | the other readings have sum Σ − x, sum of squares Σ² − x² and count n − 1 |
| Stats.DeviationsFromMeanSumToZero | Vibration_openai_agent_case3_Multiagent.py:175-176 | the deviations from the mean sum to zero |
| Stats.CenteredBound | Vibration_openai_agent_case3_Multiagent.py:175-176 | for a list summing to zero with v·n = Σd², every element's square is at most (n − 1)·v |
| Stats.Samuelson | Vibration_openai_agent_case3_Multiagent.py:175-176 | every reading's squared deviation from the mean is at most (n − 1) × population variance |
| Stats.SumSqZero | Vibration_openai_agent_case3_Multiagent.py:176 | a sum of squares is zero exactly when every element is zero |
| Stats.SumSqHead | Vibration_openai_agent_case3_Multiagent.py:176 | a sum of squares is the first square plus the rest's sum of squares |
| Stats.ConstantHasZeroVariance | Vibration_openai_agent_case3_Multiagent.py:176 | equal readings have that reading as mean and zero variance |
| Stats.VarianceZeroIffConstant | Vibration_openai_agent_case3_Multiagent.py:176 | `std` is 0 exactly when all readings are equal |
| Stats.SingleReadingExample | Vibration_openai_agent_case3_Multiagent.py:199-213 | `[5.0]` gives mean 5, variance 0, max 5, min 5 |
| Stats.FourReadingsExample | Vibration_openai_agent_case3_Multiagent.py:199-213 | `[1, 2, 3, 4]` gives mean 2.5, variance 1.25, max 4, min 1 |
| Outliers.CompleteHasColumn | Vibration_openai_agent_case3_Multiagent.py:165-172 | rows from `SELECT *` hold every listed column, the vibration column among them |
| Outliers.NumericValues | Vibration_openai_agent_case3_Multiagent.py:172 | each row contributes at most one reading |
| Outliers.NumericValuesAppend | Vibration_openai_agent_case3_Multiagent.py:172 | the readings of two blocks of rows are the first block's readings followed by the second's, so row order is kept |
| Outliers.NumericValuesOne | Vibration_openai_agent_case3_Multiagent.py:172 | a single row contributes its reading exactly when the cell is numeric, and nothing otherwise |
| Outliers.NumericValueIndex | Vibration_openai_agent_case3_Multiagent.py:172 | every numeric cell of the vibration column is among the readings |
| Outliers.NoReadingsIffNoNumericCell | Vibration_openai_agent_case3_Multiagent.py:172-174 | the readings are empty exactly when no cell of the vibration column is a number |
| Outliers.Flags | Vibration_openai_agent_case3_Multiagent.py:180 | the root-free form of the test; `FlagsAgreesWithStd` proves it equal to the code's test |
| Outliers.FlagsAgreesWithStd | Vibration_openai_agent_case3_Multiagent.py:176-180 | for any exact root `std` of the variance, the root-free test holds exactly when the cell is numeric, `std > 0` and `abs(val - avg) > threshold * std` |
| Outliers.ProjectKeepsColumns | Vibration_openai_agent_case3_Multiagent.py:181 | a projected outlier holds each column once, with the row's cell for it; for a table's column list (no repeats) the columns come in column order |
| Outliers.Project | Vibration_openai_agent_case3_Multiagent.py:181 | `{col: row[col] for col in columns}` as a list of pairs; `ProjectKeepsColumns` states what it holds |
| Outliers.DistinctFrom | Vibration_openai_agent_case3_Multiagent.py:181 | the names not yet seen, each once |
| Outliers.Distinct | Vibration_openai_agent_case3_Multiagent.py:181 | the dict keeps each column name once, and every name |
| Outliers.DistinctFromKeeps | Vibration_openai_agent_case3_Multiagent.py:181 | a list without repeats is kept as it is |
| Outliers.FlaggedIndices | Vibration_openai_agent_case3_Multiagent.py:178-180 | the positions of the flagged rows, strictly increasing; a position is in it exactly when its row passes the test; empty exactly when no row does |
| Outliers.OutlierRecords | Vibration_openai_agent_case3_Multiagent.py:177-182 | the `outliers` list; `OutlierRecordsAreFlaggedRows` states its contents and `CollectOutliers` computes it by the loop |
| Outliers.OutlierRecordsAreFlaggedRows | Vibration_openai_agent_case3_Multiagent.py:177-182 | the outliers are, one for one and in row order, the projections of the rows at the flagged positions |
| Outliers.Search | Vibration_openai_agent_case3_Multiagent.py:170-184 | once the columns resolve, the search never reports a schema failure; a found list is non-empty and no longer than the rows |
| Outliers.SearchOutcomes | Vibration_openai_agent_case3_Multiagent.py:170-184 | no rows exactly for an empty fetch; "no valid data" exactly when rows exist and no cell is numeric; "no outliers" exactly when there are readings and no row is flagged; otherwise the projections of the flagged rows, one per flagged row and in row order, for the readings' mean and variance |
| Outliers.FindOutliers | Vibration_openai_agent_case3_Multiagent.py:156-184 | a schema failure is reported exactly when the columns do not resolve |
| Outliers.FindOutliersOutcomes | Vibration_openai_agent_case3_Multiagent.py:162-184 | with resolved columns, the four outcomes of `SearchOutcomes` on the resolved vibration column |
| Outliers.FindOutliersOnDate | Vibration_openai_agent_case3_Multiagent.py:136-189 | the tool's outcome, for a threshold defaulting to 3.0, is the search outcome and its answer is that outcome's message |
| Outliers.SearchRows | Vibration_openai_agent_case3_Multiagent.py:156-184 | the checks in order (schema, no rows, no readings), then the loop, give the search outcome |
| Outliers.ComposeMessage | Vibration_openai_agent_case3_Multiagent.py:170-189 | each exit returns its own string; for outliers, the stripped report |
| Outliers.CollectOutliers | Vibration_openai_agent_case3_Multiagent.py:177-182 | the loop appends exactly the flagged rows' projections, in row order |
| Outliers.FormatReport | Vibration_openai_agent_case3_Multiagent.py:185-188 | the loop builds the heading followed by one numbered entry per outlier |
| Outliers.Info | Vibration_openai_agent_case3_Multiagent.py:187 | `", ".join(f"{k}: {v}" ...)` over an outlier's columns |
| Outliers.Entry | Vibration_openai_agent_case3_Multiagent.py:188 | `f"{idx}. {info}\n"` |
| Outliers.Report | Vibration_openai_agent_case3_Multiagent.py:185-188 | the `result` string: the heading, then one numbered entry per outlier; `ReportJoin` gives its lines |
| Outliers.NoDataMessage | Vibration_openai_agent_case3_Multiagent.py:171 | `f"{date_str} 沒有資料。"` |
| Outliers.Message | Vibration_openai_agent_case3_Multiagent.py:159-189 | the string returned at each exit; `EmptyOutcomeMessagesDistinct` and `ReportHasNumberedLines` state its properties |
| Outliers.OnlyNumericRowsFlagged | openai_agent_case2_vibration.py:172-180 | only rows whose reading is numeric are flagged |
| Outliers.ZeroSpreadFlagsNothing | Vibration_openai_agent_case3_Multiagent.py:176-180 | when all readings are equal, nothing is flagged for any threshold |
| Outliers.NegativeThresholdFlagsAll | openai_agent_case2_vibration.py:136-180 | a negative threshold is accepted; with non-zero spread every numeric row is flagged, and only those |
| Outliers.ThresholdAboveSamuelsonFlagsNothing | openai_agent_case2_vibration.py:175-180 | with n readings, no row is flagged once threshold² ≥ n − 1 and the threshold is not negative |
| Outliers.DefaultThresholdNeedsElevenReadings | Vibration_openai_agent_case3_Multiagent.py:136-184 | at the default threshold 3.0, ten or fewer numeric readings never report outliers |
| Outliers.EmptyOutcomeMessagesDistinct | Vibration_openai_agent_case3_Multiagent.py:170-184 | "no rows", "no valid data" and "no outliers" give three different answers |
| Outliers.SchemaAnswerIsNotNoData | Vibration_openai_agent_case3_Multiagent.py:158-184 | a schema failure's answer differs from the no-rows, no-valid-data and no-outliers answers, for every date |
| Outliers.Lines | Vibration_openai_agent_case3_Multiagent.py:186-188 | one report line per outlier |
| Outliers.ReportJoin | Vibration_openai_agent_case3_Multiagent.py:185-188 | the loop's string is the heading and the numbered lines joined by line feeds, plus a final line feed |
| Outliers.LinesWithoutLineFeed | Vibration_openai_agent_case3_Multiagent.py:187-188 | a numbered line holds no line feed when its outlier's text holds none |
| Outliers.StrippedReportJoinsLines | Vibration_openai_agent_case3_Multiagent.py:188-189 | `strip` removes only the final line feed when the last outlier's text does not end in whitespace |
| Outliers.ReportHasNumberedLines | Vibration_openai_agent_case3_Multiagent.py:185-189 | the answer's lines are the heading, then line k reading `k. col: v, ...` for the k-th outlier, k = 1, 2, ... |
| Outliers.RootPositive | Vibration_openai_agent_case3_Multiagent.py:180 | `std > 0` exactly when the variance is positive |
| RowReport.RowLine | Vibration_openai_agent_case3_Multiagent.py:123 | `f"{time_col}: {row[0]}, {vibration_col}: {row[1]}"`; `OneLinePerRow` states how the lines make up the answer |
| RowReport.RowLines | Vibration_openai_agent_case3_Multiagent.py:123 | one line per fetched row |
| RowReport.AllOnDate | Vibration_openai_agent_case3_Multiagent.py:105-126 | the schema failure message when the columns do not resolve; the no-data message when there are no rows |
| RowReport.OneLinePerRow | test_sql.py:54-56 | with rows, the answer's lines are exactly the rows' `time: t, vibration: v` lines in row order, with no trailing line feed |
| RowReport.MaxOnDate | Vibration_openai_agent_case3_Multiagent.py:230-252 | the schema failure message when the columns do not resolve; the no-data message when the database returns no row |
| RowReport.SchemaFailureIsNotNoData | test_sql.py:41-58 | with unresolved columns, neither the all-readings tool nor the maximum tool answers with the no-data message, for any date |
| RowReport.ToolsShareSchemaRule | openai_agent_case2_vibration.py:107-113 | the three database tools fail alike on the same column list, a missing vibration column taking precedence |
| Preview.Plan | check_db_preview.py:38-88 | the reports `main` issues, in order; the lemmas below state their properties |
| Preview.RangeSteps | check_db_preview.py:69-77 | "no time columns", or one range report per time column |
| Preview.FinalStep | check_db_preview.py:82-88 | the schema failure report, or the maximum query with the resolved columns |
| Preview.PreviewTable | check_db_preview.py:38-88 | the loop-built sequence of reports is the plan: database found, table status, then rows, columns, one range per time column and the final query |
| Preview.RangedConcat | check_db_preview.py:72-77 | the ranges reported by two runs of reports are those of the first followed by those of the second |
| Preview.RangedNone | check_db_preview.py:72-77 | reports other than ranges report no column |
| Preview.RangedOfRangeSteps | check_db_preview.py:69-77 | the range reports name the time columns, in order |
| Preview.MissingTableStopsEarly | check_db_preview.py:38-45 | the database is reported first; the table is reported present exactly when the count is positive; a missing table ends with "not found" and nothing else |
| Preview.OneRangePerTimeColumn | check_db_preview.py:68-77 | exactly one range report per time column, in ordinal order |
| Preview.NotFoundIffNoTimeColumn | check_db_preview.py:68-70 | "no time/date columns" is reported exactly when no name mentions a time or a date |
| Preview.FinalStepFollowsTools | check_db_preview.py:82-88 | the last report is "no vibration column" exactly when none matches, "no time column" exactly when a vibration column exists and no time column does, otherwise the query on `time_columns[0]` |
| Normalize.NormalizeName | upload_data.py:69 | a normalised name holds no space and no hyphen, has the length of the stripped name, and has no whitespace at either end |
| Normalize.NormalizeColumns | upload_data.py:69 | one name per column, in the same order, each normalised |
| Normalize.CleanNameUnchanged | upload_data.py:69 | a trimmed name without spaces or hyphens is left unchanged |
| Normalize.NormalizeNameIdempotent | upload_data.py:67-69 | normalising a name twice gives what normalising once gives |
| Normalize.NormalizeColumnsIdempotent | upload_data.py:67-69 | normalising the column list twice gives what normalising once gives |
| Normalize.NormalizeExample | upload_data.py:69 | `" a-b "` becomes `"a_b"`, not `"_a_b_"`, because stripping comes first |
| Normalize.StripExample | upload_data.py:69 | `" a-b "` strips to `"a-b"` |
| Normalize.ReplaceExample | upload_data.py:69 | `"a-b"` becomes `"a_b"` after the two replacements |

## Left out

- Database access is not modelled: `mysql.connector`, SQLAlchemy engines, `SHOW COLUMNS`, the information_schema queries, cursors and closing. The column list, the rows, the table count and the day's top row are inputs.
- SQL semantics are not modelled: the `DATE()` filter, `ORDER BY ... ASC`, and `ORDER BY ... DESC LIMIT 1`. The rows come in the order given, and `RowReport.MaxOnDate` takes the row the database picked as a parameter.
- The catch-all `except Exception` handlers that turn failures into strings are not modelled. This includes the `KeyError` a row lacking a listed column would raise; the outlier search requires complete rows instead.
- The preview script's connection failure (`OperationalError`) is left out. So are its printed values: the five rows, the minima and maxima, and the maximum of the day. `Preview` records which report is issued, not what it prints.
- `Preview.PreviewTable`: does not model the hard-coded date of the final query or its "no data" branch, because both depend only on the database's answer.
- Agent and language-model plumbing is not modelled: providers, agents, runners, handoffs, streaming, the MCP server and client, RAGFlow and web search.
- `get_weather` is a constant stub and `get_current_time` reads the clock; neither is modelled.
- Environment and `.env` handling is not modelled.
- The debug `print` calls are not modelled.
- The pandas and matplotlib calls (`df.where`, `to_sql`, DataFrame printing) are not modelled.
- Floating point is not modelled: numbers are exact reals, and `** 0.5` is replaced by the root-free test that `Outliers.FlagsAgreesWithStd` relates to any exact root.
- `isinstance(v, (int, float))` is the `Num`/`NonNum` split chosen by the caller. Python counts `bool` as `int`, and MySQL `Decimal` cells fail the test; both are the caller's classification.
- `str` of a cell is the parameter `show`, not a model of Python's number formatting.
- `Text.Lower`: lower-cases ASCII letters only; Python's Unicode case mapping is not modelled.
- `Text.Strip`: treats only the ASCII characters Python calls whitespace (space, tab, line feed, vertical tab, form feed, carriage return and the separators 0x1C-0x1F) as whitespace; Python's whitespace beyond ASCII is not modelled.
- `Normalize.NormalizeName`: takes names that are already strings; `str(c)` of a non-string pandas label is not modelled.
- `Outliers.ReportHasNumberedLines`: holds only when no outlier's text contains a line feed and the last outlier's text does not end in whitespace. Otherwise `strip` and `split` do not give back the lines.
- `RowReport.OneLinePerRow`: holds only when no cell's text contains a line feed.
