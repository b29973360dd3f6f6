# SARI dashboard data pipeline, modelled in Dafny

`total_diseases.py` is a Streamlit dashboard over two open-data extracts of
severe acute respiratory infection (SARI) hospital admissions in Austria. This
project models its data pipeline. Charts, page layout and downloads are not
modelled.

1. **Patients by place of residence** (`df`, then `df2`):
   - The legacy age-group label `"5 - 14"` is renamed to `"05 - 14"`.
   - The rows are grouped by week label (`weeknr_year`) and age group. `covid`, `influenza`, `rsv` and `other` are summed; `population` takes the maximum.
   - The frame gains `total_diseases`, the sum of the four counters.
   - The frame gains `real_date`, the Monday named by the week label, such as `"1. KW 2022"`.
2. **Hospitals by federal state** (`df_kh`, then `df_kh_2`):
   - The rows are grouped by week label (`KW`) and state (`BUNDESLAND`). `COVID`, `INFLUENZA`, `RSV`, `SONSTIGE` and `AUFNAHMEN` are all summed.
   - The frame gains `real_date`, computed the same way.

Modules:

- `Wrappers`: `Option`.
- `Keys`: the group key (two strings) and the order pandas sorts it in. That order is Python's code-point order on strings, applied to the first string and then the second.
- `Aggregate`: a generic `groupby(...).aggregate(...).reset_index()` over rows with a key and integer measure columns. Each column is reduced by `Sum` or `Max`. The meaning of a grouping is defined once, as the predicate `IsGrouping`:
  - one output row per distinct input key;
  - no other keys;
  - keys strictly ascending;
  - every column is the reduction over exactly the input rows of its key.

  `GroupBy` computes the grouping. Lemmas prove that the grouping is unique, that it does not depend on row order, and that summed columns keep their totals.
- `Calendar`: the proleptic Gregorian calendar of Python's `datetime`. It covers:
  - ordinals, with 1 January of year 1 as day 1;
  - the range 1..9999;
  - `weekday()`, with Monday as 0;
  - `toordinal` and `fromordinal`, proved to be inverses.
- `WeekLabel`: `pd.to_datetime(label + "-1", format="%W. KW %Y-%w")`. The format matches as the regular expression that strptime builds from it:
  - `%W` is `5[0-3]|[0-4]\d|\d`;
  - a space in the format is `\s+`;
  - matching ignores case;
  - the whole text must match.

  The matcher is a scanner, stage by stage. The language it should accept is also defined on its own, as the predicate `MatchesWeekFormat`, by the split points between the parts of the regular expression. `ParseWeekFormatExact` proves that the scanner accepts exactly that language and reads the same fields.

  A match then goes through strptime's `%W` day-of-year rule, the rollback into the previous year, and `date.fromordinal`.
- `Dashboard`: the record types, the label rename, the two aggregations, and the frames.
  - The frames are the objects the script changes by assigning a column: `PatientFrame`, `DiseaseSummary` and `AdmissionSummary`. They are classes whose methods update `seq` fields.
  - Each of `DiseaseDashboard` and `AdmissionDashboard` runs one pipeline in the script's order.

Three points of the code's behaviour that a reader might expect otherwise:

- The aggregated frames are sorted by key, because pandas `groupby` sorts by default.
- No check on the plausibility of the year exists. Any year converts, provided it and the resulting day are within the modelled range of `date` (see "## Left out").
- Both extracts are read with `;` as separator.

A conversion error is modelled as `None` (at the column level, `ok == false`). Three things cause one:
- the label does not match the format;
- the year is 0, so `date(0, 1, 1)` cannot be built;
- the resulting ordinal is outside `date`'s range.

## Model

| member | source | states |
|---|---|---|
| Keys.StrLess | total_diseases.py:32 | (no ensures) defines Python's `<` on `str`: code point by code point, a proper prefix sorting first |
| Keys.StrLessIrreflexive | total_diseases.py:32 | no string sorts before itself |
| Keys.StrLessTransitive | total_diseases.py:32 | the string order used for sorting group keys is transitive |
| Keys.StrLessTotal | total_diseases.py:32 | any two distinct strings are ordered one way or the other |
| Keys.KeyLess | total_diseases.py:32 | (no ensures) defines the order of the sorted group index (here and at line 68): by the first key column, then by the second |
| Keys.KeyLessIrreflexive | total_diseases.py:32 | no group key sorts before itself |
| Keys.KeyLessTransitive | total_diseases.py:32 | the lexicographic order on (first, second) group keys is transitive |
| Keys.KeyLessTotal | total_diseases.py:32 | two distinct group keys are always ordered, so sorting by key is well defined |
| Keys.KeyLessAsymmetric | total_diseases.py:32 | two keys are never ordered both ways |
| Aggregate.ColumnSum | total_diseases.py:35-38 | (no ensures) defines what `"sum"` yields for a group: column j added up over the rows whose key is the group's |
| Aggregate.IsMaxOf | total_diseases.py:39 | (no ensures) defines what `"max"` yields for a group: a value no row of the group exceeds and one row of the group attains |
| Aggregate.Reduces | total_diseases.py:33-40 | (no ensures) defines the value an aggregation entry's reducer yields for one column of one group |
| Aggregate.IsGrouping | total_diseases.py:31-43 | (no ensures) defines the grouped frame independently of how it is computed: one row per input key, no other keys, ascending keys, each column reduced over exactly its group's rows |
| Aggregate.Combine | total_diseases.py:33-41 | merging one more row into a group keeps one value per reducer |
| Aggregate.Insert | total_diseases.py:31-43 | adding a row to the groups adds its key to the key set and nothing else |
| Aggregate.GroupBy | total_diseases.py:31-43 | the result is a grouping of the input: one row per input key, no other keys, keys strictly ascending, each column the sum or maximum over exactly the rows of its key |
| Aggregate.InsertAscending | total_diseases.py:42 | inserting a row into ascending groups leaves them ascending |
| Aggregate.ConsAscending | total_diseases.py:42 | a row below every key of an ascending list may go in front of it |
| Aggregate.InsertAboveHead | total_diseases.py:42 | inserting past the head of an ascending list keeps everything after the head above it |
| Aggregate.AscendingHeadUnique | total_diseases.py:42 | in ascending groups the head's key occurs once |
| Aggregate.InsertContents | total_diseases.py:33-41 | after inserting a row, other groups are unchanged and its own group holds the new row merged in |
| Aggregate.ColumnSumAbsent | total_diseases.py:35-38 | a key absent from the input sums to 0 |
| Aggregate.ReducesOtherGroup | total_diseases.py:33-41 | a row of another key does not change a group's reduced value |
| Aggregate.ReducesNewGroup | total_diseases.py:33-41 | a row whose key is new reduces to its own values |
| Aggregate.ReducesMergedGroup | total_diseases.py:33-41 | merging a row into its group yields the reduction over the longer input (sum added, maximum taken) |
| Aggregate.InsertKeepsGrouping | total_diseases.py:31-43 | inserting a row into a grouping of the rest gives a grouping of all rows |
| Aggregate.KeysOfEmpty | total_diseases.py:31-43 | a frame has no keys exactly when it has no rows |
| Aggregate.KeysOfCons | total_diseases.py:32 | the keys of a list with one more row are that row's key added to the rest's keys |
| Aggregate.AscendingKeysUnique | total_diseases.py:42 | two ascending frames with the same key set have the same keys in the same places |
| Aggregate.GroupingUnique | total_diseases.py:31-43 | a grouping of some rows is unique |
| Aggregate.ColumnSumConcat | total_diseases.py:35-38 | a group's sum over two row blocks is the sum of their sums |
| Aggregate.RemoveMatching | total_diseases.py:31-43 | removing the same row from two orderings of one multiset leaves two orderings of one multiset |
| Aggregate.ColumnSumPermutation | total_diseases.py:35-38 | a group's sum does not depend on row order |
| Aggregate.GroupingPermutation | total_diseases.py:31-43 | a grouping of some rows is a grouping of any reordering of them |
| Aggregate.GroupByOrderIndependent | total_diseases.py:31-43 | reordering the input rows does not change the aggregated frame |
| Aggregate.ColumnTotal | total_diseases.py:33-40 | (no ensures) defines the sum of one column over all rows, the quantity a `sum` aggregation conserves (here and at lines 70-74) |
| Aggregate.InsertTotal | total_diseases.py:35-38 | inserting a row adds its value to a summed column's total |
| Aggregate.GroupByConservesSum | total_diseases.py:35-38 | a summed column has the same total before and after grouping |
| Calendar.IsLeap | total_diseases.py:46 | (no ensures) defines the Gregorian leap-year rule that `datetime` uses |
| Calendar.ValidDate | total_diseases.py:46 | (no ensures) defines the dates `date` can build: year 1 to 9999, month 1 to 12, day within the month; outside it the conversion raises |
| Calendar.DaysInYear | total_diseases.py:46 | a year has 365 or 366 days |
| Calendar.DaysInMonth | total_diseases.py:46 | a month has 28 to 31 days |
| Calendar.DaysBeforeMonth | total_diseases.py:46 | the days before a month are at most 335 |
| Calendar.DaysBeforeYear | total_diseases.py:46 | the days before a year are never negative |
| Calendar.ToOrdinal | total_diseases.py:46 | the ordinal of a valid date is in 1..3652059 and within its own year's span |
| Calendar.Weekday | total_diseases.py:46 | (no ensures) defines `date.weekday()` as the weekday of the date's ordinal, Monday = 0 |
| Calendar.OrdinalWeekday | total_diseases.py:46 | the weekday of an ordinal is in 0..6 |
| Calendar.FromOrdinal | total_diseases.py:46 | every ordinal in range is the ordinal of a valid date |
| Calendar.YearOf | total_diseases.py:46 | the year of an ordinal is the one whose span contains it |
| Calendar.ScanYear | total_diseases.py:46 | the upward year search ends at the year whose span contains the ordinal |
| Calendar.ScanMonth | total_diseases.py:46 | the month search ends at the month containing the day of the year |
| Calendar.DaysBeforeNextYear | total_diseases.py:46 | the next year starts one year length later |
| Calendar.DaysBeforeYearClosedForm | total_diseases.py:46 | the days before year y are 365p + p/4 − p/100 + p/400 with p = y − 1, the formula of Python's `datetime` |
| Calendar.DivStep | total_diseases.py:46 | p/k goes up by one exactly when p is a multiple of k (for k = 4, 100, 400) |
| Calendar.LeapCount | total_diseases.py:46 | a year's length is 365 plus the Gregorian leap-day rule |
| Calendar.CenturyOf400 | total_diseases.py:46 | a multiple of 400 is a multiple of 100 |
| Calendar.QuadOf100 | total_diseases.py:46 | a multiple of 100 is a multiple of 4 |
| Calendar.DaysBeforeYearMonotone | total_diseases.py:46 | later years start at least 365 days per year later |
| Calendar.CycleStart | total_diseases.py:46 | every 400-year cycle has 146097 days |
| Calendar.LastOrdinal | total_diseases.py:46 | 31 December 9999 is day 3652059 |
| Calendar.MonthFits | total_diseases.py:46 | a month ends inside its year |
| Calendar.YearBound | total_diseases.py:46 | an ordinal in range lies in a year no later than 9999 |
| Calendar.ScanMonthFinds | total_diseases.py:46 | the month search finds the month containing the day |
| Calendar.YearOfUnique | total_diseases.py:46 | only one year's span contains a given ordinal |
| Calendar.BracketUnique | total_diseases.py:46 | two years whose spans both contain an ordinal are the same year |
| Calendar.FromToOrdinal | total_diseases.py:46 | converting a valid date to an ordinal and back returns the same date |
| Calendar.ToOrdinalInjective | total_diseases.py:46 | distinct valid dates have distinct ordinals |
| WeekLabel.IsDigit | total_diseases.py:46 | (no ensures) defines the regular expression's `\d`, restricted to ASCII digits |
| WeekLabel.IsSpace | total_diseases.py:46 | (no ensures) defines `\s`, which stands for each space of the format: the characters `str.isspace` accepts |
| WeekLabel.IsK | total_diseases.py:46 | (no ensures) defines the literal `K` matched case-insensitively: `K`, `k` and the Kelvin sign |
| WeekLabel.IsW | total_diseases.py:46 | (no ensures) defines the literal `W` matched case-insensitively: `W` and `w` |
| WeekLabel.DigitValue | total_diseases.py:46 | a digit's value is 0..9 |
| WeekLabel.DigitChar | total_diseases.py:46 | the digit written for v reads back as v |
| WeekLabel.SpaceRun | total_diseases.py:46 | the greedy `\s+` run is all whitespace and stops at the first non-space |
| WeekLabel.WeekNumber | total_diseases.py:46 | an accepted `%W` value is 0..53 and is followed by the dot |
| WeekLabel.FourDigitValue | total_diseases.py:46 | four digits give a year in 0..9999 |
| WeekLabel.ParseWeekFormat | total_diseases.py:46 | a full match gives week 0..53, year 0..9999 and weekday digit 0..6; the text starts with a digit, has at least 12 characters, and its last digit is the `%w` value |
| WeekLabel.ParseAfterWeek | total_diseases.py:46 | the text after the week number matches only if the rest of the format does, with the week carried through |
| WeekLabel.ParseAfterKW | total_diseases.py:46 | the year part matches only as at least 7 characters ending in the `%w` digit |
| WeekLabel.MatchesWeekFormat | total_diseases.py:46 | (no ensures) defines the language of `%W. KW %Y-%w` declaratively, by its split points: a one- or two-digit week `5[0-3]|[0-4]\d|\d`, a dot, spaces, `KW`, spaces, four year digits, `-`, a digit 0 to 6, and nothing after; its fields are the values read |
| WeekLabel.SpaceRunEndsAt | total_diseases.py:46 | a run of spaces followed by a non-space is exactly what the greedy scanner measures |
| WeekLabel.ParseAfterKWExact | total_diseases.py:46 | the last stage accepts a text exactly when it is `\s+\d{4}-[0-6]` with nothing after, and reads its year and weekday digit |
| WeekLabel.ParseAfterWeekSound | total_diseases.py:46 | what the middle stage accepts is `\s+KW` followed by the rest of the format |
| WeekLabel.ParseAfterWeekComplete | total_diseases.py:46 | every text of that form is accepted by the middle stage, with the same fields |
| WeekLabel.ParseAfterWeekExact | total_diseases.py:46 | the middle stage accepts exactly the texts of that form |
| WeekLabel.WeekNumberDigits | total_diseases.py:46 | what the week scanner reads is one of the three alternatives of `%W` |
| WeekLabel.DigitsWeekNumber | total_diseases.py:46 | each alternative of `%W` followed by a dot is read by the week scanner, with its value |
| WeekLabel.ParseWeekFormatExact | total_diseases.py:46 | the matcher yields fields f exactly when the text is in the format's language with fields f; a text outside the language is rejected |
| WeekLabel.WeekdayFromDigit | total_diseases.py:46 | `%w` (Sunday = 0) becomes Monday = 0 counting, one day apart modulo 7 |
| WeekLabel.JulianFromWeek | total_diseases.py:46 | (no ensures) defines the `%W` day of the year of a week and weekday, from the weekday of 1 January of that year |
| WeekLabel.DayOfWeekYear | total_diseases.py:46 | (no ensures) defines that day of the year given 1 January's weekday: week 0 counts back from the first Monday, week n is 7 * (n - 1) days after it |
| WeekLabel.WeekOrdinal | total_diseases.py:46 | when the day exists its ordinal is in range and is 1 January's ordinal plus the `%W` day of the year minus one |
| WeekLabel.JulianOrdinal | total_diseases.py:46 | the rollback into the previous year preserves the day: the ordinal is 1 January's plus the day of the year minus one |
| WeekLabel.DateFromWeek | total_diseases.py:46 | the date exists exactly when the ordinal does, and has that ordinal |
| WeekLabel.RollbackKeepsOrdinal | total_diseases.py:46 | day j ≤ 0 of a year is day j + (length of the previous year) of the previous year |
| WeekLabel.NewYear | total_diseases.py:46 | 1 January of a year in range is a valid date |
| WeekLabel.NewYearOrdinal | total_diseases.py:46 | 1 January is the day after all days of earlier years |
| WeekLabel.FirstYearStartsOnMonday | total_diseases.py:46 | 1 January of year 1 (the first year `date` allows) is a Monday |
| WeekLabel.WeekOrdinalExact | total_diseases.py:46 | the day exists exactly when 1 January's ordinal + day of the year − 1 is in 1..3652059, and that is its ordinal |
| WeekLabel.JulianOrdinalExact | total_diseases.py:46 | the same exact statement for any day of the year, including the rollback and year 1 |
| WeekLabel.WeekArithmetic | total_diseases.py:46 | the `%W` day-of-year rule lands on the requested weekday |
| WeekLabel.DateFromWeekWeekday | total_diseases.py:46 | the date of (year, week, weekday) falls on that weekday |
| WeekLabel.MondayOfWeek | total_diseases.py:46 | for weeks 1..53 the date is a Monday, and 7·(week−1) days before it lies in the first seven days of the year: the first Monday plus whole weeks |
| WeekLabel.WeekZeroOrdinal | total_diseases.py:46 | the Monday of week 0 is as many days before 1 January as 1 January is after Monday |
| WeekLabel.WeekZeroSameDay | total_diseases.py:46 | that Monday is 1 January exactly when 1 January is a Monday |
| WeekLabel.WeekZeroPreviousYear | total_diseases.py:46 | otherwise the Monday of week 0 falls in the previous year |
| WeekLabel.MondayOfWeekZero | total_diseases.py:46 | week 0's date is a Monday; it is 1 January when the year starts on a Monday and in the previous year otherwise |
| WeekLabel.MondayStartOrdinal | total_diseases.py:46 | when a year starts on a Monday, weeks 0 and 1 both give 1 January's ordinal |
| WeekLabel.MondayStartJulian | total_diseases.py:46 | when a year starts on a Monday, the Monday of weeks 0 and 1 is day 1 |
| WeekLabel.FirstMondayIsDayOne | total_diseases.py:46 | the `%W` rule with 1 January a Monday puts the Monday of weeks 0 and 1 on day 1 |
| WeekLabel.WeekZeroMeetsWeekOne | total_diseases.py:46 | then "0. KW" and "1. KW" name the same date, 1 January |
| WeekLabel.JulianRange | total_diseases.py:46 | the `%W` day of the year for weeks 0..53 is within −5..377, and positive for weeks ≥ 1 or when the year starts on a Monday |
| WeekLabel.LastFullYearStart | total_diseases.py:46 | year 9998 starts after 3651329 days |
| WeekLabel.DateFromWeekDefined | total_diseases.py:46 | for years 1..9998 every week 0..53 and weekday yields a date |
| WeekLabel.WeekText | total_diseases.py:46 | a week number is written with one or two digits |
| WeekLabel.YearText | total_diseases.py:46 | a year is written with four digits that read back as the year |
| WeekLabel.WeekNumberOfText | total_diseases.py:46 | the written week and its dot parse back to the week |
| WeekLabel.FormatLabel | total_diseases.py:46 | (no ensures) defines the label form the data carries, week number, `. KW `, four-digit year |
| WeekLabel.ParseYearTail | total_diseases.py:46 | " KW YYYY-1" parses back to the year and weekday digit 1 |
| WeekLabel.ParseFormatLabel | total_diseases.py:46 | "N. KW YYYY-1" parses back to (N, YYYY, 1) |
| WeekLabel.AppendedSuffixIsMonday | total_diseases.py:46 | because "-1" is appended, the `%w` field is always 1, Monday |
| WeekLabel.ToDatetime | total_diseases.py:46 | (no ensures) defines `pd.to_datetime(label + "-1", format="%W. KW %Y-%w")` of one label: parse, then the date of the week's Monday, `None` where pandas raises; the same conversion runs at line 78; its properties are in the lemmas that follow |
| WeekLabel.ToDatetimeIsMonday | total_diseases.py:46 | every converted week label is a Monday |
| WeekLabel.ToDatetimeOfLabel | total_diseases.py:46 | "N. KW YYYY" converts to the Monday of week N of year YYYY |
| WeekLabel.AcceptedLabelShape | total_diseases.py:46 | only a label of at least 10 characters starting with a digit converts; any other label makes the conversion raise |
| WeekLabel.ToDatetimeMatches | total_diseases.py:46 | a converted label, with "-1" appended, is in the format's language, and its date is the one its fields give; a label outside the language raises |
| WeekLabel.YearZeroRejected | total_diseases.py:46 | a well-formed label of year 0 makes the conversion raise |
| WeekLabel.NewYear2022 | total_diseases.py:46 | 1 January 2022 is day 738156, a Saturday |
| WeekLabel.FirstWeekOf2022Ordinal | total_diseases.py:46 | week 1 of 2022 starts on day 738158 |
| WeekLabel.FirstWeekOf2022Date | total_diseases.py:46 | that is 3 January 2022 |
| WeekLabel.FirstWeekOf2022 | total_diseases.py:46 | "1. KW 2022" converts to 3 January 2022 |
| WeekLabel.WeekZeroOf2022Ordinal | total_diseases.py:46 | week 0 of 2022 starts on day 738151 |
| WeekLabel.WeekZeroOf2022Date | total_diseases.py:46 | that is 27 December 2021 |
| WeekLabel.WeekZeroOf2022 | total_diseases.py:46 | "0. KW 2022" converts to 27 December 2021, in the previous year |
| WeekLabel.MissingWeekRejected | total_diseases.py:46 | a label without its week number is rejected |
| Dashboard.Project | total_diseases.py:32 | projecting rows to group entries keeps one entry per row, in order |
| Dashboard.NormaliseAgeGroup | total_diseases.py:30 | the result is never the legacy label; the legacy label becomes "05 - 14" and every other label is kept |
| Dashboard.NormaliseRows | total_diseases.py:30 | the same rows with only the age group changed, and no legacy label left |
| Dashboard.NormaliseIdempotent | total_diseases.py:30 | renaming a second time changes nothing |
| Dashboard.NormaliseCleanRows | total_diseases.py:30 | rows without the legacy label are unchanged |
| Dashboard.PatientFrame.constructor | total_diseases.py:13-28 | the frame holds the loaded rows |
| Dashboard.PatientFrame.NormaliseAgeGroups | total_diseases.py:30 | the assignment replaces the frame's rows by their renamed form |
| Dashboard.PatientKey | total_diseases.py:32 | (no ensures) defines the group key of a patient row, `groupby(["weeknr_year", "age_group"])` |
| Dashboard.PatientEntry | total_diseases.py:35-39 | (no ensures) defines a patient row's five aggregated columns, covid, influenza, rsv, other and population, in that order |
| Dashboard.PatientEntries | total_diseases.py:32-41 | every projected patient row has five measure columns |
| Dashboard.GroupPatients | total_diseases.py:31-43 | `df2` is the grouping of the patient rows by (week, age group): four summed counters, population maximum, ascending keys |
| Dashboard.PatientGroupKeys | total_diseases.py:31-43 | the keys of `df2` are exactly the (week, age group) pairs of the input rows |
| Dashboard.PopulationIsMaximum | total_diseases.py:39 | each group's population is at least that of every row of the group and equals one of them |
| Dashboard.MaxOfEntries | total_diseases.py:39 | a maximum of the projected population column is a maximum over the records |
| Dashboard.NoLegacyGroup | total_diseases.py:30-43 | after the rename, no row of `df2` carries the legacy label |
| Dashboard.LegacyRowsMerge | total_diseases.py:30-43 | after the rename, a week's "05 - 14" sum equals that week's sums under both labels before it |
| Dashboard.ProjectConcat | total_diseases.py:32 | projection distributes over concatenation |
| Dashboard.ProjectPermutation | total_diseases.py:32 | reordered rows project to reordered entries |
| Dashboard.GroupPatientsOrderIndependent | total_diseases.py:31-43 | `df2` does not depend on the order of the patient rows |
| Dashboard.TotalDiseases | total_diseases.py:45 | (no ensures) defines one row's `total_diseases`: covid + influenza + rsv + other, population left out |
| Dashboard.TotalsColumn | total_diseases.py:45 | one total per row of `df2`, in order: row i's covid + influenza + rsv + other |
| Dashboard.SumOf | total_diseases.py:45 | (no ensures) defines the sum of a column of totals |
| Dashboard.CounterTotal | total_diseases.py:35-38 | (no ensures) defines the four disease counters added up over all patient rows |
| Dashboard.TotalsByColumn | total_diseases.py:45 | the totals add up to the sum of the four counter columns |
| Dashboard.CounterTotalByColumn | total_diseases.py:45 | the input's disease counters add up column by column |
| Dashboard.TotalDiseasesConserved | total_diseases.py:31-45 | `total_diseases` summed over `df2` equals covid + influenza + rsv + other summed over all input rows |
| Dashboard.WeekLabels | total_diseases.py:46 | one week label per row |
| Dashboard.ParseColumn | total_diseases.py:46 | the column converts exactly when every label converts, and then element i is the date of label i |
| Dashboard.ConvertColumn | total_diseases.py:46 | element-wise conversion fails exactly when one element fails |
| Dashboard.ParseColumnMondays | total_diseases.py:46 | every date in a converted column is a Monday |
| Dashboard.DiseaseSummary.FromPatients | total_diseases.py:31-43 | the new frame holds the grouping of the patient rows and no added columns yet |
| Dashboard.DiseaseSummary.AddTotalDiseases | total_diseases.py:45 | `total_diseases` is set to one total per row; rows and dates unchanged |
| Dashboard.DiseaseSummary.AddRealDate | total_diseases.py:46 | `ok` exactly when every label converts; then `real_date` holds the dates; otherwise nothing changes |
| Dashboard.DiseaseDashboard | total_diseases.py:30-46 | the rows are the grouping of the renamed input, the totals sum to the input's counters, and on success every date is a Monday |
| Dashboard.NormalisedCounterTotal | total_diseases.py:30 | the rename does not change the counters |
| Dashboard.HospitalKey | total_diseases.py:68 | (no ensures) defines the group key of a hospital row, `groupby(["KW", "BUNDESLAND"])` |
| Dashboard.HospitalEntry | total_diseases.py:70-74 | (no ensures) defines a hospital row's five aggregated columns, COVID, INFLUENZA, RSV, SONSTIGE and AUFNAHMEN, in that order |
| Dashboard.HospitalEntries | total_diseases.py:68-75 | every projected hospital row has five measure columns |
| Dashboard.GroupAdmissions | total_diseases.py:68-76 | `df_kh_2` is the grouping by (KW, BUNDESLAND) with all five columns summed, keys ascending |
| Dashboard.HospitalGroupKeys | total_diseases.py:68-76 | the keys of `df_kh_2` are exactly the (week, state) pairs of the input rows |
| Dashboard.AdmissionsTotal | total_diseases.py:74 | (no ensures) defines the admissions added up over all hospital rows |
| Dashboard.AdmissionsColumn | total_diseases.py:74 | the projected `AUFNAHMEN` column adds up to the input's admissions |
| Dashboard.AdmissionsConserved | total_diseases.py:68-76 | `AUFNAHMEN` summed over `df_kh_2` equals the admissions summed over all input rows |
| Dashboard.GroupAdmissionsOrderIndependent | total_diseases.py:68-76 | `df_kh_2` does not depend on the order of the hospital rows |
| Dashboard.AdmissionSummary.FromRecords | total_diseases.py:68-76 | the new frame holds the grouping of the hospital rows and no dates yet |
| Dashboard.AdmissionSummary.AddRealDate | total_diseases.py:78 | `ok` exactly when every label converts; then `real_date` holds the dates; otherwise nothing changes |
| Dashboard.AdmissionDashboard | total_diseases.py:68-78 | the rows are the grouping of the input, admissions are conserved, and on success every date is a Monday |
| Dashboard.TwoRowsOneGroup | total_diseases.py:30-45 | a legacy-labelled row and a normal row of the same week merge into one row [8, 1, 2, 0, 1000] with total 11 |

## Left out

- `load_data` and `read_csv` are left out, along with the HTTP download and Streamlit's cache (total_diseases.py:8-28, 64-66): they are I/O. The model starts from the parsed rows.
- The Altair charts and the Streamlit page (total_diseases.py:1-5, 48-62, 80-92) are left out: they present results and compute nothing.
- pandas missing values, dtypes and float columns are left out. Counters and population are unbounded integers, and labels are strings.
- The hospital extract's other columns are not modelled. Only the grouped and aggregated columns are.
- pandas' own bounds on a nanosecond `Timestamp` are not modelled; these depend on the pandas version. The date range modelled is that of Python's `date`, years 1 to 9999.
- `\d` is modelled as the ASCII digits; Python also accepts other Unicode decimal digits there.
- Case-insensitive matching is modelled for `K` and `W` only. The other characters of the format are digits, a dot, whitespace or `-`.
- Python's string order is modelled as order on code points. No locale or collation is applied, as in Python itself.
- pandas and Python's `datetime` and `_strptime` are not part of this model. Their behaviour is restated in the `Calendar` and `WeekLabel` modules.
- The frames' columns that the dashboard only displays (`df_to_display`, total_diseases.py:48) are not modelled as a separate frame.
