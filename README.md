# Survey normalisation and scoring, modelled in Dafny

This project models the part of the sleep-survey dashboard that turns a
Google Forms export into the tables the pages read. The export is a flat
table of free-text answers under long question headers. That part is
spread over three Python files that overlap and disagree in places:

- `data_loader.py`, the shared loader:
  - it normalises the headers (`_norm_header`, `_clean_columns`);
  - it renames the long questions to short names, unconditionally;
  - it adds `SleepHours_est`, the 0-28 `InsomniaSeverity_index` and the
    keyword-based `Lifestyle_Risk`.
- `cleaning_aelyana.py`, the academic-impact page (`prepare_aelyana_data`):
  - it renames a question only when its short name is absent;
  - it adds four 0-4 scores, their 0-16 sum and its category;
  - it adds the hours estimate when it is missing, and the numeric
    academic features.
- `cleaning_nazifa.py`, the sleep-patterns page (`prepare_nazifa_data`):
  - it uses the same conditional rename;
  - it adds the hours estimate, the numeric quality, the duration bands,
    the stripped bed time and its categorical order;
  - it adds the frequent-symptom flags and an ISI-like 0-28 index with its
    bands.

Each variant of the answer conversions is kept as written and under its own
name (`Loader.*`, `Aelyana.*`, `Nazifa.*`). Module `Variants` proves where
they agree and where they part. The code has three readings of "More than
8 hours" (9.0, 8.5 and 8 + 0.5), and each is modelled under its own name.

Modules, bottom-up:

- `Strings`: Python's `str.isspace`, `strip`, `lower`, `replace` and `in`.
- `Numbers`: the regular-expression scans `\d+` and `\d+\.?\d*`, `str(n)`,
  `float(s)` / `pd.to_numeric` on plain decimal text, `str` of a float and
  pandas' `Series.round(1)`.
- `Cells`: a table cell (missing, text, integer, float or boolean), `str(x)`
  and the float results.
- `Tables`: a column-major table, with `df[name] = col`, `map`, `rename`
  and a `Frame` class whose methods change the table in place.
- `Headers`: `_norm_header` / `_norm_col`, and the normalised form of a
  question.
- `Questions`: the survey questions as word lists, and the pages'
  questions as well-formed rename candidates.
- `Schema`: the conditional rename of both cleaning modules.
- `ColumnMap`: the unconditional rename of the loader.
- `Shared`: the pieces the three files write identically.
- `Loader` and `LoaderPipeline`: `data_loader.py`.
- `Aelyana`, `AelyanaPipeline` and `AelyanaForm`: `cleaning_aelyana.py`.
- `Nazifa`, `NazifaPipeline` and `NazifaForm`: `cleaning_nazifa.py`.
- `Variants`: the three variants compared.

Integers and hours are exact (`int`, `real`). A float column is a cell
holding a `real`, and NaN is a missing cell. pandas' `Series.round(1)`
(data_loader.py:90, cleaning_nazifa.py:79) is modelled as rounding half up.
For a whole or missing quality rating, every index is a third of a whole
number of tenths. Such an index never sits exactly on a half, so half-even
and half-up agree there. For a fractional rating in the loader they can
differ (see "## Left out").

## Model

| member | source | states |
|---|---|---|
| Strings.Strip | data_loader.py:27 | `strip()` keeps a middle slice, cuts only whitespace, and leaves no whitespace at either end |
| Strings.StripKeeps | cleaning_nazifa.py:26 | a text with no whitespace at either end is its own stripped form |
| Strings.Lower | data_loader.py:43 | `lower()` keeps the length and lower-cases each character in place |
| Strings.ReplaceChar | data_loader.py:43 | `replace("–", "-")` replaces exactly the en dashes, position by position |
| Strings.ContainsExtend | data_loader.py:97 | substring containment survives text added on either side |
| Strings.NotContainsChar | data_loader.py:97 | a text lacking one character of a pattern does not contain the pattern |
| Strings.LowerLacks | data_loader.py:45 | lower-casing a text with neither case of a letter brings in no such letter |
| Strings.ReplaceLacks | data_loader.py:43 | replacing the dash by a hyphen brings in no other character |
| Numbers.ShowNatRoundTrip | cleaning_nazifa.py:47 | reading back the digits of `str(n)` gives `n` |
| Numbers.DigitRunsEmpty | data_loader.py:53-59 | the `\d+` scan finds a number exactly when the text has a digit |
| Numbers.DecimalRunsEmpty | cleaning_nazifa.py:47-53 | the `\d+\.?\d*` scan finds a number exactly when the text has a digit |
| Numbers.DigitRunsSkip | data_loader.py:53 | digit-free text in front changes nothing the integer scan finds |
| Numbers.DecimalRunsSkip | cleaning_nazifa.py:47 | digit-free text in front changes nothing the decimal scan finds |
| Numbers.DigitRunsNumber | data_loader.py:53 | a digit run then a non-digit is one number, followed by the scan of the rest |
| Numbers.DecimalRunsNumber | cleaning_nazifa.py:47 | a digit run then neither a digit nor a point is one whole number for the decimal scan |
| Numbers.DecimalRunsFraction | cleaning_nazifa.py:47 | digits, a point and digits are one decimal number for the decimal scan |
| Numbers.DigitRunsOne | data_loader.py:46 | one number between digit-free texts scans as exactly that number |
| Numbers.DigitRunsTwo | data_loader.py:53-55 | two numbers separated by digit-free text scan as exactly those two |
| Numbers.DecimalRunsOne | cleaning_nazifa.py:47-49 | one whole number not followed by a point scans as that number |
| Numbers.DecimalRunsTwo | cleaning_nazifa.py:47-51 | two whole numbers with a separator that is not a point scan as those two |
| Numbers.DigitRunsSame | data_loader.py:43 | texts that differ only in characters other than digits and points scan alike (integer scan) |
| Numbers.DecimalRunsSame | cleaning_aelyana.py:80 | the same for the decimal scan |
| Numbers.ParseUnsignedShowNat | cleaning_nazifa.py:152 | the digits of `str(n)`, read as an unsigned number, give `n` |
| Numbers.ParseShowNat | cleaning_nazifa.py:152 | `pd.to_numeric(str(n))` is `n` |
| Numbers.ParseShowInt | data_loader.py:86 | `pd.to_numeric(str(i))` is `i`, negative numbers included |
| Numbers.NegativeText | data_loader.py:86 | `str(i)` of a negative number is a minus sign, then the digits of `-i`, and strip keeps it |
| Numbers.ParseNegative | data_loader.py:86 | a leading minus negates the number parsed after it |
| Numbers.WholeRealText | cleaning_nazifa.py:77 | `str` of a whole float is its digits followed by ".0" |
| Numbers.Round1 | data_loader.py:90 | `Series.round(1)` lies within half a tenth of `x` |
| Numbers.Round1Monotone | data_loader.py:90 | rounding to one decimal preserves order |
| Numbers.Round1Tenths | data_loader.py:90 | a value that already has one decimal is left unchanged |
| Cells.Str | data_loader.py:83 | `astype(str)`: missing is "nan", a float always has a point |
| Cells.FromFloat | cleaning_nazifa.py:146 | a float result stored in a column: NaN is missing, a number is a float cell |
| Cells.NumericOfFloat | cleaning_nazifa.py:152 | reading a stored float back with `pd.to_numeric` gives the same float |
| Cells.NumericOfIntText | cleaning_aelyana.py:155 | a rating that arrived as the text "3" reads as the number 3 |
| Cells.StrOfWholeReal | cleaning_nazifa.py:77 | a whole float is written with ".0", e.g. "3.0" |
| Cells.MissingStripped | data_loader.py:73 | a missing answer is the stripped text "nan" |
| Headers.BreaksToSpaces | data_loader.py:25-26 | the no-break space, newline and tab become spaces; every other character stays |
| Headers.CollapseSpaces | data_loader.py:27 | each run of whitespace becomes one space: no two spaces in a row and no other whitespace |
| Headers.Normalize | data_loader.py:18-28 | a normalised header has no no-break space, newline or tab, no space at either end, and no two spaces in a row |
| Headers.NormalizeFixed | cleaning_aelyana.py:12-21 | a header already in that form is left exactly as it is |
| Headers.NormalizeIdempotent | cleaning_nazifa.py:9-18 | normalising twice is normalising once |
| Headers.NormalizeKeepsNonSpaces | data_loader.py:18-28 | normalising touches only whitespace: every other character survives, in order |
| Headers.StripKeepsNonSpaces | data_loader.py:27 | strip removes only whitespace |
| Headers.CollapseKeepsNonSpaces | data_loader.py:27 | collapsing removes only whitespace |
| Headers.Sentence | data_loader.py:129-154 | a question as words joined by single spaces, starting with its first word |
| Headers.SentenceNormalized | data_loader.py:156 | a question written that way is already normalised, and is empty only without words |
| Headers.SentenceInjective | data_loader.py:156 | questions that differ in any word stay different after normalisation |
| Tables.IndexOf | data_loader.py:157 | the first position of a label, or past the end when it is absent |
| Tables.Column | data_loader.py:165 | `df[name]` has one cell per row |
| Tables.Constant | data_loader.py:170 | `df[name] = scalar` puts that value in every row |
| Tables.MapCells | data_loader.py:165 | `map` / `apply` transforms each cell in place |
| Tables.WithColumn | data_loader.py:165 | `df[name] = col` replaces that column or appends it; every other column keeps its label and cells |
| Tables.WithColumnKeeps | cleaning_nazifa.py:145-191 | one assignment keeps every other column, for a chain of assignments |
| Tables.Derive | cleaning_aelyana.py:180-181 | `if src in df.columns: df[dst] = df[src].map(f)` keeps the table's shape |
| Tables.DeriveKeeps | cleaning_aelyana.py:180-212 | a derived column touches no other column |
| Tables.RenameLabels | data_loader.py:157 | `rename(columns=d)` replaces each label that is a key of `d` and keeps the others |
| Tables.RenameNothing | cleaning_aelyana.py:143-144 | renaming with an empty dictionary changes nothing |
| Tables.Rename | data_loader.py:157 | a rename changes only the labels |
| Tables.NormalizeLabels | data_loader.py:32 | the list comprehension normalises each label in place |
| Tables.NormalizeLabelsShape | data_loader.py:31-33 | every label is normalised afterwards, and cleaning twice is cleaning once |
| Tables.Frame.constructor | data_loader.py:125 | a frame holds the table it was given |
| Tables.Frame.Copy | cleaning_aelyana.py:118 | `df.copy()` is a new object holding the same table |
| Tables.Frame.SetLabels | data_loader.py:32 | `df.columns = cols` replaces the labels and nothing else |
| Tables.Frame.SetColumn | data_loader.py:165 | `df[name] = col` in place is `WithColumn` of the old table |
| Tables.Frame.RenameColumns | data_loader.py:157 | `df = df.rename(...)` in place is `Rename` of the old table |
| Tables.DeriveColumn | cleaning_aelyana.py:180-181 | the conditional derived column in place is `Derive` of the old table |
| Tables.NormalizeColumns | data_loader.py:31-33 | `_clean_columns` in place: the new labels are the normalised old labels, and the data is untouched |
| Schema.Keyed | cleaning_aelyana.py:139 | each candidate's question normalised, in order |
| Schema.RenameDictSpec | cleaning_aelyana.py:137-141 | the rename dictionary maps only present questions, each to a short name that is not a column; every such question is in it |
| Schema.BuildRenameDict | cleaning_aelyana.py:137-141 | the loop builds exactly the specified dictionary |
| Schema.CollectRenames | cleaning_nazifa.py:131-135 | each step adds at most the current candidate's entry; the loop ends with the specified dictionary |
| Schema.RenameDictStep | cleaning_nazifa.py:134-135 | one more candidate adds its entry exactly when its short name is absent and its question present |
| Schema.ConditionalRename | cleaning_aelyana.py:143-144 | no column is dropped; a label changes only into the short name of a question it is, whose short name was absent; and every such label is renamed |
| Schema.NothingLeftToRename | cleaning_nazifa.py:131-138 | after one rename the loop finds nothing more to rename |
| Schema.ConditionalRenameIdempotent | cleaning_aelyana.py:137-144 | for consistent candidates (no short name is another candidate's question), renaming twice is renaming once |
| Schema.ConditionalRenameDistinct | cleaning_nazifa.py:131-138 | with distinct short names, the rename never gives two columns the same label |
| Schema.WellFormedConsistent | cleaning_nazifa.py:117-129 | candidates whose short names are single words and whose questions are several words make the rename idempotent |
| Schema.ShortNotQuestion | cleaning_aelyana.py:122-135 | a short name is never another candidate's multi-word question |
| Schema.QuestionWellFormed | cleaning_aelyana.py:122-135 | a question of several words with a one-word short name is such a candidate |
| Schema.Renamed | cleaning_aelyana.py:118-144 | the header lines change the labels only: normalised, then conditionally renamed |
| Schema.RenameInPlace | cleaning_nazifa.py:113-138 | the same lines on the frame give `Renamed` of the old table |
| ColumnMap.ToMapSpec | data_loader.py:156 | the dictionary holds exactly the pairs' keys, each mapped to the last pair's short name |
| ColumnMap.PresentRenames | data_loader.py:157 | the rename dictionary holds exactly the labels that are keys of the normalised map |
| ColumnMap.RenameAll | data_loader.py:156-157 | the unconditional rename keeps the number of columns |
| ColumnMap.RenameAllLabels | data_loader.py:157 | a label that is a normalised key becomes its short name; every other label stays |
| ColumnMap.RenameAllSpec | data_loader.py:156-157 | a label is renamed exactly when it is some normalised question, into the short name of the last pair with that question |
| ColumnMap.RawHeaderRenamed | data_loader.py:126-157 | a raw header that differs from a question only in whitespace is renamed once the headers are cleaned |
| ColumnMap.RenameAllDuplicates | data_loader.py:157 | with both the question and its short name present, the loader leaves two columns of that name |
| ColumnMap.ConditionalKeepsDuplicate | cleaning_aelyana.py:140 | on the same table the conditional rename leaves both columns alone |
| ColumnMap.ShortPresent | cleaning_nazifa.py:134 | a present short name blocks its candidate |
| Shared.QualityRisk | data_loader.py:86-87 | `clip(5 - q, 0, 4).fillna(0)`: between 0 and 4, `5 - q` inside the scale, 4 at 1 or less, 0 at 5 or more, 0 for NaN |
| Shared.FromNumbers | cleaning_aelyana.py:80-87 | no number gives NaN, one gives itself, two or more give the mean of the first two |
| Shared.ParseTimestamps | data_loader.py:160-161 | only the `Timestamp` column is converted, and the labels are unchanged |
| Shared.ParseTimestampsInPlace | cleaning_nazifa.py:141-142 | in place, the result is `ParseTimestamps` of the old table |
| Shared.IsiScale | data_loader.py:90 | `round(raw / 12 * 28, 1)` lies in 0..28, with 0 at 0 and 28 at 12 |
| Shared.IsiScaleWhole | cleaning_nazifa.py:79 | for a whole raw score `n` the index is `(70n + 1) / 3` tenths |
| Shared.Round1Thirds | data_loader.py:90 | rounding a third of `m` tenths gives `(m + 1) / 3` tenths |
| Shared.DecimalRuns1 | cleaning_nazifa.py:47 | "a.d hours" holds the one decimal number a.d |
| Shared.RangeRuns | cleaning_aelyana.py:80 | "a-b hours" and "a–b hours" hold the two numbers a and b |
| Shared.HoursStripped | cleaning_nazifa.py:26 | an answer starting with a digit and ending in " hours" is its own stripped text |
| Shared.HoursAfterDigits | cleaning_aelyana.py:59 | the same for a text that starts with a digit, followed by " hours" |
| Loader.AsReals | data_loader.py:55-57 | the digit runs as floats, in order |
| Loader.PreparedFigures | data_loader.py:43 | strip, lower and the dash replacement keep every digit and point, so the scan finds the same numbers |
| Loader.HoursDefined | data_loader.py:45-59 | the estimate from a text is NaN exactly when the text has no digit |
| Loader.EstimateDefined | data_loader.py:39-59 | `_sleep_hours_to_estimate` is NaN exactly for a missing answer or one without a digit |
| Loader.HoursOfMore | data_loader.py:45-47 | with "more than", the first number plus 0.5 |
| Loader.HoursOfLess | data_loader.py:49-51 | with "less than" but not "more than", the first number minus 0.5 (checked second) |
| Loader.HoursPlain | data_loader.py:53-59 | without either phrase: the first number, the mean of the first two, or NaN |
| Loader.PreparedLacks | data_loader.py:43 | a letter absent in both cases is absent after preparing |
| Loader.PreparedAvoids | data_loader.py:45-49 | so no phrase using that letter is found |
| Loader.PhraseKept | data_loader.py:43-45 | a phrase without an en dash found in the lower-cased answer is found in the prepared text |
| Loader.AnswerPlain | data_loader.py:53-59 | an answer lacking a letter of each phrase is estimated from its numbers alone |
| Loader.AnswerMoreThan | data_loader.py:45-47 | an answer saying "more than" in any case is its first number plus 0.5 |
| Loader.AnswerLessThan | data_loader.py:49-51 | an answer saying "less than" and lacking "m" is its first number minus 0.5 |
| Loader.AnswerOne | data_loader.py:56-57 | an answer with one number and neither phrase is that number |
| Loader.AnswerTwo | data_loader.py:54-55 | an answer with two numbers and neither phrase is their mean |
| Loader.LoaderOrMoreAnswer | data_loader.py:45-57 | "n or more hours" does not say "more than" and is n |
| Loader.LoaderRangeAnswer | data_loader.py:43-55 | "a-b hours" with a hyphen or an en dash is the midpoint |
| Loader.LoaderDecimalAnswer | data_loader.py:53-55 | "a.d hours" is read as the two numbers a and d, so its estimate is their mean (7.5 hours reads as 6.0) |
| Loader.LoaderMoreThanAnswer | data_loader.py:45-47 | "More than n hours" is n + 0.5 |
| Loader.LoaderLessThanAnswer | data_loader.py:49-51 | "Less than n hours" is n - 0.5 |
| Loader.FrequencyPoints | data_loader.py:62-73 | the frequency table, with unknown text scoring 0, always in 0..4 |
| Loader.FrequencyScore | data_loader.py:73 | the score of a cell's stripped text lies in 0..4 |
| Loader.FrequencyDashVariants | data_loader.py:63-72 | the en-dash and hyphen spellings of each band score the same, 1 to 3 |
| Loader.FrequencyOfMissing | data_loader.py:73 | a missing answer ("nan") scores 0 |
| Loader.IsiRaw | data_loader.py:83-89 | `diff + wake + quality_risk` lies in 0..12 |
| Loader.IsiIndex | data_loader.py:76-90 | the index of a row lies in 0..28 |
| Loader.IsiWorst | data_loader.py:83-90 | "Always (every night)" twice and a quality of 1 or less give 28.0 |
| Loader.AlwaysEveryNight | data_loader.py:71 | "Always (every night)" scores 4 |
| Loader.IsiBest | data_loader.py:83-90 | unanswered questions and a quality of 5 or more give 0.0 |
| Loader.WholeRaw | data_loader.py:89 | with a whole or missing quality, the raw score is a whole number up to 12, equal to the sum of the three parts |
| Loader.IsiRawWhole | data_loader.py:83-90 | so the index is the scale of that whole raw score |
| Loader.IsiColumn | data_loader.py:76-90 | each row's index is a float in 0..28 computed from that row's three answers |
| Loader.HabitPoints | data_loader.py:97-105 | "Always" is 3 points, else "Often" is 2, else 0 (case-sensitive containment) |
| Loader.ActivityPoints | data_loader.py:107-108 | "Never" or "Rarely" anywhere is exactly 2 points, else 0 |
| Loader.StressPoints | data_loader.py:110-113 | "Extremely" is 3 points, else "High" is 2, else 0 |
| Loader.LifestyleRisk | data_loader.py:94-115 | a row's risk lies in 0..11 and is never 1 |
| Loader.LifestyleWorst | data_loader.py:94-115 | every answer at its worst gives 11 |
| Loader.LifestyleFirstKeywordWins | data_loader.py:97-113 | "Always" beats "Often" and "Extremely" beats "High" |
| Loader.TextRisk | data_loader.py:95-115 | the `risk += ...` steps sum the points of the four answers |
| Loader.RowRisk | data_loader.py:94-115 | `row_risk` of a row is `LifestyleRisk` of its four cells as text |
| Loader.LifestyleRisks | data_loader.py:117 | each row's risk is an integer in 0..11 computed from that row |
| Loader.ApplyRowRisk | data_loader.py:117 | the loop over the rows produces the column of row risks |
| Loader.CalculateLifestyleRisk | data_loader.py:93-117 | `_calculate_lifestyle_risk` is the risk column of the table |
| LoaderPipeline.EstimateColumn | data_loader.py:165 | each row's `SleepHours_est` is the estimate of that row's answer |
| LoaderPipeline.WithEstimate | data_loader.py:164-165 | the estimate step keeps the table's shape |
| LoaderPipeline.IsiOrMissing | data_loader.py:167-170 | one index cell per row, whether or not the sources exist |
| LoaderPipeline.RiskOrZero | data_loader.py:172-175 | one risk cell per row, whether or not the sources exist |
| LoaderPipeline.Derived | data_loader.py:163-175 | the three derived columns keep the table's shape |
| LoaderPipeline.BeforeRisk | data_loader.py:164-170 | the table the risk step reads keeps the table's shape |
| LoaderPipeline.Loaded | data_loader.py:126-177 | the loaded table has as many rows as the CSV |
| LoaderPipeline.IsiColumnSame | data_loader.py:83-86 | the index reads only its three source columns |
| LoaderPipeline.WithEstimateKeeps | data_loader.py:164-165 | adding the estimate leaves every other column unchanged |
| LoaderPipeline.DerivedEstimate | data_loader.py:164-165 | with an hours column, `SleepHours_est` holds the estimate of every answer |
| LoaderPipeline.EstimateSurvives | data_loader.py:167-175 | the later steps leave the estimate column as it is |
| LoaderPipeline.IsiAfterEstimate | data_loader.py:167-170 | the index reads the table as it was before the estimate |
| LoaderPipeline.IsiSourcesKept | data_loader.py:167 | the estimate step keeps the index's sources and their values |
| LoaderPipeline.NoIsiSourcesAdded | data_loader.py:167 | the estimate step adds none of the index's sources |
| LoaderPipeline.DerivedIsiColumn | data_loader.py:167-175 | the risk step leaves the index column as it is |
| LoaderPipeline.DerivedIsi | data_loader.py:167-170 | `InsomniaSeverity_index` is every row's index when all three answers exist, and NaN in every row otherwise |
| LoaderPipeline.RiskAfterIndex | data_loader.py:172-173 | the risk reads the table as it was before the two earlier steps |
| LoaderPipeline.RiskSourcesKept | data_loader.py:172 | the earlier steps keep the risk's sources and their values |
| LoaderPipeline.NoRiskSourcesAdded | data_loader.py:172 | the earlier steps add none of the risk's sources |
| LoaderPipeline.BeforeRiskLabels | data_loader.py:164-170 | the earlier steps add only their own two labels |
| LoaderPipeline.EstimateLabels | data_loader.py:164-165 | the estimate step adds only its own label |
| LoaderPipeline.DerivedRisk | data_loader.py:172-175 | `Lifestyle_Risk` is every row's risk when all four answers exist, and 0 in every row otherwise |
| LoaderPipeline.DerivedKeeps | data_loader.py:163-175 | every other column keeps its label and its cells |
| LoaderPipeline.Named | data_loader.py:126-157 | header cleaning and the rename change only the labels |
| LoaderPipeline.AddDerivedColumns | data_loader.py:163-175 | adding the columns one after another in place gives `Derived` of the old table |
| LoaderPipeline.NameColumns | data_loader.py:126-157 | in place, the result is `Named` of the old table |
| LoaderPipeline.LoadWith | data_loader.py:126-177 | `load_data`'s steps after the CSV read, for any `col_map`, give `Loaded` of the old table |
| LoaderPipeline.LoadData | data_loader.py:124-177 | the same with the loader's own `col_map` |
| Aelyana.FreqPoints | cleaning_aelyana.py:24-48 | `_map_freq`'s table, with unknown text scoring 0, in 0..4 |
| Aelyana.MapFreq | cleaning_aelyana.py:29 | the score of a cell's stripped text lies in 0..4 |
| Aelyana.FreqBareForms | cleaning_aelyana.py:30-47 | the bare words, their synonyms and the banded answers score alike |
| Aelyana.MapFreqMissing | cleaning_aelyana.py:29 | a missing answer ("nan") scores 0 |
| Aelyana.HoursTable | cleaning_aelyana.py:60-78 | the listed answers map to values between 3.5 and 9.0 |
| Aelyana.HoursTableValues | cleaning_aelyana.py:61-74 | "Less than 4 hours" is 3.5, "7-8 hours" is 7.5, "More than 8 hours" and "9 or more hours" are 9.0 |
| Aelyana.ListedAnswer | cleaning_aelyana.py:59-77 | a listed answer, however padded, is its table value |
| Aelyana.NotListed | cleaning_aelyana.py:76 | a text with a digit or point in second place is not listed |
| Aelyana.DashFigures | cleaning_aelyana.py:80 | replacing the en dash changes neither whether there is a digit nor the numbers found |
| Aelyana.FallbackDefined | cleaning_aelyana.py:79-87 | an unlisted answer has an estimate exactly when it has a digit |
| Aelyana.UnlistedAnswer | cleaning_aelyana.py:79-87 | an unlisted answer is estimated from the decimal numbers of its stripped text |
| Aelyana.UnlistedStripped | cleaning_aelyana.py:76-80 | an unlisted answer that needs no stripping goes to the fallback |
| Aelyana.FallbackOne | cleaning_aelyana.py:81-82 | one number is the estimate |
| Aelyana.FallbackTwo | cleaning_aelyana.py:83-84 | two numbers give their mean |
| Aelyana.UnlistedOne | cleaning_aelyana.py:59-82 | an unlisted, stripped answer holding one number is that number |
| Aelyana.DecimalNotListed | cleaning_aelyana.py:76 | "a.d hours" is never listed |
| Aelyana.DecimalEstimate | cleaning_aelyana.py:59-82 | "a.d hours" holding the one number v is read as v |
| Aelyana.DecimalAnswer | cleaning_aelyana.py:56-82 | "a.d hours" is read as the decimal a.d |
| Aelyana.RangeAnswer | cleaning_aelyana.py:79-84 | an unlisted range "a-b hours" or "a–b hours" is the midpoint |
| Aelyana.CategorizeInsomnia | cleaning_aelyana.py:90-97 | NaN gives no category, and every number gets one |
| Aelyana.CategoryOfNumber | cleaning_aelyana.py:93-97 | a number gets one of the three categories |
| Aelyana.CategoryBoundaries | cleaning_aelyana.py:93-97 | 4 is low, 8 is moderate, (4, 8] is moderate, above 8 is severe |
| Aelyana.CategoryMonotone | cleaning_aelyana.py:90-97 | a higher score never gets a milder category |
| Aelyana.AcademicNumeric | cleaning_aelyana.py:179-181 | a grade maps to 0..5, and a miss is missing |
| Aelyana.AcademicOrder | cleaning_aelyana.py:179 | the six grades are numbered in their order |
| Aelyana.FreqSimplePoints | cleaning_aelyana.py:183 | the simple table gives 0..4, and a miss is 0 |
| Aelyana.FreqSimple | cleaning_aelyana.py:183-188 | the fatigue and concentration features are integers in 0..4 |
| Aelyana.FreqSimpleAgrees | cleaning_aelyana.py:183 | on the five bare words the simple table agrees with `_map_freq` |
| Aelyana.FreqSimpleBanded | cleaning_aelyana.py:162-185 | on a banded answer it does not: "Often (5-6 times a week)" scores 3 and has the feature 0 |
| Aelyana.MissedPoints | cleaning_aelyana.py:190-199 | the missed-classes table gives 0..4, and a miss is 0 |
| Aelyana.MissedNumeric | cleaning_aelyana.py:200-201 | `MissedClasses_numeric` is an integer in 0..4 |
| Aelyana.MissedDashVariants | cleaning_aelyana.py:190-199 | both spellings of each monthly band score the same |
| Aelyana.GpaNumeric | cleaning_aelyana.py:203-212 | a band maps to a midpoint between 1.5 and 3.85, and a miss is missing |
| Aelyana.GpaOrder | cleaning_aelyana.py:203-208 | each band's number lies inside that band, so higher bands get higher numbers |
| AelyanaPipeline.FreqValues | cleaning_aelyana.py:160-162 | one frequency score in 0..4 per row, or 0 when the column is absent |
| AelyanaPipeline.QualityValues | cleaning_aelyana.py:154-158 | one quality score in 0..4 per row, or 0 when the column is absent |
| AelyanaPipeline.SeverityValues | cleaning_aelyana.py:164-169 | one severity per row, in 0..16 |
| AelyanaPipeline.QualityColumn | cleaning_aelyana.py:154-158 | one quality score cell per row |
| AelyanaPipeline.Categories | cleaning_aelyana.py:171 | each row's category is that of its index |
| AelyanaPipeline.Scored | cleaning_aelyana.py:154-171 | the scoring step keeps the table's shape |
| AelyanaPipeline.ScoredKeeps | cleaning_aelyana.py:154-171 | scoring leaves every other column unchanged |
| AelyanaPipeline.ScoredQuality | cleaning_aelyana.py:154-158 | `SleepQuality_Score` holds the quality scores |
| AelyanaPipeline.ScoredFalling | cleaning_aelyana.py:160 | `FallingAsleep_Score` holds the scores of the answers |
| AelyanaPipeline.ScoredWakeups | cleaning_aelyana.py:161 | `NightWakeups_Score` holds the scores of the answers |
| AelyanaPipeline.ScoredFatigue | cleaning_aelyana.py:162 | `Fatigue_Score` holds the scores of the answers |
| AelyanaPipeline.ScoredIndex | cleaning_aelyana.py:164-169 | `InsomniaSeverity_index` holds the severities as floats |
| AelyanaPipeline.ScoredCategory | cleaning_aelyana.py:171 | `Insomnia_Category` holds the categories of the severities |
| AelyanaPipeline.ScoredHolds | cleaning_aelyana.py:154-171 | the scored table holds all six columns as specified |
| AelyanaPipeline.IndexIsSum | cleaning_aelyana.py:164-171 | in every row, the index is the sum of the four score cells beside it, and the category is that of the index |
| AelyanaPipeline.IntPoints | cleaning_aelyana.py:160 | an integer score cell is worth its integer |
| AelyanaPipeline.QualityPointsAt | cleaning_aelyana.py:156-158 | the quality score cell holds the row's quality value |
| AelyanaPipeline.NoAnswersLow | cleaning_aelyana.py:154-171 | without any of the four answer columns every row scores 0 and is "Low / No Insomnia" |
| AelyanaPipeline.WithEstimate | cleaning_aelyana.py:176-177 | the estimate step keeps the table's shape |
| AelyanaPipeline.Featured | cleaning_aelyana.py:176-212 | the feature step keeps the table's shape |
| AelyanaPipeline.EstimateKept | cleaning_aelyana.py:176 | an existing `SleepHours_est` is never overwritten |
| AelyanaPipeline.EstimateAdded | cleaning_aelyana.py:176-177 | otherwise the estimate of every hours answer is added |
| AelyanaPipeline.FeaturedKeeps | cleaning_aelyana.py:179-212 | the feature step keeps every answer and score column |
| AelyanaPipeline.Prepared | cleaning_aelyana.py:118-214 | the prepared table has as many rows as the input |
| AelyanaPipeline.AddScores | cleaning_aelyana.py:154-171 | in place, the result is `Scored` of the old table |
| AelyanaPipeline.AddFeatures | cleaning_aelyana.py:176-212 | in place, the result is `Featured` of the old table |
| AelyanaPipeline.PrepareInPlace | cleaning_aelyana.py:119-212 | the steps after the copy give `Prepared` of the old table |
| AelyanaPipeline.PrepareWith | cleaning_aelyana.py:115-214 | no table or an empty one comes back as it is; otherwise a new frame holds `Prepared` of the input |
| AelyanaForm.PrepareAelyanaData | cleaning_aelyana.py:103-214 | the same with the page's own twelve rename candidates |
| AelyanaForm.CandidatesConsistent | cleaning_aelyana.py:122-135 | the page's own twelve candidates are consistent: no short name is another candidate's question |
| AelyanaForm.RenameIdempotent | cleaning_aelyana.py:137-144 | with the page's own candidates, renaming twice is renaming once, on every list of labels |
| Nazifa.HoursTable | cleaning_nazifa.py:28-42 | the listed answers map to values between 3.5 and 9.0 |
| Nazifa.HoursTableValues | cleaning_nazifa.py:29-41 | "More than 8 hours" is 8.5, "9 or more hours" 9.0, "Less than 4 hours" 3.5 |
| Nazifa.MissingHours | cleaning_nazifa.py:23-24 | a missing answer has no estimate |
| Nazifa.FallbackDefined | cleaning_nazifa.py:46-53 | an unlisted answer has an estimate exactly when it has a digit |
| Nazifa.NotListed | cleaning_nazifa.py:43 | a text with a digit or point in second place is not listed |
| Nazifa.UnlistedStripped | cleaning_nazifa.py:26-47 | an unlisted answer that needs no stripping goes to the fallback |
| Nazifa.FallbackOne | cleaning_nazifa.py:48-49 | one number is the estimate |
| Nazifa.FallbackTwo | cleaning_nazifa.py:50-51 | two numbers give their mean |
| Nazifa.UnlistedOne | cleaning_nazifa.py:26-49 | an unlisted, stripped answer holding one number is that number |
| Nazifa.DecimalNotListed | cleaning_nazifa.py:43 | "a.d hours" is never listed |
| Nazifa.DecimalEstimate | cleaning_nazifa.py:26-49 | "a.d hours" holding the one number v is read as v |
| Nazifa.DecimalAnswer | cleaning_nazifa.py:21-49 | "a.d hours" is read as the decimal a.d |
| Nazifa.RangeAnswer | cleaning_nazifa.py:46-51 | an unlisted range "a-b hours" or "a–b hours" is the midpoint |
| Nazifa.FreqPoints | cleaning_nazifa.py:64-70 | `freq_map` with misses as 0, in 0..4 |
| Nazifa.FreqScore | cleaning_nazifa.py:75-76 | the score of the unstripped text lies in 0..4 |
| Nazifa.HyphenScoresZero | cleaning_nazifa.py:64-70 | hyphen spellings score 0; the en-dash spellings keep their scores |
| Nazifa.QualityPoints | cleaning_nazifa.py:71 | "1".."5" give 4..0, and any other text is 0 |
| Nazifa.QualityScore | cleaning_nazifa.py:77 | a cell's quality points lie in 0..4 |
| Nazifa.QualityOfInt | cleaning_nazifa.py:71-77 | an integer rating k from 1 to 5 scores 5 - k |
| Nazifa.QualityOfWholeReal | cleaning_nazifa.py:71-77 | a rating stored as a float ("3.0") matches no key and scores 0 |
| Nazifa.RawScore | cleaning_nazifa.py:73-77 | the score of a row lies in 0..12 |
| Nazifa.IsiLike | cleaning_nazifa.py:79 | the index of a row lies in 0..28 |
| Nazifa.IsiLikeTenths | cleaning_nazifa.py:73-79 | the index is `(70 raw + 1) / 3` tenths |
| Nazifa.IsiLikeWorst | cleaning_nazifa.py:64-79 | "Always (every night)" twice and the rating "1" give 28.0 |
| Nazifa.IsiLikeBest | cleaning_nazifa.py:64-79 | unanswered questions and the rating "5" give 0.0 |
| Nazifa.IsiCategory | cleaning_nazifa.py:82-84 | NaN gives no band, and every number gets one |
| Nazifa.IsiCategoryBoundaries | cleaning_nazifa.py:85-91 | below 8 none, [8, 15) subthreshold, [15, 22) moderate, 22 and up severe |
| Nazifa.IsiCategoryMonotone | cleaning_nazifa.py:82-91 | a higher index never gets a milder band |
| Nazifa.DurationCategory | cleaning_nazifa.py:157-161 | NaN falls in no band, and every number falls in one |
| Nazifa.DurationBoundaries | cleaning_nazifa.py:157-161 | up to 5.99 short, (5.99, 8] adequate, above 8 long |
| Nazifa.MoreThanEightLong | cleaning_nazifa.py:40-161 | "More than 8 hours" is long sleep |
| Nazifa.SevenToEightAdequate | cleaning_nazifa.py:37-161 | "7-8 hours" is adequate sleep |
| Nazifa.FlagAgreesWithScore | cleaning_nazifa.py:173-180 | on the five listed answers the flag is raised exactly when the score is 3 or more |
| Nazifa.OftenFlagged | cleaning_nazifa.py:68-173 | the "Often" band contains the pattern and scores 3 |
| Nazifa.AlwaysFlagged | cleaning_nazifa.py:69-173 | the "Always" band contains the pattern and scores 4 |
| Nazifa.Unflagged | cleaning_nazifa.py:65-173 | the three milder answers contain neither word |
| Nazifa.LacksCapitals | cleaning_nazifa.py:173 | a text with neither capital O nor capital A is not flagged |
| Nazifa.FlagOfMissing | cleaning_nazifa.py:175 | a missing answer raises no flag |
| Nazifa.BedTimeIdempotent | cleaning_nazifa.py:166 | stripping the bed time twice is stripping it once |
| NazifaPipeline.BedTimeOrderCell | cleaning_nazifa.py:164-170 | a bed time in the categories is kept; anything else is missing |
| NazifaPipeline.EstimateColumn | cleaning_nazifa.py:145-148 | one estimate cell per row |
| NazifaPipeline.QualityNumColumn | cleaning_nazifa.py:151-154 | one numeric quality cell per row |
| NazifaPipeline.BedTimeColumn | cleaning_nazifa.py:165-169 | one bed-time cell per row |
| NazifaPipeline.FlagColumn | cleaning_nazifa.py:174-182 | one flag per row |
| NazifaPipeline.IsiLikeColumn | cleaning_nazifa.py:73-79 | one index cell per row |
| NazifaPipeline.IndexColumn | cleaning_nazifa.py:185-189 | one index cell per row |
| NazifaPipeline.AddPoints | cleaning_nazifa.py:75-77 | `score += points` adds pointwise |
| NazifaPipeline.CalculateIsiLike | cleaning_nazifa.py:56-79 | the `score +=` steps and the scaling give each row `IsiLike` of its three answers |
| NazifaPipeline.SleepColumns | cleaning_nazifa.py:144-170 | the sleep step keeps the table's shape |
| NazifaPipeline.SymptomColumns | cleaning_nazifa.py:172-191 | the symptom step keeps the table's shape |
| NazifaPipeline.Enriched | cleaning_nazifa.py:144-191 | the nine engineered columns keep the table's shape |
| NazifaPipeline.SleepColumnsKeep | cleaning_nazifa.py:144-170 | the sleep step leaves every column outside its own five unchanged |
| NazifaPipeline.SymptomColumnsKeep | cleaning_nazifa.py:172-191 | the symptom step leaves every column outside its own four unchanged |
| NazifaPipeline.EnrichedKeeps | cleaning_nazifa.py:144-191 | every answer column keeps its label and its cells |
| NazifaPipeline.SleepColumnsHold | cleaning_nazifa.py:144-170 | the sleep step's five columns hold what they are computed from |
| NazifaPipeline.SymptomColumnsHold | cleaning_nazifa.py:172-191 | the flags and index come from the answers; the category comes from the index |
| NazifaPipeline.SleepSurvives | cleaning_nazifa.py:172-191 | the symptom step leaves the five sleep columns as they are |
| NazifaPipeline.SymptomsFromSources | cleaning_nazifa.py:172-191 | the symptom columns depend only on the three answer columns, which the sleep step does not touch |
| NazifaPipeline.EnrichedHolds | cleaning_nazifa.py:144-191 | after both steps all nine columns hold what they are computed from |
| NazifaPipeline.DurationRow | cleaning_nazifa.py:145-161 | each row's duration band is that of its estimate; without an hours column both are missing |
| NazifaPipeline.QualityNumRow | cleaning_nazifa.py:151-154 | each row's numeric quality is the rating parsed as a number, or missing |
| NazifaPipeline.BedTimeRow | cleaning_nazifa.py:164-170 | each row's bed time is the stripped text (or missing), and its order cell is the bed time when listed |
| NazifaPipeline.FlagsRow | cleaning_nazifa.py:172-182 | each row's flag says whether the answer contains "Often" or "Always", or is false without the column |
| NazifaPipeline.IndexRow | cleaning_nazifa.py:184-191 | each row's index is `IsiLike` of its answers when all three columns exist (missing otherwise), and its category is the band of the index |
| NazifaPipeline.AddSleepColumns | cleaning_nazifa.py:144-170 | in place, the result is `SleepColumns` of the old table |
| NazifaPipeline.AddSymptomColumns | cleaning_nazifa.py:172-191 | in place, the result is `SymptomColumns` of the old table |
| NazifaPipeline.EnrichInPlace | cleaning_nazifa.py:144-191 | in place, the result is `Enriched` of the old table |
| NazifaPipeline.Prepared | cleaning_nazifa.py:111-193 | the prepared table has as many rows as the input |
| NazifaPipeline.PrepareInPlace | cleaning_nazifa.py:113-191 | the steps after the copy give `Prepared` of the old table |
| NazifaPipeline.PrepareWith | cleaning_nazifa.py:108-193 | no table or an empty one comes back as it is; otherwise a new frame holds `Prepared` of the input |
| NazifaForm.PrepareNazifaData | cleaning_nazifa.py:97-193 | the same with the page's own eleven rename candidates |
| NazifaForm.CandidatesConsistent | cleaning_nazifa.py:117-129 | the page's own eleven candidates are consistent: no short name is another candidate's question |
| NazifaForm.RenameIdempotent | cleaning_nazifa.py:131-138 | with the page's own candidates, renaming twice is renaming once, on every list of labels |
| Variants.HoursTablesAgree | cleaning_nazifa.py:28-42 | the two page tables agree on every text except "Less than 5 hours" and "More than 8 hours" |
| Variants.FallbacksAgree | cleaning_aelyana.py:80 | the en-dash replacement makes no difference: both page fallbacks agree on every text |
| Variants.PageEstimatesAgree | cleaning_nazifa.py:21-53 | the two page estimates agree on every answer except those two |
| Variants.MoreThanEightAcademic | cleaning_aelyana.py:74 | "More than 8 hours" is 9.0 on the academic page |
| Variants.MoreThanEightSleep | cleaning_nazifa.py:40 | "More than 8 hours" is 8.5 on the sleep page |
| Variants.MoreThanEightLoader | data_loader.py:45-47 | "More than 8 hours" is 8.5 in the loader, by its +0.5 rule |
| Variants.MoreThanEightDiffers | cleaning_aelyana.py:74 | the loader and the sleep page agree on that answer; the academic page does not |
| Variants.SleepPageWithinLoader | cleaning_nazifa.py:64-70 | every answer the sleep page scores above 0, the loader scores the same |
| Variants.LoaderWithinAcademic | data_loader.py:63-72 | every answer the loader scores above 0, the academic page scores the same |
| Variants.HyphenBand | data_loader.py:66-70 | the hyphen spelling of a band scores its value in the loader and on the academic page, and 0 on the sleep page |

## Left out

- Reading the CSV from the published sheet URL, the five-minute cache, the
  sidebar and session state (`get_data_info`, `display_sidebar_info`,
  `get_df`). These are I/O and UI state: the model starts from the table
  the CSV held.
- `pd.to_datetime`: the date parser is a parameter `toDatetime`, any
  cell-to-cell function. Only its placement (the `Timestamp` column, when
  present) is modelled.
- The rendering pages (`app.py`, `home.py`, `page_*.py`). They are not part
  of this model.
- cleaning_aelyana.py:1 is a bare expression before the `__future__` import
  and does not parse. The functions are modelled as written after it.
- NazifaPipeline.BedTimeOrderCell: `BedTime_order` is an ordered pandas
  categorical. The model keeps its values (a listed bed time, or missing)
  but not the dtype or its ordering, which only affects sorting on the
  page.
- IEEE floating point: hours, scores and indices are exact reals, and
  `Series.round(1)` rounds half up. No tie arises for an index whose raw
  score is a whole number: the sleep page's always is, and the loader's is
  for a whole or missing quality rating. A fractional rating in the loader
  can give a tie: q = 4.85 gives raw 0.15 and index 0.35. Half-up then
  gives 0.4, where pandas' half-even gives 0.3 (binary representation
  aside).
- Numbers.ParseNumber: `pd.to_numeric(errors="coerce")` is modelled for
  plain decimal text only (an optional sign, digits, an optional point).
  The exponent forms (`1e0`, `5E-1`) and the infinity forms (`inf`,
  `-inf`) that pandas parses become NaN in the model. So a SleepQuality
  answer "1e0" gets quality risk 0 here (data_loader.py:86,
  cleaning_aelyana.py:155, cleaning_nazifa.py:152), where pandas gives 4.
- `str()` of a float is modelled in fixed notation only; exponent notation
  (`1e-05`) is not. `\d` and `lower()` are modelled over ASCII only.
- Duplicate column labels: a lookup reads the first column with that label.
  pandas would return a frame for a duplicated label.
- pandas dtype inference: a column's cells are integer, float, text or
  boolean as given. Whether an integer column turns into floats after a
  missing value is not inferred. `Nazifa.QualityOfWholeReal` shows what
  happens when it does.
- Loader.IsiIndex: its tenths closed form is proved only for a whole or
  missing quality rating (`Loader.IsiRawWhole`). A fractional rating is
  bounded but not given in closed form.
- The loader's `col_map` (`ColumnMap.ColMap`) is written out but not
  proved well formed entry by entry. Both pages' candidate lists are
  (`AelyanaForm.CandidatesConsistent`, `NazifaForm.CandidatesConsistent`).
- Aelyana.RangeAnswer and Nazifa.RangeAnswer: stated only for ranges the
  table does not list. Listed ranges are covered by the table lemmas.
- AelyanaPipeline.AddScores: it computes every score column from the table
  as it was before scoring. In the source, later columns read the earlier
  score columns, which hold the same values.
- Schema.BuildRenameDict: it normalises every question before the loop,
  not inside it. `_norm_col` is pure, so the keys are the same.
- NazifaPipeline.CalculateIsiLike: it accumulates whole-number points. The
  source accumulates a float series starting at 0.0, which holds the same
  whole numbers.
