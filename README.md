# Wide-to-long archive converters, modelled in Dafny

The repository holds two converters. Each turns a wide research-instrument
export into the long layout an archive submission expects. The export has
one row per participant and wave and one column group per trial. The long
layout has one row per trial plus one summary row per (subject, wave).

- `reformat_scr_data` handles the shape-colour task. It does the following:
  - scans trial indices 1..120 and keeps a trial only when its
    `sc_trialN_type`, `_rt` and `_accuracy` columns all exist;
  - projects and renames the columns, and codes `"Shift"`/`"NoShift"` as 1/2;
  - adds one summary row per (subject, wave), with statistics looked up by
    subject id alone;
  - reindexes the rows to 25 columns and sorts them by (subject, wave, trial).
    Summary rows carry a sentinel trial of 9999 while sorting, and the
    sentinel is blanked afterwards.
- `reformat_vswm_data` handles the visual working memory task. It does the
  following:
  - codes the stimulus set `'Group A'..'Group D'` as 1..4 on the input;
  - scans trial indices 1..24 and keeps a trial when its set-size and
    accuracy columns exist;
  - turns each set-size label into the number of its first digit run;
  - adds one summary row per (subject, wave), with `dtttest_percor =
    total_rs / 24 * 100`;
  - reindexes to 29 columns and sorts with the same sentinel scheme.

The input is an already-parsed table. `Frames.Table` holds the header as a
set of column names and the rows as maps from column name to
`Frames.Value` (`Null`, integer, real or string). The output is the header
plus one sequence of cells per row.

Each converter is modelled in the same two layers:

- An imperative layer follows the source step by step:
  `ShapeColor.ReformatScrData` and `Vswm.ReformatVswmData`. The trial loop
  and the group loop are methods with invariants (`CollectTrials`,
  `SummarizeGroups`). Each is proved equal to a declarative reference
  (`Reformat`), which states the result directly on the input.
- The `ShapeColorFacts` and `VswmFacts` modules prove what the source
  promises about that reference:
  - which rows are written and what each holds;
  - how many rows each (subject, wave) group gets;
  - that the summary row is unique and last;
  - that trials ascend within a group and groups are contiguous;
  - exactly when each error is raised.

Shared modules:

- `Frames`: cells, tables, errors, concatenation and sentinel blanking.
- `Digits`: decimal rendering of trial numbers and the first digit run of a
  label.
- `Ordering`: the order `sort_values` uses.
- `Sorting`: a sorted permutation, grouping keys and key counting.
- `Grouping`: the (subject, wave) groups and the first row of each group.
- `SentinelSort`: sort by key, then blank the sentinel.

Three behaviours of the code are easy to misread; the model keeps them as
written:

- The set-size number is the first run of digits anywhere in the label, as
  `str.extract(r'(\d+)')` finds it. The source comment calls this the
  numeric part of the value, but digits need not open the label:
  `"Size 4b"` gives 4.
- The shape-colour statistics lookup by subject can never come back empty.
  Every group's subject comes from the input itself
  (`ShapeColor.SubjectAlwaysFound`), so the all-null fallback branch is
  dead code.
- Because that lookup ignores the wave, every wave of a subject carries the
  statistics of the subject's first input row. The model keeps this
  behaviour as written and states it in `ShapeColorFacts.StatsBySubject`.

## Model

| member | source | states |
|---|---|---|
| ShapeColor.QualifyingSpec | shape-color_NDA_reformat/sct_to_NDA.py:10-15 | the trials scanned are exactly the indices 1..120 whose type, rt and accuracy columns all exist, in strictly ascending order |
| ShapeColor.ShiftCodeSpec | shape-color_NDA_reformat/sct_to_NDA.py:43 | a trial type codes to 1 exactly when it is "Shift" (or already 1), to 2 exactly when it is "NoShift" (or already 2); every other value is unchanged; coding twice is coding once |
| ShapeColor.SubjectMatch | shape-color_NDA_reformat/sct_to_NDA.py:71-72 | the lookup `df[df["subject_id"] == subject]` finds nothing exactly when no input row has that subject id, and otherwise yields the first input row that has it |
| ShapeColor.SubjectAlwaysFound | shape-color_NDA_reformat/sct_to_NDA.py:71-102 | for every group the subject lookup finds a row, so the statistics are that row's and the all-null branch is never taken |
| ShapeColor.TrialRowRecord | shape-color_NDA_reformat/sct_to_NDA.py:16-59 | an input row projected for trial n, renamed, type-coded, given null statistics and sentinel-filled is the reference trial record of that row and trial |
| ShapeColor.CollectTrials | shape-color_NDA_reformat/sct_to_NDA.py:9-37 | the trial loop fails exactly when some trial qualifies and a per-participant column is missing, reporting the missing names; otherwise it yields one projected frame per qualifying trial, in order, each a copy of every input row |
| ShapeColor.TrialRowsCarryInputKeys | shape-color_NDA_reformat/sct_to_NDA.py:40 | the concatenated trial frames open with a copy of every input row, in order, and carry only input (subject, wave) keys |
| ShapeColor.GroupsOfTrialRows | shape-color_NDA_reformat/sct_to_NDA.py:63 | groupby over the trial rows visits exactly the input's non-null (subject, wave) pairs, ascending |
| ShapeColor.SummarizeGroups | shape-color_NDA_reformat/sct_to_NDA.py:61-131 | the group loop fails, naming the first missing statistics column in access order, exactly when there is a group and a statistics column is missing; otherwise it yields one summary row per group, in group order, each the group's reference summary record |
| ShapeColor.AssembledTable | shape-color_NDA_reformat/sct_to_NDA.py:137-158 | trial rows followed by summary rows, reindexed to the 25 columns with the sentinel filled in, are the reference rows |
| ShapeColor.ReformatScrData | shape-color_NDA_reformat/sct_to_NDA.py:3-160 | the conversion returns exactly the reference result: the error it raises, or the header and the sorted, sentinel-blanked rows it writes |
| ShapeColorFacts.ReformatWrites | shape-color_NDA_reformat/sct_to_NDA.py:141-164 | the conversion succeeds exactly when it goes through, and then writes the 25 output columns in their listed order |
| ShapeColorFacts.NothingToConvert | shape-color_NDA_reformat/sct_to_NDA.py:40 | the conversion fails on concatenating an empty list exactly when no index 1..120 has all three trial columns |
| ShapeColorFacts.OutputRowCells | shape-color_NDA_reformat/sct_to_NDA.py:141-155 | reindexing leaves subjectkey null, puts a row's trial in the trial column, and leaves the ten statistics columns null exactly when the row's mean and SD reaction times and accuracies are null |
| ShapeColorFacts.TrialRowShaped | shape-color_NDA_reformat/sct_to_NDA.py:46-59 | a trial row keeps its trial index 1..120 through the blanking and has all statistics columns null |
| ShapeColorFacts.SummaryRowShaped | shape-color_NDA_reformat/sct_to_NDA.py:158-160 | a summary row, blanked, has subjectkey null and trial "" |
| ShapeColorFacts.WrittenRowShape | shape-color_NDA_reformat/sct_to_NDA.py:46-160 | every row written is either a trial row of a qualifying index 1..120 with all statistics columns null, or a summary row with trial ""; both have 25 cells and subjectkey null |
| ShapeColorFacts.TrialRowWritten | shape-color_NDA_reformat/sct_to_NDA.py:16-37 | for every input row and every qualifying trial n, the row's cells with trial n and trial n's three cells (type coded) are written |
| ShapeColorFacts.SummaryRowWritten | shape-color_NDA_reformat/sct_to_NDA.py:63-137 | every input (subject, wave) pair without a null gets its summary row written with trial "" |
| ShapeColorFacts.WrittenRowOrigin | shape-color_NDA_reformat/sct_to_NDA.py:137-160 | every row written is a trial row of some input row and qualifying trial, or the summary row of some input group: nothing else is written |
| ShapeColorFacts.SummaryFromFirstRow | shape-color_NDA_reformat/sct_to_NDA.py:63-128 | a summary record has the group's key, date, age and sex of the group's first input row, the statistics of the subject's first input row whatever its wave, and null comments, trial counts and trial fields |
| ShapeColorFacts.StatsBySubject | shape-color_NDA_reformat/sct_to_NDA.py:71-87 | two groups of the same subject carry the same statistics, whatever their waves |
| ShapeColorFacts.ExpectedTrialCells | shape-color_NDA_reformat/sct_to_NDA.py:158 | after `fillna(9999)` every trial cell is the sentinel 9999 or a trial index 1..120 |
| ShapeColorFacts.GroupRowCount | shape-color_NDA_reformat/sct_to_NDA.py:158-160 | the rows written with (subject, wave) = k number (qualifying trials) × (input rows with key k), plus one when k is a non-null input key |
| ShapeColorFacts.OneSummaryPerGroup | shape-color_NDA_reformat/sct_to_NDA.py:158-160 | exactly one row with key k has trial "" when k is a non-null input key, and none otherwise |
| ShapeColorFacts.GroupOrder | shape-color_NDA_reformat/sct_to_NDA.py:158-160 | within a (subject, wave) group, a row with trial "" is followed only by rows with trial "", and trial numbers do not decrease |
| ShapeColorFacts.GroupContiguous | shape-color_NDA_reformat/sct_to_NDA.py:159 | the rows of one (subject, wave) group are contiguous |
| ShapeColorFacts.GroupsAscend | shape-color_NDA_reformat/sct_to_NDA.py:159 | the rows written come in ascending (subject, wave) order, so the groups appear in key order |
| Vswm.QualifyingSpec | vswm01_reformat/vswm_to_NDA.py:14-18 | the trials scanned are exactly the indices 1..24 whose set-size and accuracy columns both exist, in strictly ascending order |
| Vswm.StimulusCodeSpec | vswm01_reformat/vswm_to_NDA.py:9-10 | 'Group A'..'Group D' code to 1..4 (and only they, besides the codes themselves); every other value is unchanged; coding twice is coding once |
| Vswm.RemapStimulus | vswm01_reformat/vswm_to_NDA.py:10 | the remap codes every row's stimulus cell and leaves every other cell, the columns and the (subject, wave) keys unchanged |
| Vswm.SetSizeSpec | vswm01_reformat/vswm_to_NDA.py:35 | a set-size cell converts exactly when it is a string holding a digit, and then to a whole number |
| Vswm.SetSizeOfLabel | vswm01_reformat/vswm_to_NDA.py:35 | a label made of a digit-free prefix, the decimal n and a suffix not starting with a digit converts to n |
| Vswm.PercentSpec | vswm01_reformat/vswm_to_NDA.py:77 | the percentage is null exactly when the total is; otherwise 24 × percentage = 100 × total; totals 0..24 give percentages 0..100 |
| Vswm.FrameParses | vswm01_reformat/vswm_to_NDA.py:35 | a trial's frame holds a row whose set size does not convert exactly when the trial fails to parse |
| Vswm.UnparsedTrial | vswm01_reformat/vswm_to_NDA.py:35 | one qualifying trial whose set sizes do not all convert makes the whole scan fail to parse |
| Vswm.CollectTrials | vswm01_reformat/vswm_to_NDA.py:12-38 | the trial loop fails exactly when some trial qualifies and either a projected column is missing (reported by name) or some set size does not convert; otherwise it yields one frame per qualifying trial, in order |
| Vswm.TrialRowRecord | vswm01_reformat/vswm_to_NDA.py:20-69 | an input row projected for trial n, its set size converted, given its placeholders and sentinel-filled is the reference trial record |
| Vswm.FirstTrialRow | vswm01_reformat/vswm_to_NDA.py:74-85 | the first row of a group in the concatenated trial rows is a copy of the group's first input row, total score included |
| Vswm.ScoresChecked | vswm01_reformat/vswm_to_NDA.py:76-77 | a completed group loop means every group's first total score is numeric or null |
| Vswm.SummarizeGroups | vswm01_reformat/vswm_to_NDA.py:71-107 | the group loop fails with a non-numeric score exactly when some group's first total score is a string; otherwise it yields one summary row per group, in group order, each the group's reference summary record |
| Vswm.AssembledTable | vswm01_reformat/vswm_to_NDA.py:110-125 | trial rows followed by summary rows, reindexed to the 29 columns with the sentinel filled in, are the reference rows |
| Vswm.ReformatVswmData | vswm01_reformat/vswm_to_NDA.py:3-127 | the conversion returns exactly the reference result: the error it raises, or the header and the sorted, sentinel-blanked rows it writes |
| VswmFacts.RemapKeepsTrials | vswm01_reformat/vswm_to_NDA.py:10-18 | coding the stimulus set does not change which trials qualify |
| VswmFacts.RemapKeepsSetSizes | vswm01_reformat/vswm_to_NDA.py:10-35 | coding the stimulus set does not change whether the set sizes convert |
| VswmFacts.RemapKeepsScores | vswm01_reformat/vswm_to_NDA.py:10-77 | coding the stimulus set does not change whether the total scores are numeric |
| VswmFacts.FirstRowRemapped | vswm01_reformat/vswm_to_NDA.py:10-85 | a group's first row after the remap is its first input row with the stimulus coded, with the same total score |
| VswmFacts.ConvertsSpec | vswm01_reformat/vswm_to_NDA.py:6-127 | the conversion goes through exactly when the stimulus column exists, some trial qualifies, every projected column exists, every set size converts and every group's first total is not a string, all stated on the input as read |
| VswmFacts.NumericScoresSpec | vswm01_reformat/vswm_to_NDA.py:76-77 | the total-score check passes exactly when no row that opens a group with a non-null key has a string total |
| VswmFacts.ReformatWrites | vswm01_reformat/vswm_to_NDA.py:114-130 | the conversion succeeds exactly when it goes through, and then writes the 29 output columns in their listed order |
| VswmFacts.StimulusRequired | vswm01_reformat/vswm_to_NDA.py:10 | the conversion fails naming `vswm_stimulus_set` exactly when that column is absent |
| VswmFacts.NothingToConvert | vswm01_reformat/vswm_to_NDA.py:41 | the conversion fails on concatenating an empty list exactly when the stimulus column exists and no index 1..24 has both trial columns |
| VswmFacts.UnparsedSpec | vswm01_reformat/vswm_to_NDA.py:35 | some trial of a list fails to parse exactly when some input row's set-size cell of one of those trials does not convert |
| VswmFacts.SetSizeFailure | vswm01_reformat/vswm_to_NDA.py:35 | the conversion fails on a set size exactly when the stimulus and projected columns exist and the qualifying trials do not all parse |
| VswmFacts.UnconvertibleSetSize | vswm01_reformat/vswm_to_NDA.py:35 | the conversion fails on a set size exactly when the stimulus and projected columns exist and some row's set size of some qualifying trial 1..24 does not convert |
| VswmFacts.NonNumericTotal | vswm01_reformat/vswm_to_NDA.py:77 | once the earlier checks pass, the conversion fails dividing a total score exactly when some group's first total is a string |
| VswmFacts.OutputRowCells | vswm01_reformat/vswm_to_NDA.py:114-122 | reindexing puts the record's task, trial and set size in their columns; the placeholders are null exactly when session and visit are; the summary scores are null exactly when the record has none; the trial fields are null exactly when the record has none |
| VswmFacts.OutputRowFixed | vswm01_reformat/vswm_to_NDA.py:114-122 | subjectkey, stimcorss3..6, isidur and rt_ss3..6 are null on every row; session and visit hold the record's own |
| VswmFacts.TrialRowShaped | vswm01_reformat/vswm_to_NDA.py:20-69 | a trial row with a convertible set size has the placeholders null, task "vswm", its trial index 1..24, a whole-number set size and no summary scores |
| VswmFacts.SummaryRowShaped | vswm01_reformat/vswm_to_NDA.py:88-104 | a summary row, blanked, has the placeholders null, task "vswm", trial "" and no comments or trial fields |
| VswmFacts.WrittenRowShape | vswm01_reformat/vswm_to_NDA.py:52-127 | every row written is a trial row of a qualifying index 1..24 of that shape, or a summary row of that shape |
| VswmFacts.TrialRecordRemapped | vswm01_reformat/vswm_to_NDA.py:10-28 | the trial record of a remapped row is the input row's trial record with its stimulus set coded |
| VswmFacts.TrialRowWritten | vswm01_reformat/vswm_to_NDA.py:14-38 | for every input row and every qualifying trial n, the row's trial record with its stimulus set coded is written |
| VswmFacts.SummaryRowWritten | vswm01_reformat/vswm_to_NDA.py:74-111 | every input (subject, wave) pair without a null gets its summary row written with trial "" |
| VswmFacts.SummaryFromFirstRow | vswm01_reformat/vswm_to_NDA.py:74-104 | a summary record has the group's key; date, age and sex of the group's first input row; its stimulus set coded; total_rs its total score, which is not a string; dtttest_percor its percentage; accuracy_ss3..6 its set scores; task "vswm"; null session, visit, comments and trial fields |
| VswmFacts.WrittenRowOrigin | vswm01_reformat/vswm_to_NDA.py:111-127 | every row written is a trial row of some input row and qualifying trial, or the summary row of some input group: nothing else is written |
| VswmFacts.ExpectedTrialCells | vswm01_reformat/vswm_to_NDA.py:125 | after `fillna(9999)` every trial cell is the sentinel 9999 or a trial index 1..24 |
| VswmFacts.GroupRowCount | vswm01_reformat/vswm_to_NDA.py:125-127 | the rows written with (subject, wave) = k number (qualifying trials) × (input rows with key k), plus one when k is a non-null input key |
| VswmFacts.OneSummaryPerGroup | vswm01_reformat/vswm_to_NDA.py:125-127 | exactly one row with key k has trial "" when k is a non-null input key, and none otherwise |
| VswmFacts.AllTrialsQualify | vswm01_reformat/vswm_to_NDA.py:14-18 | with all 24 trials' columns present, every index 1..24 is scanned |
| VswmFacts.CompleteGroupRows | vswm01_reformat/main.py:7-10 | with all 24 trials present and a key occurring once in the input, its group has 24 + 1 rows |
| VswmFacts.GroupOrder | vswm01_reformat/vswm_to_NDA.py:125-127 | within a (subject, wave) group, a row with trial "" is followed only by rows with trial "", and trial numbers do not decrease |
| VswmFacts.GroupContiguous | vswm01_reformat/vswm_to_NDA.py:126 | the rows of one (subject, wave) group are contiguous |
| VswmFacts.GroupsAscend | vswm01_reformat/vswm_to_NDA.py:126 | the rows written come in ascending (subject, wave) order, so the groups appear in key order |
| SentinelSort.SentinelSortedHas | shape-color_NDA_reformat/sct_to_NDA.py:158-160 | every row before the sort is written, its sentinel blanked |
| SentinelSort.SentinelSortedFrom | shape-color_NDA_reformat/sct_to_NDA.py:158-160 | every row written is a row from before the sort, its sentinel blanked |
| SentinelSort.SentinelSortedCount | shape-color_NDA_reformat/sct_to_NDA.py:158-160 | sorting and blanking keep the number of rows with any key that leaves the trial out |
| SentinelSort.SentinelSortedBlankCount | shape-color_NDA_reformat/sct_to_NDA.py:158-160 | the rows written with key (subject, wave, "") are as many as the rows with (subject, wave, 9999) before the sort |
| SentinelSort.SentinelSortedGroupOrder | shape-color_NDA_reformat/sct_to_NDA.py:158-160 | after the sort, within a group, blank trials come after every numbered trial and numbered trials ascend |
| SentinelSort.SentinelSortedContiguous | shape-color_NDA_reformat/sct_to_NDA.py:159 | after the sort, the rows of one group are contiguous |
| SentinelSort.SentinelSortedGroupsAscend | shape-color_NDA_reformat/sct_to_NDA.py:159-160 | after the sort and the blanking, rows are in ascending (subject, wave) order |
| Sorting.SortBy | shape-color_NDA_reformat/sct_to_NDA.py:159 | `sort_values` yields a permutation of its rows, sorted by key |
| Sorting.CountKeyPermutation | shape-color_NDA_reformat/sct_to_NDA.py:159 | any permutation keeps the number of rows with a given key |
| Sorting.SortedGroupsContiguous | shape-color_NDA_reformat/sct_to_NDA.py:159 | in rows sorted by (subject, wave, trial), rows between two rows of a group belong to it |
| Sorting.SortedGroupsAscend | shape-color_NDA_reformat/sct_to_NDA.py:159 | in rows sorted by (subject, wave, trial), trials ascend within a group |
| Sorting.GroupKeysSpec | shape-color_NDA_reformat/sct_to_NDA.py:63 | the keys groupby visits are the distinct non-null keys, strictly ascending |
| Grouping.GroupsSpec | vswm01_reformat/vswm_to_NDA.py:74 | the groups are the input's non-null (subject, wave) pairs, each once, ascending |
| Grouping.GroupOccurrences | vswm01_reformat/vswm_to_NDA.py:74 | a key occurs once among the groups when it is a non-null input key, and never otherwise |
| Grouping.FirstIndexOf | vswm01_reformat/vswm_to_NDA.py:76-85 | `iloc[0]` of a group reads the first row with the group's key |
| Frames.Missing | shape-color_NDA_reformat/sct_to_NDA.py:16-21 | the columns a projection reports missing are exactly the requested ones the table lacks, in request order; none are missing exactly when all exist |
| Frames.BlankSentinel | shape-color_NDA_reformat/sct_to_NDA.py:160 | `replace(9999, "")` on one row changes the trial cell to "" exactly when it holds 9999, and no other cell |
| Digits.Decimal | shape-color_NDA_reformat/sct_to_NDA.py:11-13 | the decimal rendering of a trial number is a non-empty digit string denoting that number, without leading zeros |
| Digits.DecimalInjective | shape-color_NDA_reformat/sct_to_NDA.py:11-13 | different trial numbers render to different digit strings |
| Digits.FirstDigitRun | vswm01_reformat/vswm_to_NDA.py:35 | `str.extract(r'(\d+)')` finds no number exactly when the label has no digit |
| Digits.FirstDigitRunAt | vswm01_reformat/vswm_to_NDA.py:35 | the number extracted is the value of the first maximal run of digits |
| Digits.ExtractsDecimal | vswm01_reformat/vswm_to_NDA.py:35 | a digit-free prefix, a rendered number and a suffix not starting with a digit extract to that number |
| Ordering.KeyLeTotal | shape-color_NDA_reformat/sct_to_NDA.py:159 | any two sort keys are comparable |
| Ordering.KeyLeTransitive | shape-color_NDA_reformat/sct_to_NDA.py:159 | the key order is transitive |
| Ordering.KeyLeAntisymmetric | shape-color_NDA_reformat/sct_to_NDA.py:159 | keys that are each at most the other are equal |
| Ordering.KeyLePrefix | shape-color_NDA_reformat/sct_to_NDA.py:159 | keys sorted by (subject, wave, trial) are sorted by (subject, wave) |

## Left out

- Reading and writing CSV files (`pd.read_csv`, `to_csv`) and the interactive prompt in `vswm01_reformat/main.py`: the input is a parsed table and the output a header plus rows.
- Pandas dtype coercion is not modelled: an integer column holding NaN becomes float, so trial numbers print as `1.0`, and an integer cell and the equal float cell are different values in the model. A cell is null, an integer, an exact real or a string.
- Ordering.ValueLe: within one kind of value the order is the natural one, but integers, reals and strings in the same key column are ordered by kind, not as pandas would compare them (pandas raises on mixed strings and numbers). Nulls sort last, as with `na_position='last'`.
- Sorting.SortBy: it fixes one sorted permutation. Pandas' order among rows with equal (subject, wave, trial) keys is not modelled. Every property of the rows written is proved from the sorted-permutation contract alone.
- Vswm.PercentSpec: the percentage is exact real arithmetic, not IEEE double rounding.
- Digits.IsDigit: `\d` matches ASCII digits only, not other Unicode decimal digits.
- Integers are unbounded: int64 overflow of a very long digit run in `astype(int)` is not modelled.
- Vswm.CollectTrials: the different pandas exceptions for an unconvertible set size form one error, `UnparsableSetSize`. A column with no string at all (the `.str` accessor refuses it) and a label without digits (`astype(int)` refuses the NaN) both map to it.
- An absent column and a column of nulls read the same (`Frames.Cell`). This is because `reindex` and `concat` fill either with NaN.
- The renames (`subject_id` to `src_subject_id`, `sex` to `gender`, `wave` to `timepoint_wave`, the trial columns to their canonical names) are folded into the record fields. They are not modelled as column-name maps.
- The VSWM input columns that `reindex` drops (`group`, `filename`, the set scores and total score of trial rows) are carried as record fields that never reach an output cell. The 18 placeholder assignments are modelled by `Vswm.Placeholders`, which sets the record's placeholder fields; placeholders that are not record fields (`stimcorss3..6`, `isidur`, `rt_ss3..6`) are null cells of `Vswm.OutputRow`.
- A shape-colour trial's statistics placeholders include four trial counts that are not output columns. Only the ten statistics that are output columns appear in `ShapeColorFacts.OutputRowCells`.
