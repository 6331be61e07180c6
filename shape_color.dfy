/** The shape-colour task converter (reformat_scr_data): one wide row per
    participant and wave, with columns sc_trial<n>_type/_rt/_accuracy for
    trials 1..120, becomes one long row per trial plus one summary row per
    (subject, wave), in the archive's 25-column order. */
module ShapeColor {
  import opened Frames
  import opened Ordering
  import opened Sorting
  import opened Digits
  import opened SentinelSort
  import opened Grouping

  /** The scan range: trial indices 1..120. */
  const TrialCount: nat := 120

  function TypeColumn(n: nat): string { "sc_trial" + Decimal(n) + "_type" }
  function RtColumn(n: nat): string { "sc_trial" + Decimal(n) + "_rt" }
  function AccuracyColumn(n: nat): string { "sc_trial" + Decimal(n) + "_accuracy" }

  /** Trial `n` is converted only when all three of its columns exist. */
  predicate Qualifies(df: Table, n: nat)
  {
    TypeColumn(n) in df.columns && RtColumn(n) in df.columns && AccuracyColumn(n) in df.columns
  }

  /** The qualifying trial indices among 1..k, ascending. */
  function QualifyingUpTo(df: Table, k: nat): seq<nat>
  {
    if k == 0 then [] else QualifyingUpTo(df, k - 1) + (if Qualifies(df, k) then [k] else [])
  }

  /** Exactly the qualifying indices among 1..k, strictly ascending. */
  lemma {:induction false} QualifyingSpec(df: Table, k: nat)
    ensures var q := QualifyingUpTo(df, k);
      (forall n :: n in q <==> 1 <= n <= k && Qualifies(df, n)) &&
      (forall i, j :: 0 <= i < j < |q| ==> q[i] < q[j]) &&
      (forall i :: 0 <= i < |q| ==> 1 <= q[i] <= k)
  {
    QualifyingMembers(df, k);
    QualifyingBounds(df, k);
    QualifyingAscending(df, k);
  }

  lemma {:induction false} QualifyingMembers(df: Table, k: nat)
    ensures forall n :: n in QualifyingUpTo(df, k) <==> 1 <= n <= k && Qualifies(df, n)
  {
    if k > 0 {
      QualifyingMembers(df, k - 1);
    }
  }

  lemma {:induction false} QualifyingBounds(df: Table, k: nat)
    ensures forall i :: 0 <= i < |QualifyingUpTo(df, k)| ==> 1 <= QualifyingUpTo(df, k)[i] <= k
  {
    if k > 0 {
      QualifyingBounds(df, k - 1);
      var p := QualifyingUpTo(df, k - 1);
      var q := QualifyingUpTo(df, k);
      forall i | 0 <= i < |q| ensures 1 <= q[i] <= k {
        if i < |p| {
          assert q[i] == p[i];
        }
      }
    }
  }

  lemma {:induction false} QualifyingAscending(df: Table, k: nat)
    ensures forall i, j :: 0 <= i < j < |QualifyingUpTo(df, k)| ==>
              QualifyingUpTo(df, k)[i] < QualifyingUpTo(df, k)[j]
  {
    if k > 0 {
      QualifyingAscending(df, k - 1);
      QualifyingBounds(df, k - 1);
      var p := QualifyingUpTo(df, k - 1);
      var q := QualifyingUpTo(df, k);
      forall i, j | 0 <= i < j < |q| ensures q[i] < q[j] {
        assert q[i] == p[i];
        if j < |p| {
          assert q[j] == p[j];
        }
      }
    }
  }

  /** The per-participant input columns every trial row copies. */
  const FixedColumns: seq<string> := [
    "subject_id", "interview_date", "interview_age", "sex", "wave",
    "comments_misc", "sc_reaction_time_units",
    "sc_num_shift_trials", "sc_num_noshift_trials", "sc_total_num_trials"]

  /** The precomputed statistics the summary row reads, in access order. */
  const StatColumns: seq<string> := [
    "sc_shift_corr_mean_rt", "sc_shift_corr_sd_rt", "num_corr_shift_trials",
    "sc_shift_incorr_mean_rt", "sc_shift_incorr_sd_rt", "num_incorr_shift_trials",
    "sc_shift_accuracy",
    "sc_noshift_corr_mean_rt", "sc_noshift_corr_sd_rt", "num_corr_noshift_trials",
    "sc_noshift_incorr_mean_rt", "sc_noshift_incorr_sd_rt", "num_incorr_noshift_trials",
    "sc_noshift_accuracy"]

  /** The archive's column order. */
  const OutputColumns: seq<string> := [
    "subjectkey", "src_subject_id", "interview_date", "interview_age", "gender",
    "timepoint_wave", "comments_misc", "trial", "sc_reaction_time_units",
    "sc_num_shift_trials", "sc_num_noshift_trials", "sc_total_num_trials",
    "sc_trial_type", "sc_trial_rt", "sc_trial_accuracy",
    "sc_shift_corr_mean_rt", "sc_shift_incorr_mean_rt", "sc_noshift_corr_mean_rt",
    "sc_noshift_incorr_mean_rt", "sc_shift_corr_sd_rt", "sc_shift_incorr_sd_rt",
    "sc_noshift_corr_sd_rt", "sc_noshift_incorr_sd_rt", "sc_shift_accuracy",
    "sc_noshift_accuracy"]

  /** Positions in OutputColumns of src_subject_id, timepoint_wave and trial:
      the sort columns. */
  const SortColumns: seq<nat> := [1, 5, 7]
  const GroupColumns: seq<nat> := [1, 5]
  const TrialPosition: nat := 7

  /** The fourteen summary statistics of one participant and wave. */
  datatype Stats = Stats(
    shiftCorrMeanRt: Value, shiftCorrSdRt: Value, numCorrShiftTrials: Value,
    shiftIncorrMeanRt: Value, shiftIncorrSdRt: Value, numIncorrShiftTrials: Value,
    shiftAccuracy: Value,
    noshiftCorrMeanRt: Value, noshiftCorrSdRt: Value, numCorrNoshiftTrials: Value,
    noshiftIncorrMeanRt: Value, noshiftIncorrSdRt: Value, numIncorrNoshiftTrials: Value,
    noshiftAccuracy: Value)

  const NoStats: Stats := Stats(Null, Null, Null, Null, Null, Null, Null,
                                Null, Null, Null, Null, Null, Null, Null)

  /** The statistics columns of an input row, read one by one. */
  function StatsOf(row: Row): Stats
  {
    Stats(Cell(row, "sc_shift_corr_mean_rt"), Cell(row, "sc_shift_corr_sd_rt"),
          Cell(row, "num_corr_shift_trials"), Cell(row, "sc_shift_incorr_mean_rt"),
          Cell(row, "sc_shift_incorr_sd_rt"), Cell(row, "num_incorr_shift_trials"),
          Cell(row, "sc_shift_accuracy"),
          Cell(row, "sc_noshift_corr_mean_rt"), Cell(row, "sc_noshift_corr_sd_rt"),
          Cell(row, "num_corr_noshift_trials"), Cell(row, "sc_noshift_incorr_mean_rt"),
          Cell(row, "sc_noshift_incorr_sd_rt"), Cell(row, "num_incorr_noshift_trials"),
          Cell(row, "sc_noshift_accuracy"))
  }

  /** A row of trial_df or summary_df, under its renamed column names; a
      column a row does not carry is Null, as pandas fills it on concat. */
  datatype LongRow = LongRow(
    srcSubjectId: Value, interviewDate: Value, interviewAge: Value, gender: Value,
    timepointWave: Value, commentsMisc: Value, trial: Value,
    reactionTimeUnits: Value, numShiftTrials: Value, numNoshiftTrials: Value,
    totalNumTrials: Value, trialType: Value, trialRt: Value, trialAccuracy: Value,
    stats: Stats)

  /** The projection of one input row for trial `n`, tagged with the trial
      number and renamed. */
  function TrialSubset(row: Row, n: nat): LongRow
  {
    LongRow(Cell(row, "subject_id"), Cell(row, "interview_date"), Cell(row, "interview_age"),
            Cell(row, "sex"), Cell(row, "wave"), Cell(row, "comments_misc"), I(n),
            Cell(row, "sc_reaction_time_units"), Cell(row, "sc_num_shift_trials"),
            Cell(row, "sc_num_noshift_trials"), Cell(row, "sc_total_num_trials"),
            Cell(row, TypeColumn(n)), Cell(row, RtColumn(n)), Cell(row, AccuracyColumn(n)),
            NoStats)
  }

  /** replace({"Shift": 1, "NoShift": 2}) on one trial-type cell. */
  function ShiftCode(v: Value): Value
  {
    if v == S("Shift") then I(1) else if v == S("NoShift") then I(2) else v
  }

  /** The two labels are coded, and nothing else is touched: applying the
      replacement twice gives what applying it once gives. */
  lemma ShiftCodeSpec(v: Value)
    ensures ShiftCode(v) == I(1) <==> v == S("Shift") || v == I(1)
    ensures ShiftCode(v) == I(2) <==> v == S("NoShift") || v == I(2)
    ensures v != S("Shift") && v != S("NoShift") ==> ShiftCode(v) == v
    ensures ShiftCode(ShiftCode(v)) == ShiftCode(v)
  {
  }

  /** The group key of a trial_df row: (src_subject_id, timepoint_wave). */
  function GroupKey(r: LongRow): seq<Value>
  {
    [r.srcSubjectId, r.timepointWave]
  }

  /** df[df["subject_id"] == subject]: the first input row of the subject,
      whatever its wave. */
  function SubjectMatch(rows: seq<Row>, subject: Value): (r: Option<Row>)
    ensures r.None? <==> forall i :: 0 <= i < |rows| ==> Cell(rows[i], "subject_id") != subject
    ensures r.Some? ==> exists i :: 0 <= i < |rows| && rows[i] == r.value &&
                          Cell(rows[i], "subject_id") == subject &&
                          forall j :: 0 <= j < i ==> Cell(rows[j], "subject_id") != subject
  {
    if rows == [] then None
    else if Cell(rows[0], "subject_id") == subject then Some(rows[0])
    else
      var r := SubjectMatch(rows[1..], subject);
      assert forall i :: 1 <= i < |rows| ==> rows[i] == rows[1..][i - 1];
      r
  }

  /** The statistics a group's summary row carries: those of the subject's
      first input row (all null if there were none). */
  function GroupStats(rows: seq<Row>, subject: Value): Stats
  {
    match SubjectMatch(rows, subject)
    case Some(r) => StatsOf(r)
    case None => NoStats
  }

  /** reindex(columns=OutputColumns) of one row. */
  function OutputRow(r: LongRow): (o: seq<Value>)
    ensures |o| == |OutputColumns|
  {
    var st := r.stats;
    [Null, r.srcSubjectId, r.interviewDate, r.interviewAge, r.gender,
     r.timepointWave, r.commentsMisc, r.trial, r.reactionTimeUnits,
     r.numShiftTrials, r.numNoshiftTrials, r.totalNumTrials,
     r.trialType, r.trialRt, r.trialAccuracy,
     st.shiftCorrMeanRt, st.shiftIncorrMeanRt, st.noshiftCorrMeanRt,
     st.noshiftIncorrMeanRt, st.shiftCorrSdRt, st.shiftIncorrSdRt,
     st.noshiftCorrSdRt, st.noshiftIncorrSdRt, st.shiftAccuracy,
     st.noshiftAccuracy]
  }

  /** fillna(9999) on the trial column of one row. */
  function FillTrial(r: LongRow): (f: LongRow)
    ensures f.trial != Null
    ensures r.trial != Null ==> f == r
    ensures r.trial == Null ==> f == r.(trial := I(Sentinel))
  {
    if r.trial == Null then r.(trial := I(Sentinel)) else r
  }

  // ---------------------------------------------------------------------
  // What the conversion produces, stated directly on the input.
  // ---------------------------------------------------------------------

  /** The row trial `n` of input row `row` contributes, before sorting:
      the participant's columns, the trial number, the trial's three cells
      with its type coded, and no statistics. */
  function TrialRecord(row: Row, n: nat): LongRow
  {
    LongRow(Cell(row, "subject_id"), Cell(row, "interview_date"), Cell(row, "interview_age"),
            Cell(row, "sex"), Cell(row, "wave"), Cell(row, "comments_misc"), I(n),
            Cell(row, "sc_reaction_time_units"), Cell(row, "sc_num_shift_trials"),
            Cell(row, "sc_num_noshift_trials"), Cell(row, "sc_total_num_trials"),
            ShiftCode(Cell(row, TypeColumn(n))), Cell(row, RtColumn(n)), Cell(row, AccuracyColumn(n)),
            NoStats)
  }

  /** The row summarising group `key`, before sorting: date, age and sex of
      the group's first input row, the subject's statistics, and the
      sentinel as its trial number. */
  function SummaryRecord(rows: seq<Row>, key: seq<Value>): LongRow
    requires key in InputKeys(rows) && |key| == 2
  {
    var first := rows[FirstIndexOf(InputKeys(rows), key)];
    LongRow(key[0], Cell(first, "interview_date"), Cell(first, "interview_age"), Cell(first, "sex"),
            key[1], Null, I(Sentinel), Null, Null, Null, Null, Null, Null, Null,
            GroupStats(rows, key[0]))
  }

  function TrialRecords(rows: seq<Row>, n: nat): (rs: seq<LongRow>)
    ensures |rs| == |rows| && forall i :: 0 <= i < |rows| ==> rs[i] == TrialRecord(rows[i], n)
  {
    seq(|rows|, i requires 0 <= i < |rows| => TrialRecord(rows[i], n))
  }

  /** One frame of trial records per qualifying trial, in trial order. */
  function TrialFrames(rows: seq<Row>, q: seq<nat>): (fs: seq<seq<LongRow>>)
    ensures |fs| == |q| && forall j :: 0 <= j < |q| ==> fs[j] == TrialRecords(rows, q[j])
  {
    seq(|q|, j requires 0 <= j < |q| => TrialRecords(rows, q[j]))
  }

  function SummaryRecords(rows: seq<Row>, gs: seq<seq<Value>>): (rs: seq<LongRow>)
    requires forall k :: k in gs ==> k in InputKeys(rows) && |k| == 2
    ensures |rs| == |gs| && forall g :: 0 <= g < |gs| ==> rs[g] == SummaryRecord(rows, gs[g])
  {
    seq(|gs|, g requires 0 <= g < |gs| => SummaryRecord(rows, gs[g]))
  }

  /** All rows before sorting: trial rows trial-major (all input rows for the
      first qualifying trial, then the next), then one summary row per group. */
  function ExpectedRecords(df: Table, q: seq<nat>): seq<LongRow>
  {
    GroupsSpec(df.rows);
    Flatten(TrialFrames(df.rows, q)) + SummaryRecords(df.rows, Groups(df.rows))
  }

  /** Those rows in the output's column order. */
  function Expected(df: Table, q: seq<nat>): (rs: seq<seq<Value>>)
    ensures |rs| == |ExpectedRecords(df, q)|
    ensures forall k :: 0 <= k < |rs| ==> rs[k] == OutputRow(ExpectedRecords(df, q)[k])
  {
    var recs := ExpectedRecords(df, q);
    seq(|recs|, k requires 0 <= k < |recs| => OutputRow(recs[k]))
  }

  /** The last three steps: the sentinel-filled rows sorted by
      (src_subject_id, timepoint_wave, trial), then the sentinel blanked. */
  function SortAndBlank(rows: seq<seq<Value>>): (o: Output)
    requires Width(rows, |OutputColumns|)
    ensures o.header == OutputColumns && |o.rows| == |rows| && Width(o.rows, |OutputColumns|)
  {
    Output(OutputColumns, SentinelSorted(rows, SortColumns, TrialPosition, |OutputColumns|))
  }

  /** The conversion goes through: some trial qualifies, and every column
      it reads exists. */
  predicate Converts(df: Table)
  {
    QualifyingUpTo(df, TrialCount) != [] && Missing(FixedColumns, df.columns) == [] &&
    (Groups(df.rows) == [] || Missing(StatColumns, df.columns) == [])
  }

  /** What reformat_scr_data writes, or the error it raises. */
  function Reformat(df: Table): Result<Output>
  {
    var q := QualifyingUpTo(df, TrialCount);
    if q == [] then Failure(NothingToConcatenate)
    else if Missing(FixedColumns, df.columns) != [] then
      Failure(MissingColumns(Missing(FixedColumns, df.columns)))
    else if Groups(df.rows) != [] && Missing(StatColumns, df.columns) != [] then
      Failure(MissingColumns([Missing(StatColumns, df.columns)[0]]))
    else
      Success(SortAndBlank(Expected(df, q)))
  }

  // ---------------------------------------------------------------------
  // The conversion, step by step.
  // ---------------------------------------------------------------------

  /** The Shift/NoShift coding and the statistics placeholders, applied to
      one trial_df row. */
  function CodeTrialRow(r: LongRow): LongRow
  {
    r.(trialType := ShiftCode(r.trialType), stats := NoStats)
  }

  /** The coding and placeholders over all of trial_df. */
  function CodedRows(rs: seq<LongRow>): (r: seq<LongRow>)
    ensures |r| == |rs| && forall i :: 0 <= i < |rs| ==> r[i] == CodeTrialRow(rs[i])
  {
    seq(|rs|, i requires 0 <= i < |rs| => CodeTrialRow(rs[i]))
  }

  /** reindex and fillna over the whole table. */
  function OutputRows(rs: seq<LongRow>): (o: seq<seq<Value>>)
    ensures |o| == |rs| && forall i :: 0 <= i < |rs| ==> o[i] == OutputRow(FillTrial(rs[i]))
  {
    seq(|rs|, i requires 0 <= i < |rs| => OutputRow(FillTrial(rs[i])))
  }

  /** The summary_df row the groupby loop builds: identity from the group's
      first trial row, statistics as looked up. */
  function SummaryRow(key: seq<Value>, first: LongRow, stats: Stats): LongRow
    requires |key| == 2
  {
    LongRow(key[0], first.interviewDate, first.interviewAge, first.gender, key[1],
            Null, Null, Null, Null, Null, Null, Null, Null, Null, stats)
  }

  /** One trial row, projected, coded and sentinel-filled, is the reference
      trial record. */
  lemma TrialRowRecord(row: Row, n: nat)
    ensures FillTrial(CodeTrialRow(TrialSubset(row, n))) == TrialRecord(row, n)
  {
  }

  /** Every group groupby yields has a subject that occurs in the input, so
      the statistics lookup by subject always finds a row and its all-null
      fallback is never taken. */
  lemma SubjectAlwaysFound(rows: seq<Row>, key: seq<Value>)
    requires key in InputKeys(rows) && |key| == 2
    ensures SubjectMatch(rows, key[0]).Some?
    ensures GroupStats(rows, key[0]) == StatsOf(SubjectMatch(rows, key[0]).value)
  {
    var i :| 0 <= i < |rows| && InputKeys(rows)[i] == key;
    assert Cell(rows[i], "subject_id") == key[0];
  }

  /** Trial row `r` carries input row `row`'s group key and identity. */
  predicate SameIdentity(r: LongRow, row: Row)
  {
    GroupKey(r) == InputKey(row) &&
    r.interviewDate == Cell(row, "interview_date") &&
    r.interviewAge == Cell(row, "interview_age") &&
    r.gender == Cell(row, "sex")
  }

  /** `trialData` holds one frame per trial of `q`, each the projection of
      every input row for that trial. */
  predicate IsTrialFrames(df: Table, q: seq<nat>, trialData: seq<seq<LongRow>>)
  {
    |trialData| == |q| &&
    (forall j :: 0 <= j < |q| ==> |trialData[j]| == |df.rows|) &&
    forall j, i :: 0 <= j < |q| && 0 <= i < |df.rows| ==> trialData[j][i] == TrialSubset(df.rows[i], q[j])
  }

  /** Appending the frame of trial `n` extends the frames by that trial. */
  lemma ExtendTrialFrames(df: Table, q: seq<nat>, trialData: seq<seq<LongRow>>, n: nat, subset: seq<LongRow>)
    requires IsTrialFrames(df, q, trialData)
    requires |subset| == |df.rows| && forall i :: 0 <= i < |df.rows| ==> subset[i] == TrialSubset(df.rows[i], n)
    ensures IsTrialFrames(df, q + [n], trialData + [subset])
  {
  }

  /** `trialDf` opens with a copy of every input row, in order, and carries
      only input keys. */
  predicate CarriesInputKeys(df: Table, trialDf: seq<LongRow>)
  {
    |df.rows| <= |trialDf| &&
    (forall i :: 0 <= i < |df.rows| ==> SameIdentity(trialDf[i], df.rows[i])) &&
    forall i :: 0 <= i < |trialDf| ==> GroupKey(trialDf[i]) in InputKeys(df.rows)
  }

  /** The concatenated trial frames open with a copy of every input row, and
      every key they carry is an input key. */
  lemma TrialRowsCarryInputKeys(df: Table, q: seq<nat>, trialData: seq<seq<LongRow>>)
    requires q != [] && IsTrialFrames(df, q, trialData)
    ensures CarriesInputKeys(df, CodedRows(Flatten(trialData)))
  {
    var concatenated := Flatten(trialData);
    var trialDf := CodedRows(concatenated);
    var inputKeys := InputKeys(df.rows);
    var copies := seq(|trialData|, j => inputKeys);
    assert forall j :: 0 <= j < |copies| ==> copies[j] == inputKeys;
    FlattenPointwise(trialData, copies, GroupKey);
    FlattenCopiesValues(copies, inputKeys);
    assert concatenated == trialData[0] + Flatten(trialData[1..]);
    forall i | 0 <= i < |trialDf| ensures GroupKey(trialDf[i]) in inputKeys {
      assert GroupKey(trialDf[i]) == Flatten(copies)[i];
    }
    forall i | 0 <= i < |df.rows| ensures SameIdentity(trialDf[i], df.rows[i]) {
      assert concatenated[i] == trialData[0][i] == TrialSubset(df.rows[i], q[0]);
      CodedSubsetIdentity(df.rows[i], q[0]);
    }
  }

  /** Coding a projected trial row keeps the identity of its input row. */
  lemma CodedSubsetIdentity(row: Row, n: nat)
    ensures SameIdentity(CodeTrialRow(TrialSubset(row, n)), row)
  {
  }

  /** Rows that open with a copy of every input row and carry only input
      keys fall into the input's groups, and open with the input's keys. */
  lemma GroupsOfTrialRows(df: Table, trialDf: seq<LongRow>, keys: seq<seq<Value>>)
    requires CarriesInputKeys(df, trialDf)
    requires |keys| == |trialDf| && forall i :: 0 <= i < |keys| ==> keys[i] == GroupKey(trialDf[i])
    ensures GroupKeys(keys) == Groups(df.rows)
    ensures keys[..|df.rows|] == InputKeys(df.rows)
  {
    var inputKeys := InputKeys(df.rows);
    forall i | 0 <= i < |df.rows| ensures keys[i] == inputKeys[i] {
      assert SameIdentity(trialDf[i], df.rows[i]);
    }
    assert keys[..|df.rows|] == inputKeys;
    GroupsOfKeys(df.rows, keys);
  }

  /** Sentinel-filled, the coded trial rows are the reference trial records,
      frame by frame. */
  lemma TrialRowsMatch(df: Table, q: seq<nat>, trialData: seq<seq<LongRow>>)
    requires IsTrialFrames(df, q, trialData)
    ensures TrialsMatch(df, q, CodedRows(Flatten(trialData)))
  {
    var fs := TrialFrames(df.rows, q);
    forall j, i | 0 <= j < |trialData| && 0 <= i < |trialData[j]|
      ensures fs[j][i] == FillTrial(CodeTrialRow(trialData[j][i]))
    {
      TrialRowRecord(df.rows[i], q[j]);
    }
    FlattenPointwise(trialData, fs, r => FillTrial(CodeTrialRow(r)));
  }

  /** Sentinel-filled, `trialDf` is the reference trial records. */
  predicate TrialsMatch(df: Table, q: seq<nat>, trialDf: seq<LongRow>)
  {
    |Flatten(TrialFrames(df.rows, q))| == |trialDf| &&
    forall i :: 0 <= i < |trialDf| ==> Flatten(TrialFrames(df.rows, q))[i] == FillTrial(trialDf[i])
  }

  /** Sentinel-filled, `r` is the reference summary record of group `key`. */
  predicate Summarizes(r: LongRow, rows: seq<Row>, key: seq<Value>)
  {
    key in InputKeys(rows) && |key| == 2 && FillTrial(r) == SummaryRecord(rows, key)
  }

  /** `summaryRows` summarises the input's groups, one row each, in order. */
  predicate SummariesMatch(df: Table, summaryRows: seq<LongRow>)
  {
    |summaryRows| == |Groups(df.rows)| &&
    forall h :: 0 <= h < |summaryRows| ==> Summarizes(summaryRows[h], df.rows, Groups(df.rows)[h])
  }

  /** Trial rows followed by summary rows, each matching its reference
      record once sentinel-filled, are the reference records. */
  lemma AssembledRecords(df: Table, q: seq<nat>, trialDf: seq<LongRow>, summaryRows: seq<LongRow>)
    requires TrialsMatch(df, q, trialDf) && SummariesMatch(df, summaryRows)
    ensures |ExpectedRecords(df, q)| == |trialDf| + |summaryRows|
    ensures forall i :: 0 <= i < |trialDf| + |summaryRows| ==>
              FillTrial((trialDf + summaryRows)[i]) == ExpectedRecords(df, q)[i]
  {
    GroupsSpec(df.rows);
    var tf := Flatten(TrialFrames(df.rows, q));
    var sr := SummaryRecords(df.rows, Groups(df.rows));
    assert ExpectedRecords(df, q) == tf + sr;
    forall h | 0 <= h < |summaryRows| ensures FillTrial(summaryRows[h]) == sr[h] {
      assert Summarizes(summaryRows[h], df.rows, Groups(df.rows)[h]);
    }
    ConcatPointwise(trialDf, summaryRows, tf, sr, FillTrial);
  }

  /** Reindexed and sentinel-filled, trial rows followed by summary rows that
      match their reference records are the reference table. */
  lemma AssembledTable(df: Table, q: seq<nat>, trialDf: seq<LongRow>, summaryRows: seq<LongRow>)
    requires TrialsMatch(df, q, trialDf) && SummariesMatch(df, summaryRows)
    ensures OutputRows(trialDf + summaryRows) == Expected(df, q)
  {
    AssembledRecords(df, q, trialDf, summaryRows);
    var out := OutputRows(trialDf + summaryRows);
    var e := Expected(df, q);
    assert |out| == |e|;
    forall i | 0 <= i < |out| ensures out[i] == e[i] {
    }
  }

  /** The summary row built from a group's first trial row and its subject's
      statistics is the group's reference summary. */
  lemma SummaryStep(df: Table, trialDf: seq<LongRow>, keys: seq<seq<Value>>, key: seq<Value>)
    requires CarriesInputKeys(df, trialDf)
    requires |keys| == |trialDf| && keys[..|df.rows|] == InputKeys(df.rows)
    requires key in InputKeys(df.rows) && |key| == 2
    ensures FirstIndexOf(keys, key) == FirstIndexOf(InputKeys(df.rows), key) < |df.rows|
    ensures Summarizes(SummaryRow(key, trialDf[FirstIndexOf(keys, key)], GroupStats(df.rows, key[0])), df.rows, key)
  {
    FirstIndexOfPrefix(keys, InputKeys(df.rows), key);
    var i := FirstIndexOf(keys, key);
    assert SameIdentity(trialDf[i], df.rows[i]);
  }

  lemma AppendSummary(rows: seq<Row>, groups: seq<seq<Value>>, summaryRows: seq<LongRow>, summary: LongRow)
    requires |summaryRows| < |groups|
    requires forall h :: 0 <= h < |summaryRows| ==> Summarizes(summaryRows[h], rows, groups[h])
    requires Summarizes(summary, rows, groups[|summaryRows|])
    ensures forall h :: 0 <= h <= |summaryRows| ==> Summarizes((summaryRows + [summary])[h], rows, groups[h])
  {
  }

  /** The scan over trials 1..120: one projected frame per qualifying
      trial, or the KeyError of the first projection when a per-participant
      column is missing. */
  method CollectTrials(df: Table) returns (r: Result<seq<seq<LongRow>>>)
    ensures var q := QualifyingUpTo(df, TrialCount);
      r.Failure? <==> q != [] && Missing(FixedColumns, df.columns) != []
    ensures r.Failure? ==> r.error == MissingColumns(Missing(FixedColumns, df.columns))
    ensures r.Success? ==> IsTrialFrames(df, QualifyingUpTo(df, TrialCount), r.value)
  {
    var trialData: seq<seq<LongRow>> := [];
    ghost var q: seq<nat> := [];
    var n: nat := 1;
    while n <= TrialCount
      invariant 1 <= n <= TrialCount + 1
      invariant q == QualifyingUpTo(df, n - 1)
      invariant IsTrialFrames(df, q, trialData)
      invariant trialData != [] ==> Missing(FixedColumns, df.columns) == []
    {
      if Qualifies(df, n) {
        var missing := Missing(FixedColumns, df.columns);
        if missing != [] {
          QualifyingSpec(df, TrialCount);
          assert n in QualifyingUpTo(df, TrialCount);
          return Failure(MissingColumns(missing));
        }
        var subset := seq(|df.rows|, i requires 0 <= i < |df.rows| => TrialSubset(df.rows[i], n));
        ExtendTrialFrames(df, q, trialData, n, subset);
        trialData := trialData + [subset];
        q := q + [n];
      }
      n := n + 1;
    }
    r := Success(trialData);
  }

  /** The groupby loop: one summary row per (subject, wave) group of the
      trial rows, or the KeyError of the first statistics column the input
      lacks. */
  method SummarizeGroups(df: Table, trialDf: seq<LongRow>) returns (r: Result<seq<LongRow>>)
    requires CarriesInputKeys(df, trialDf)
    ensures r.Failure? <==> Groups(df.rows) != [] && Missing(StatColumns, df.columns) != []
    ensures r.Failure? ==> r.error == MissingColumns([Missing(StatColumns, df.columns)[0]])
    ensures r.Success? ==> SummariesMatch(df, r.value)
  {
    var keys := seq(|trialDf|, i requires 0 <= i < |trialDf| => GroupKey(trialDf[i]));
    var groups := GroupKeys(keys);
    GroupsOfTrialRows(df, trialDf, keys);
    var summaryRows: seq<LongRow> := [];
    var g := 0;
    while g < |groups|
      invariant 0 <= g <= |groups|
      invariant |summaryRows| == g
      invariant forall h :: 0 <= h < g ==> Summarizes(summaryRows[h], df.rows, groups[h])
      invariant g > 0 ==> Missing(StatColumns, df.columns) == []
    {
      var key := groups[g];
      GroupMember(df.rows, g);
      var first := trialDf[FirstIndexOf(keys, key)];
      var stats := NoStats;
      var found := SubjectMatch(df.rows, key[0]);
      SubjectAlwaysFound(df.rows, key);
      if found.Some? {
        var missing := Missing(StatColumns, df.columns);
        if missing != [] {
          return Failure(MissingColumns([missing[0]]));
        }
        stats := StatsOf(found.value);
      }
      var summary := SummaryRow(key, first, stats);
      SummaryStep(df, trialDf, keys, key);
      AppendSummary(df.rows, groups, summaryRows, summary);
      summaryRows := summaryRows + [summary];
      g := g + 1;
    }
    r := Success(summaryRows);
  }

  /** reformat_scr_data: the wide table `df` to the long archive table, or the
      error the conversion stops with. */
  method ReformatScrData(df: Table) returns (result: Result<Output>)
    ensures result == Reformat(df)
  {
    ghost var q := QualifyingUpTo(df, TrialCount);
    var collected := CollectTrials(df);
    if collected.Failure? {
      return Failure(collected.error);
    }
    var trialData := collected.value;
    if trialData == [] {
      return Failure(NothingToConcatenate);
    }

    // pd.concat, the Shift/NoShift coding and the placeholders.
    var trialDf := CodedRows(Flatten(trialData));
    TrialRowsCarryInputKeys(df, q, trialData);

    var summarized := SummarizeGroups(df, trialDf);
    if summarized.Failure? {
      return Failure(summarized.error);
    }
    var summaryRows := summarized.value;

    // Concatenate, reindex, fill the sentinel, sort and blank the sentinel.
    var out := OutputRows(trialDf + summaryRows);
    TrialRowsMatch(df, q, trialData);
    AssembledTable(df, q, trialDf, summaryRows);
    result := Success(SortAndBlank(out));
  }
}
