/** The visual-spatial working memory task converter (reformat_vswm_data):
    one wide row per participant and wave, with columns
    vswm_trial<n>_set_size/_accuracy for trials 1..24, becomes one long row
    per trial plus one summary row per (subject, wave), in the archive's
    29-column order. */
module Vswm {
  import opened Frames
  import opened Sorting
  import opened Digits
  import opened SentinelSort
  import opened Grouping

  /** The scan range: trial indices 1..24; also the divisor of the
      percentage score. */
  const TrialCount: nat := 24

  function SetSizeColumn(n: nat): string { "vswm_trial" + Decimal(n) + "_set_size" }
  function AccuracyColumn(n: nat): string { "vswm_trial" + Decimal(n) + "_accuracy" }

  const StimulusColumn: string := "vswm_stimulus_set"
  const TotalScoreColumn: string := "vswm_total_score"

  /** Trial `n` is converted only when both of its columns exist. */
  predicate Qualifies(df: Table, n: nat)
  {
    SetSizeColumn(n) in df.columns && AccuracyColumn(n) in df.columns
  }

  /** The qualifying trial indices among 1..k, ascending. */
  function QualifyingUpTo(df: Table, k: nat): seq<nat>
  {
    if k == 0 then [] else QualifyingUpTo(df, k - 1) + (if Qualifies(df, k) then [k] else [])
  }

  /** Exactly the qualifying indices among 1..k, strictly ascending. */
  lemma {:induction false} QualifyingSpec(df: Table, k: nat)
    ensures var q := QualifyingUpTo(df, k);
      (forall n :: n in q <==> 1 <= n <= k && Qualifies(df, n)) &&
      (forall i, j :: 0 <= i < j < |q| ==> q[i] < q[j]) &&
      (forall i :: 0 <= i < |q| ==> 1 <= q[i] <= k)
  {
    QualifyingMembers(df, k);
    QualifyingBounds(df, k);
    QualifyingAscending(df, k);
  }

  lemma {:induction false} QualifyingMembers(df: Table, k: nat)
    ensures forall n :: n in QualifyingUpTo(df, k) <==> 1 <= n <= k && Qualifies(df, n)
  {
    if k > 0 {
      QualifyingMembers(df, k - 1);
    }
  }

  lemma {:induction false} QualifyingBounds(df: Table, k: nat)
    ensures forall i :: 0 <= i < |QualifyingUpTo(df, k)| ==> 1 <= QualifyingUpTo(df, k)[i] <= k
  {
    if k > 0 {
      QualifyingBounds(df, k - 1);
      var p := QualifyingUpTo(df, k - 1);
      var q := QualifyingUpTo(df, k);
      forall i | 0 <= i < |q| ensures 1 <= q[i] <= k {
        if i < |p| {
          assert q[i] == p[i];
        }
      }
    }
  }

  lemma {:induction false} QualifyingAscending(df: Table, k: nat)
    ensures forall i, j :: 0 <= i < j < |QualifyingUpTo(df, k)| ==>
              QualifyingUpTo(df, k)[i] < QualifyingUpTo(df, k)[j]
  {
    if k > 0 {
      QualifyingAscending(df, k - 1);
      QualifyingBounds(df, k - 1);
      var p := QualifyingUpTo(df, k - 1);
      var q := QualifyingUpTo(df, k);
      forall i, j | 0 <= i < j < |q| ensures q[i] < q[j] {
        assert q[i] == p[i];
        if j < |p| {
          assert q[j] == p[j];
        }
      }
    }
  }

  /** The per-participant input columns every trial row copies, in the
      projection's order. */
  const FixedColumns: seq<string> := [
    "subject_id", "interview_date", "interview_age", "sex", "group",
    "wave", "filename", "comments_misc", StimulusColumn,
    "vswm_set3_score", "vswm_set4_score", "vswm_set5_score", "vswm_set6_score",
    TotalScoreColumn]

  /** The archive's column order. */
  const OutputColumns: seq<string> := [
    "subjectkey", "src_subject_id", "interview_date", "interview_age", "gender",
    "session", "visit", "task", "stimcorss3", "stimcorss4", "stimcorss5",
    "stimcorss6", "isidur", "total_rs", "dtttest_percor", "accuracy_ss3",
    "accuracy_ss4", "accuracy_ss5", "accuracy_ss6", "rt_ss3", "rt_ss4",
    "rt_ss5", "rt_ss6", "timepoint_wave", "comments_misc", "trial",
    "vswm_stimulus_set", "vswm_trial_set_size", "vswm_trial_accuracy"]

  /** Positions in OutputColumns of src_subject_id, timepoint_wave and trial:
      the sort columns. */
  const SortColumns: seq<nat> := [1, 23, 25]
  const GroupColumns: seq<nat> := [1, 23]
  const TrialPosition: nat := 25

  /** One value per set size 3..6: the input's vswm_set<k>_score columns,
      and the output's accuracy_ss<k> columns. */
  datatype Scores = Scores(ss3: Value, ss4: Value, ss5: Value, ss6: Value)

  const NoScores: Scores := Scores(Null, Null, Null, Null)

  function SetScoresOf(row: Row): Scores
  {
    Scores(Cell(row, "vswm_set3_score"), Cell(row, "vswm_set4_score"),
           Cell(row, "vswm_set5_score"), Cell(row, "vswm_set6_score"))
  }

  /** A row of trial_df or summary_df, under its renamed column names; a
      column a row does not carry is Null, as pandas fills it on concat.
      stimcorss3..6, isidur and rt_ss3..6 are null on every row and are not
      carried. */
  datatype LongRow = LongRow(
    srcSubjectId: Value, interviewDate: Value, interviewAge: Value, gender: Value,
    group: Value, timepointWave: Value, filename: Value, commentsMisc: Value,
    stimulusSet: Value, trialSetSize: Value, trialAccuracy: Value,
    setScores: Scores, totalScore: Value, trial: Value,
    session: Value, visit: Value, task: Value, totalRs: Value, dtttestPercor: Value,
    accuracy: Scores)

  /** replace({'Group A': 1, 'Group B': 2, 'Group C': 3, 'Group D': 4}) on
      one stimulus-set cell. */
  function StimulusCode(v: Value): Value
  {
    if v == S("Group A") then I(1)
    else if v == S("Group B") then I(2)
    else if v == S("Group C") then I(3)
    else if v == S("Group D") then I(4)
    else v
  }

  /** The four labels are coded 1..4 and nothing else is touched; the
      replacement applied twice is the replacement applied once. */
  lemma StimulusCodeSpec(v: Value)
    ensures v == S("Group A") <==> StimulusCode(v) == I(1) && v != I(1)
    ensures v == S("Group B") <==> StimulusCode(v) == I(2) && v != I(2)
    ensures v == S("Group C") <==> StimulusCode(v) == I(3) && v != I(3)
    ensures v == S("Group D") <==> StimulusCode(v) == I(4) && v != I(4)
    ensures v !in {S("Group A"), S("Group B"), S("Group C"), S("Group D")} ==> StimulusCode(v) == v
    ensures StimulusCode(StimulusCode(v)) == StimulusCode(v)
  {
  }

  /** The stimulus-set replacement on one input row: only that column
      changes. */
  function RemappedRow(row: Row): (r: Row)
    ensures Cell(r, StimulusColumn) == StimulusCode(Cell(row, StimulusColumn))
    ensures forall c :: c != StimulusColumn ==> Cell(r, c) == Cell(row, c)
    ensures InputKey(r) == InputKey(row)
  {
    row[StimulusColumn := StimulusCode(Cell(row, StimulusColumn))]
  }

  /** df['vswm_stimulus_set'] = df['vswm_stimulus_set'].replace(...): the
      same columns, every row remapped, and so the same group keys. */
  function RemapStimulus(df: Table): (r: Table)
    ensures r.columns == df.columns && |r.rows| == |df.rows|
    ensures forall i :: 0 <= i < |df.rows| ==> r.rows[i] == RemappedRow(df.rows[i])
    ensures InputKeys(r.rows) == InputKeys(df.rows)
  {
    var rows := seq(|df.rows|, i requires 0 <= i < |df.rows| => RemappedRow(df.rows[i]));
    assert forall i :: 0 <= i < |rows| ==> InputKeys(rows)[i] == InputKeys(df.rows)[i];
    Table(df.columns, rows)
  }

  /** str.extract(r'(\d+)') followed by astype(int) on one set-size cell:
      the number of the first digit run of a label, or Null where there is
      no number to convert (a label without digits, or a cell that is not a
      string). */
  function SetSizeCell(v: Value): Value
  {
    match v
    case S(s) => (match FirstDigitRun(s) case Some(x) => I(x) case None => Null)
    case _ => Null
  }

  /** A set-size cell converts exactly when it is a label holding a digit,
      and then to a whole number; a label such as "Set Size 4" converts to
      the number written in it. */
  lemma SetSizeSpec(v: Value)
    ensures SetSizeCell(v) != Null <==> v.S? && !NoDigits(v.s)
    ensures SetSizeCell(v) == Null || (SetSizeCell(v).I? && SetSizeCell(v).i >= 0)
  {
  }

  lemma SetSizeOfLabel(prefix: string, n: nat, suffix: string)
    requires NoDigits(prefix)
    requires suffix == [] || !IsDigit(suffix[0])
    ensures SetSizeCell(S(prefix + Decimal(n) + suffix)) == I(n)
  {
    ExtractsDecimal(prefix, n, suffix);
  }

  /** Every row's set-size cell of trial `n` converts. */
  predicate Parses(df: Table, n: nat)
  {
    forall i :: 0 <= i < |df.rows| ==> SetSizeCell(Cell(df.rows[i], SetSizeColumn(n))) != Null
  }

  /** Every trial of `q` converts. */
  predicate AllParse(df: Table, q: seq<nat>)
  {
    forall j :: 0 <= j < |q| ==> Parses(df, q[j])
  }

  /** The projection of one input row for trial `n`, tagged with the trial
      number and renamed. */
  function TrialSubset(row: Row, n: nat): LongRow
  {
    LongRow(Cell(row, "subject_id"), Cell(row, "interview_date"), Cell(row, "interview_age"),
            Cell(row, "sex"), Cell(row, "group"), Cell(row, "wave"), Cell(row, "filename"),
            Cell(row, "comments_misc"), Cell(row, StimulusColumn),
            Cell(row, SetSizeColumn(n)), Cell(row, AccuracyColumn(n)),
            SetScoresOf(row), Cell(row, TotalScoreColumn), I(n),
            Null, Null, Null, Null, Null, NoScores)
  }

  /** The set-size extraction applied to one projected row. */
  function WithSetSize(r: LongRow): LongRow
  {
    r.(trialSetSize := SetSizeCell(r.trialSetSize))
  }

  /** The placeholders assigned to every trial row: task "vswm", and
      session, visit and the summary scores null. */
  function Placeholders(r: LongRow): LongRow
  {
    r.(session := Null, visit := Null, task := S("vswm"), totalRs := Null,
       dtttestPercor := Null, accuracy := NoScores)
  }

  /** (total_rs / 24) * 100 of a number; a missing score stays missing. A
      string score raises instead (see NumericScores). */
  function Percent(v: Value): Value
    requires !v.S?
  {
    match v
    case I(x) => R(x as real / 24.0 * 100.0)
    case R(x) => R(x / 24.0 * 100.0)
    case Null => Null
  }

  /** The percentage is the share of the 24 trials, times a hundred: a
      score of 24 is 100 per cent, and scores 0..24 give 0..100. */
  lemma PercentSpec(v: Value)
    requires !v.S?
    ensures Percent(v) == Null <==> v == Null
    ensures v.I? ==> Percent(v).R? && Percent(v).r * 24.0 == v.i as real * 100.0
    ensures v.R? ==> Percent(v).R? && Percent(v).r * 24.0 == v.r * 100.0
    ensures v.I? && 0 <= v.i <= TrialCount ==> 0.0 <= Percent(v).r <= 100.0
  {
  }

  /** The group key of a trial_df row: (src_subject_id, timepoint_wave). */
  function GroupKey(r: LongRow): seq<Value>
  {
    [r.srcSubjectId, r.timepointWave]
  }

  /** reindex(columns=OutputColumns) of one row. */
  function OutputRow(r: LongRow): (o: seq<Value>)
    ensures |o| == |OutputColumns|
  {
    [Null, r.srcSubjectId, r.interviewDate, r.interviewAge, r.gender,
     r.session, r.visit, r.task, Null, Null, Null,
     Null, Null, r.totalRs, r.dtttestPercor, r.accuracy.ss3,
     r.accuracy.ss4, r.accuracy.ss5, r.accuracy.ss6, Null, Null,
     Null, Null, r.timepointWave, r.commentsMisc, r.trial,
     r.stimulusSet, r.trialSetSize, r.trialAccuracy]
  }

  /** fillna(9999) on the trial column of one row. */
  function FillTrial(r: LongRow): (f: LongRow)
    ensures f.trial != Null
    ensures r.trial != Null ==> f == r
    ensures r.trial == Null ==> f == r.(trial := I(Sentinel))
  {
    if r.trial == Null then r.(trial := I(Sentinel)) else r
  }

  // ---------------------------------------------------------------------
  // What the conversion produces, stated directly on the input.
  // ---------------------------------------------------------------------

  /** The row trial `n` of input row `row` contributes, before sorting:
      the participant's columns, the trial number, the trial's two cells
      with the set size extracted, task "vswm" and no summary scores. */
  function TrialRecord(row: Row, n: nat): LongRow
  {
    LongRow(Cell(row, "subject_id"), Cell(row, "interview_date"), Cell(row, "interview_age"),
            Cell(row, "sex"), Cell(row, "group"), Cell(row, "wave"), Cell(row, "filename"),
            Cell(row, "comments_misc"), Cell(row, StimulusColumn),
            SetSizeCell(Cell(row, SetSizeColumn(n))), Cell(row, AccuracyColumn(n)),
            SetScoresOf(row), Cell(row, TotalScoreColumn), I(n),
            Null, Null, S("vswm"), Null, Null, NoScores)
  }

  /** The first input row of group `key`: the row group.iloc[0] reads. */
  function FirstRow(rows: seq<Row>, key: seq<Value>): Row
    requires key in InputKeys(rows)
  {
    rows[FirstIndexOf(InputKeys(rows), key)]
  }

  /** The total score of group `key`'s first input row. */
  function FirstTotal(rows: seq<Row>, key: seq<Value>): Value
    requires key in InputKeys(rows)
  {
    Cell(FirstRow(rows, key), TotalScoreColumn)
  }

  /** No group's first row holds a string total score, so every percentage
      can be computed. */
  predicate NumericScores(rows: seq<Row>)
  {
    forall k :: k in InputKeys(rows) && NonNullKey(k) ==> !FirstTotal(rows, k).S?
  }

  /** The row summarising group `key`, before sorting: date, age, sex,
      stimulus set and scores of the group's first input row, the derived
      percentage, task "vswm", and the sentinel as its trial number. */
  function SummaryRecord(rows: seq<Row>, key: seq<Value>): LongRow
    requires key in InputKeys(rows) && |key| == 2 && !FirstTotal(rows, key).S?
  {
    var first := FirstRow(rows, key);
    var total := Cell(first, TotalScoreColumn);
    LongRow(key[0], Cell(first, "interview_date"), Cell(first, "interview_age"), Cell(first, "sex"),
            Null, key[1], Null, Null, Cell(first, StimulusColumn), Null, Null, NoScores, Null,
            I(Sentinel), Null, Null, S("vswm"), total, Percent(total), SetScoresOf(first))
  }

  function TrialRecords(rows: seq<Row>, n: nat): (rs: seq<LongRow>)
    ensures |rs| == |rows| && forall i :: 0 <= i < |rows| ==> rs[i] == TrialRecord(rows[i], n)
  {
    seq(|rows|, i requires 0 <= i < |rows| => TrialRecord(rows[i], n))
  }

  /** One frame of trial records per qualifying trial, in trial order. */
  function TrialFrames(rows: seq<Row>, q: seq<nat>): (fs: seq<seq<LongRow>>)
    ensures |fs| == |q| && forall j :: 0 <= j < |q| ==> fs[j] == TrialRecords(rows, q[j])
  {
    seq(|q|, j requires 0 <= j < |q| => TrialRecords(rows, q[j]))
  }

  function SummaryRecords(rows: seq<Row>, gs: seq<seq<Value>>): (rs: seq<LongRow>)
    requires forall k :: k in gs ==> k in InputKeys(rows) && |k| == 2 && !FirstTotal(rows, k).S?
    ensures |rs| == |gs| && forall g :: 0 <= g < |gs| ==> rs[g] == SummaryRecord(rows, gs[g])
  {
    seq(|gs|, g requires 0 <= g < |gs| => SummaryRecord(rows, gs[g]))
  }

  /** All rows before sorting: trial rows trial-major (all input rows for the
      first qualifying trial, then the next), then one summary row per group. */
  function ExpectedRecords(df: Table, q: seq<nat>): seq<LongRow>
    requires NumericScores(df.rows)
  {
    GroupsSpec(df.rows);
    Flatten(TrialFrames(df.rows, q)) + SummaryRecords(df.rows, Groups(df.rows))
  }

  /** Those rows in the output's column order. */
  function Expected(df: Table, q: seq<nat>): (rs: seq<seq<Value>>)
    requires NumericScores(df.rows)
    ensures |rs| == |ExpectedRecords(df, q)|
    ensures forall k :: 0 <= k < |rs| ==> rs[k] == OutputRow(ExpectedRecords(df, q)[k])
    ensures Width(rs, |OutputColumns|)
  {
    var recs := ExpectedRecords(df, q);
    seq(|recs|, k requires 0 <= k < |recs| => OutputRow(recs[k]))
  }

  /** The last three steps: the sentinel-filled rows sorted by
      (src_subject_id, timepoint_wave, trial), then the sentinel blanked. */
  function SortAndBlank(rows: seq<seq<Value>>): (o: Output)
    requires Width(rows, |OutputColumns|)
    ensures o.header == OutputColumns && |o.rows| == |rows| && Width(o.rows, |OutputColumns|)
  {
    Output(OutputColumns, SentinelSorted(rows, SortColumns, TrialPosition, |OutputColumns|))
  }

  /** The conversion goes through on the remapped table `d`: some trial
      qualifies, every column it reads exists, every set size converts and
      every percentage can be computed. */
  predicate ConvertsRemapped(d: Table)
  {
    var q := QualifyingUpTo(d, TrialCount);
    q != [] && Missing(FixedColumns, d.columns) == [] && AllParse(d, q) && NumericScores(d.rows)
  }

  /** The conversion goes through. */
  predicate Converts(df: Table)
  {
    StimulusColumn in df.columns && ConvertsRemapped(RemapStimulus(df))
  }

  /** What reformat_vswm_data writes, or the error it raises. */
  function Reformat(df: Table): Result<Output>
  {
    if StimulusColumn !in df.columns then Failure(MissingColumns([StimulusColumn]))
    else
      var d := RemapStimulus(df);
      var q := QualifyingUpTo(d, TrialCount);
      if q != [] && Missing(FixedColumns, d.columns) != [] then
        Failure(MissingColumns(Missing(FixedColumns, d.columns)))
      else if !AllParse(d, q) then Failure(UnparsableSetSize)
      else if q == [] then Failure(NothingToConcatenate)
      else if !NumericScores(d.rows) then Failure(NonNumericScore)
      else Success(SortAndBlank(Expected(d, q)))
  }

  // ---------------------------------------------------------------------
  // The conversion, step by step.
  // ---------------------------------------------------------------------

  /** The placeholders over all of trial_df. */
  function PlacedRows(rs: seq<LongRow>): (r: seq<LongRow>)
    ensures |r| == |rs| && forall i :: 0 <= i < |rs| ==> r[i] == Placeholders(rs[i])
  {
    seq(|rs|, i requires 0 <= i < |rs| => Placeholders(rs[i]))
  }

  /** reindex and fillna over the whole table. */
  function OutputRows(rs: seq<LongRow>): (o: seq<seq<Value>>)
    ensures |o| == |rs| && forall i :: 0 <= i < |rs| ==> o[i] == OutputRow(FillTrial(rs[i]))
  {
    seq(|rs|, i requires 0 <= i < |rs| => OutputRow(FillTrial(rs[i])))
  }

  /** The summary_df row the groupby loop builds from the group's first
      trial row, its total score and the percentage. */
  function SummaryRow(key: seq<Value>, first: LongRow, total: Value, percent: Value): LongRow
    requires |key| == 2
  {
    LongRow(key[0], first.interviewDate, first.interviewAge, first.gender, Null, key[1],
            Null, Null, first.stimulusSet, Null, Null, NoScores, Null, Null,
            Null, Null, S("vswm"), total, percent, first.setScores)
  }

  /** One trial row, projected, extracted, given its placeholders and
      sentinel-filled, is the reference trial record. */
  lemma TrialRowRecord(row: Row, n: nat)
    ensures FillTrial(Placeholders(WithSetSize(TrialSubset(row, n)))) == TrialRecord(row, n)
  {
  }

  /** Trial row `r` carries input row `row`'s group key and every cell the
      summary row reads. */
  predicate SameIdentity(r: LongRow, row: Row)
  {
    GroupKey(r) == InputKey(row) &&
    r.interviewDate == Cell(row, "interview_date") &&
    r.interviewAge == Cell(row, "interview_age") &&
    r.gender == Cell(row, "sex") &&
    r.stimulusSet == Cell(row, StimulusColumn) &&
    r.setScores == SetScoresOf(row) &&
    r.totalScore == Cell(row, TotalScoreColumn)
  }

  /** The frame of trial `n`: every input row projected for the trial, with
      its set size extracted. */
  function TrialFrame(rows: seq<Row>, n: nat): (f: seq<LongRow>)
    ensures |f| == |rows| && forall i :: 0 <= i < |rows| ==> f[i] == WithSetSize(TrialSubset(rows[i], n))
  {
    seq(|rows|, i requires 0 <= i < |rows| => WithSetSize(TrialSubset(rows[i], n)))
  }

  /** A frame holds no null set size exactly when every set size of its
      trial converts. */
  lemma FrameParses(df: Table, n: nat)
    ensures (exists i :: 0 <= i < |df.rows| && TrialFrame(df.rows, n)[i].trialSetSize == Null) <==> !Parses(df, n)
  {
    var f := TrialFrame(df.rows, n);
    forall i | 0 <= i < |df.rows|
      ensures f[i].trialSetSize == SetSizeCell(Cell(df.rows[i], SetSizeColumn(n)))
    {
      assert f[i] == WithSetSize(TrialSubset(df.rows[i], n));
    }
  }

  /** `trialData` holds one frame per trial of `q`, each the projection of
      every input row for that trial with its set size extracted. */
  predicate IsTrialFrames(df: Table, q: seq<nat>, trialData: seq<seq<LongRow>>)
  {
    |trialData| == |q| &&
    (forall j :: 0 <= j < |q| ==> |trialData[j]| == |df.rows|) &&
    forall j, i :: 0 <= j < |q| && 0 <= i < |df.rows| ==> trialData[j][i] == WithSetSize(TrialSubset(df.rows[i], q[j]))
  }

  /** Appending the frame of a trial whose set sizes convert extends the
      frames by that trial. */
  lemma ExtendTrialFrames(df: Table, q: seq<nat>, trialData: seq<seq<LongRow>>, n: nat)
    requires IsTrialFrames(df, q, trialData) && AllParse(df, q) && Parses(df, n)
    ensures IsTrialFrames(df, q + [n], trialData + [TrialFrame(df.rows, n)])
    ensures AllParse(df, q + [n])
  {
  }

  /** A qualifying trial whose set sizes do not all convert stops the
      scan. */
  lemma UnparsedTrial(df: Table, n: nat)
    requires 1 <= n <= TrialCount && Qualifies(df, n) && !Parses(df, n)
    ensures QualifyingUpTo(df, TrialCount) != [] && !AllParse(df, QualifyingUpTo(df, TrialCount))
  {
    QualifyingSpec(df, TrialCount);
    var q := QualifyingUpTo(df, TrialCount);
    assert n in q;
    var j :| 0 <= j < |q| && q[j] == n;
  }

  /** `trialDf` opens with a copy of every input row, in order, and carries
      only input keys. */
  predicate CarriesInputKeys(df: Table, trialDf: seq<LongRow>)
  {
    |df.rows| <= |trialDf| &&
    (forall i :: 0 <= i < |df.rows| ==> SameIdentity(trialDf[i], df.rows[i])) &&
    forall i :: 0 <= i < |trialDf| ==> GroupKey(trialDf[i]) in InputKeys(df.rows)
  }

  /** A projected trial row, given its placeholders, keeps the identity of
      its input row. */
  lemma PlacedSubsetIdentity(row: Row, n: nat)
    ensures SameIdentity(Placeholders(WithSetSize(TrialSubset(row, n))), row)
  {
  }

  /** The concatenated trial frames open with a copy of every input row, and
      every key they carry is an input key. */
  lemma TrialRowsCarryInputKeys(df: Table, q: seq<nat>, trialData: seq<seq<LongRow>>)
    requires q != [] && IsTrialFrames(df, q, trialData)
    ensures CarriesInputKeys(df, PlacedRows(Flatten(trialData)))
  {
    var concatenated := Flatten(trialData);
    var trialDf := PlacedRows(concatenated);
    var inputKeys := InputKeys(df.rows);
    var copies := seq(|trialData|, j => inputKeys);
    assert forall j :: 0 <= j < |copies| ==> copies[j] == inputKeys;
    FlattenPointwise(trialData, copies, GroupKey);
    FlattenCopiesValues(copies, inputKeys);
    assert concatenated == trialData[0] + Flatten(trialData[1..]);
    forall i | 0 <= i < |trialDf| ensures GroupKey(trialDf[i]) in inputKeys {
      assert GroupKey(trialDf[i]) == Flatten(copies)[i];
    }
    forall i | 0 <= i < |df.rows| ensures SameIdentity(trialDf[i], df.rows[i]) {
      assert concatenated[i] == trialData[0][i] == WithSetSize(TrialSubset(df.rows[i], q[0]));
      PlacedSubsetIdentity(df.rows[i], q[0]);
    }
  }

  /** Rows that open with a copy of every input row and carry only input
      keys fall into the input's groups, and open with the input's keys. */
  lemma GroupsOfTrialRows(df: Table, trialDf: seq<LongRow>, keys: seq<seq<Value>>)
    requires CarriesInputKeys(df, trialDf)
    requires |keys| == |trialDf| && forall i :: 0 <= i < |keys| ==> keys[i] == GroupKey(trialDf[i])
    ensures GroupKeys(keys) == Groups(df.rows)
    ensures keys[..|df.rows|] == InputKeys(df.rows)
  {
    TrialRowKeysPrefix(df, trialDf, keys);
    GroupsOfKeys(df.rows, keys);
  }

  /** The keys of rows that open with a copy of every input row open with
      the input's keys. */
  lemma TrialRowKeysPrefix(df: Table, trialDf: seq<LongRow>, keys: seq<seq<Value>>)
    requires CarriesInputKeys(df, trialDf)
    requires |keys| == |trialDf| && forall i :: 0 <= i < |keys| ==> keys[i] == GroupKey(trialDf[i])
    ensures keys[..|df.rows|] == InputKeys(df.rows)
  {
    var inputKeys := InputKeys(df.rows);
    forall i | 0 <= i < |df.rows| ensures keys[i] == inputKeys[i] {
      assert SameIdentity(trialDf[i], df.rows[i]);
    }
  }

  /** Sentinel-filled, `trialDf` is the reference trial records. */
  predicate TrialsMatch(df: Table, q: seq<nat>, trialDf: seq<LongRow>)
  {
    |Flatten(TrialFrames(df.rows, q))| == |trialDf| &&
    forall i :: 0 <= i < |trialDf| ==> Flatten(TrialFrames(df.rows, q))[i] == FillTrial(trialDf[i])
  }

  /** Given their placeholders and sentinel-filled, the trial rows are the
      reference trial records, frame by frame. */
  lemma TrialRowsMatch(df: Table, q: seq<nat>, trialData: seq<seq<LongRow>>)
    requires IsTrialFrames(df, q, trialData)
    ensures TrialsMatch(df, q, PlacedRows(Flatten(trialData)))
  {
    var fs := TrialFrames(df.rows, q);
    forall j, i | 0 <= j < |trialData| && 0 <= i < |trialData[j]|
      ensures fs[j][i] == FillTrial(Placeholders(trialData[j][i]))
    {
      TrialRowRecord(df.rows[i], q[j]);
    }
    FlattenPointwise(trialData, fs, r => FillTrial(Placeholders(r)));
  }

  /** Sentinel-filled, `r` is the reference summary record of group `key`. */
  predicate Summarizes(r: LongRow, rows: seq<Row>, key: seq<Value>)
  {
    key in InputKeys(rows) && |key| == 2 && !FirstTotal(rows, key).S? &&
    FillTrial(r) == SummaryRecord(rows, key)
  }

  /** `summaryRows` summarises the input's groups, one row each, in order. */
  predicate SummariesMatch(df: Table, summaryRows: seq<LongRow>)
  {
    |summaryRows| == |Groups(df.rows)| &&
    forall h :: 0 <= h < |summaryRows| ==> Summarizes(summaryRows[h], df.rows, Groups(df.rows)[h])
  }

  /** Trial rows followed by summary rows, each matching its reference
      record once sentinel-filled, are the reference records. */
  lemma AssembledRecords(df: Table, q: seq<nat>, trialDf: seq<LongRow>, summaryRows: seq<LongRow>)
    requires NumericScores(df.rows) && TrialsMatch(df, q, trialDf) && SummariesMatch(df, summaryRows)
    ensures |ExpectedRecords(df, q)| == |trialDf| + |summaryRows|
    ensures forall i :: 0 <= i < |trialDf| + |summaryRows| ==>
              FillTrial((trialDf + summaryRows)[i]) == ExpectedRecords(df, q)[i]
  {
    GroupsSpec(df.rows);
    var tf := Flatten(TrialFrames(df.rows, q));
    var sr := SummaryRecords(df.rows, Groups(df.rows));
    assert ExpectedRecords(df, q) == tf + sr;
    forall h | 0 <= h < |summaryRows| ensures FillTrial(summaryRows[h]) == sr[h] {
      assert Summarizes(summaryRows[h], df.rows, Groups(df.rows)[h]);
    }
    ConcatPointwise(trialDf, summaryRows, tf, sr, FillTrial);
  }

  /** Reindexed and sentinel-filled, trial rows followed by summary rows that
      match their reference records are the reference table. */
  lemma AssembledTable(df: Table, q: seq<nat>, trialDf: seq<LongRow>, summaryRows: seq<LongRow>)
    requires NumericScores(df.rows) && TrialsMatch(df, q, trialDf) && SummariesMatch(df, summaryRows)
    ensures OutputRows(trialDf + summaryRows) == Expected(df, q)
  {
    AssembledRecords(df, q, trialDf, summaryRows);
    var out := OutputRows(trialDf + summaryRows);
    var e := Expected(df, q);
    assert |out| == |e|;
    forall i | 0 <= i < |out| ensures out[i] == e[i] {
    }
  }

  /** The group's first trial row is a copy of the group's first input
      row. */
  lemma FirstTrialRow(df: Table, trialDf: seq<LongRow>, keys: seq<seq<Value>>, key: seq<Value>)
    requires CarriesInputKeys(df, trialDf)
    requires |keys| == |trialDf| && keys[..|df.rows|] == InputKeys(df.rows)
    requires key in InputKeys(df.rows)
    ensures FirstIndexOf(keys, key) == FirstIndexOf(InputKeys(df.rows), key) < |df.rows|
    ensures SameIdentity(trialDf[FirstIndexOf(keys, key)], FirstRow(df.rows, key))
    ensures trialDf[FirstIndexOf(keys, key)].totalScore == FirstTotal(df.rows, key)
  {
    FirstIndexOfPrefix(keys, InputKeys(df.rows), key);
    var i := FirstIndexOf(keys, key);
    assert SameIdentity(trialDf[i], df.rows[i]);
  }

  /** The summary row built from a group's first trial row is the group's
      reference summary. */
  lemma SummaryStep(df: Table, first: LongRow, key: seq<Value>)
    requires key in InputKeys(df.rows) && |key| == 2 && !FirstTotal(df.rows, key).S?
    requires SameIdentity(first, FirstRow(df.rows, key))
    ensures Summarizes(SummaryRow(key, first, first.totalScore, Percent(first.totalScore)), df.rows, key)
  {
  }

  lemma AppendSummary(rows: seq<Row>, groups: seq<seq<Value>>, summaryRows: seq<LongRow>, summary: LongRow)
    requires |summaryRows| < |groups|
    requires forall h :: 0 <= h < |summaryRows| ==> Summarizes(summaryRows[h], rows, groups[h])
    requires Summarizes(summary, rows, groups[|summaryRows|])
    ensures forall h :: 0 <= h <= |summaryRows| ==> Summarizes((summaryRows + [summary])[h], rows, groups[h])
  {
  }

  /** Once every group is summarised, no group's first row holds a string
      score. */
  lemma ScoresChecked(df: Table, summaryRows: seq<LongRow>)
    requires SummariesMatch(df, summaryRows)
    ensures NumericScores(df.rows)
  {
    GroupsSpec(df.rows);
    forall k | k in InputKeys(df.rows) && NonNullKey(k) ensures !FirstTotal(df.rows, k).S? {
      assert k in Groups(df.rows);
      var h :| 0 <= h < |Groups(df.rows)| && Groups(df.rows)[h] == k;
      assert Summarizes(summaryRows[h], df.rows, k);
    }
  }

  /** The scan over trials 1..24: one projected frame per qualifying trial
      with its set sizes extracted, or the KeyError of the first projection
      when a per-participant column is missing, or the conversion error of
      the first set size that does not convert. */
  method CollectTrials(df: Table) returns (r: Result<seq<seq<LongRow>>>)
    ensures var q := QualifyingUpTo(df, TrialCount);
      r.Failure? <==> q != [] && (Missing(FixedColumns, df.columns) != [] || !AllParse(df, q))
    ensures r.Failure? ==> r.error == if Missing(FixedColumns, df.columns) != []
                                      then MissingColumns(Missing(FixedColumns, df.columns))
                                      else UnparsableSetSize
    ensures r.Success? ==> IsTrialFrames(df, QualifyingUpTo(df, TrialCount), r.value)
  {
    var trialData: seq<seq<LongRow>> := [];
    ghost var q: seq<nat> := [];
    var n: nat := 1;
    while n <= TrialCount
      invariant 1 <= n <= TrialCount + 1
      invariant q == QualifyingUpTo(df, n - 1)
      invariant IsTrialFrames(df, q, trialData)
      invariant AllParse(df, q)
      invariant trialData != [] ==> Missing(FixedColumns, df.columns) == []
    {
      if Qualifies(df, n) {
        var missing := Missing(FixedColumns, df.columns);
        if missing != [] {
          QualifyingSpec(df, TrialCount);
          assert n in QualifyingUpTo(df, TrialCount);
          return Failure(MissingColumns(missing));
        }
        var frame := TrialFrame(df.rows, n);
        FrameParses(df, n);
        if exists i | 0 <= i < |frame| :: frame[i].trialSetSize == Null {
          UnparsedTrial(df, n);
          return Failure(UnparsableSetSize);
        }
        ExtendTrialFrames(df, q, trialData, n);
        trialData := trialData + [frame];
        q := q + [n];
      }
      n := n + 1;
    }
    r := Success(trialData);
  }

  /** The groupby loop: one summary row per (subject, wave) group of the
      trial rows, or the TypeError of the first group whose total score is
      a string. */
  method SummarizeGroups(df: Table, trialDf: seq<LongRow>) returns (r: Result<seq<LongRow>>)
    requires CarriesInputKeys(df, trialDf)
    ensures r.Failure? <==> !NumericScores(df.rows)
    ensures r.Failure? ==> r.error == NonNumericScore
    ensures r.Success? ==> SummariesMatch(df, r.value)
  {
    var keys := seq(|trialDf|, i requires 0 <= i < |trialDf| => GroupKey(trialDf[i]));
    var groups := GroupKeys(keys);
    GroupsOfTrialRows(df, trialDf, keys);
    var summaryRows: seq<LongRow> := [];
    var g := 0;
    while g < |groups|
      invariant 0 <= g <= |groups|
      invariant |summaryRows| == g
      invariant forall h :: 0 <= h < g ==> Summarizes(summaryRows[h], df.rows, groups[h])
    {
      var key := groups[g];
      GroupMember(df.rows, g);
      var first := trialDf[FirstIndexOf(keys, key)];
      FirstTrialRow(df, trialDf, keys, key);
      var totalRs := first.totalScore;
      if totalRs.S? {
        GroupsSpec(df.rows);
        assert key in Groups(df.rows);
        return Failure(NonNumericScore);
      }
      var summary := SummaryRow(key, first, totalRs, Percent(totalRs));
      SummaryStep(df, first, key);
      AppendSummary(df.rows, groups, summaryRows, summary);
      summaryRows := summaryRows + [summary];
      g := g + 1;
    }
    ScoresChecked(df, summaryRows);
    r := Success(summaryRows);
  }

  /** reformat_vswm_data: the wide table `df` to the long archive table, or
      the error the conversion stops with. */
  method ReformatVswmData(df: Table) returns (result: Result<Output>)
    ensures result == Reformat(df)
  {
    if StimulusColumn !in df.columns {
      return Failure(MissingColumns([StimulusColumn]));
    }
    var d := RemapStimulus(df);
    ghost var q := QualifyingUpTo(d, TrialCount);
    var collected := CollectTrials(d);
    if collected.Failure? {
      return Failure(collected.error);
    }
    var trialData := collected.value;
    if trialData == [] {
      return Failure(NothingToConcatenate);
    }

    // pd.concat, the renames and the placeholders.
    var trialDf := PlacedRows(Flatten(trialData));
    TrialRowsCarryInputKeys(d, q, trialData);

    var summarized := SummarizeGroups(d, trialDf);
    if summarized.Failure? {
      return Failure(summarized.error);
    }
    var summaryRows := summarized.value;

    // Concatenate, reindex, fill the sentinel, sort and blank the sentinel.
    var out := OutputRows(trialDf + summaryRows);
    TrialRowsMatch(d, q, trialData);
    AssembledTable(d, q, trialDf, summaryRows);
    result := Success(SortAndBlank(out));
  }
}
