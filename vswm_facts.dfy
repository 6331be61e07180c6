/** What reformat_vswm_data writes, stated on its input: when it stops with
    which error, which rows the output holds, how many rows each
    (subject, wave) group gets, and the order of the rows within a group. */
module VswmFacts {
  import opened Frames
  import opened Ordering
  import opened Sorting
  import opened SentinelSort
  import opened Grouping
  import opened Vswm

  /** The stimulus remap keeps the columns, so the same trials qualify. */
  lemma {:induction false} RemapKeepsTrials(df: Table, k: nat)
    ensures QualifyingUpTo(RemapStimulus(df), k) == QualifyingUpTo(df, k)
  {
    if k > 0 {
      RemapKeepsTrials(df, k - 1);
    }
  }

  /** No trial column is the stimulus-set column. */
  lemma TrialColumnsNotStimulus(n: nat)
    ensures SetSizeColumn(n) != StimulusColumn && AccuracyColumn(n) != StimulusColumn
  {
    assert SetSizeColumn(n)[5] == 't' && AccuracyColumn(n)[5] == 't';
    assert StimulusColumn[5] == 's';
  }

  /** The stimulus remap leaves the set sizes alone. */
  lemma RemapKeepsSetSizes(df: Table, q: seq<nat>)
    ensures AllParse(RemapStimulus(df), q) <==> AllParse(df, q)
  {
    var d := RemapStimulus(df);
    forall j | 0 <= j < |q| ensures Parses(d, q[j]) <==> Parses(df, q[j]) {
      TrialColumnsNotStimulus(q[j]);
      assert forall i :: 0 <= i < |df.rows| ==>
        Cell(d.rows[i], SetSizeColumn(q[j])) == Cell(df.rows[i], SetSizeColumn(q[j]));
    }
  }

  /** The first row of a group after the remap is the remapped first row of
      the group. */
  lemma FirstRowRemapped(df: Table, k: seq<Value>)
    requires k in InputKeys(df.rows)
    ensures FirstRow(RemapStimulus(df).rows, k) == RemappedRow(FirstRow(df.rows, k))
    ensures FirstTotal(RemapStimulus(df).rows, k) == FirstTotal(df.rows, k)
  {
  }

  /** The stimulus remap leaves the total scores alone. */
  lemma RemapKeepsScores(df: Table)
    ensures NumericScores(RemapStimulus(df).rows) <==> NumericScores(df.rows)
  {
    forall k | k in InputKeys(df.rows) {
      FirstRowRemapped(df, k);
    }
  }

  /** The conversion goes through exactly when the input has the
      stimulus-set column and every per-participant column, some trial
      qualifies, every set size of a qualifying trial converts and no
      group's first row holds a string total score. */
  lemma ConvertsSpec(df: Table)
    ensures Converts(df) <==>
      StimulusColumn in df.columns && QualifyingUpTo(df, TrialCount) != [] &&
      Missing(FixedColumns, df.columns) == [] &&
      AllParse(df, QualifyingUpTo(df, TrialCount)) && NumericScores(df.rows)
  {
    RemapKeepsTrials(df, TrialCount);
    RemapKeepsSetSizes(df, QualifyingUpTo(df, TrialCount));
    RemapKeepsScores(df);
  }

  /** A group's first input row opens the group: no earlier row has its
      key. */
  predicate OpensGroup(rows: seq<Row>, i: nat)
    requires i < |rows|
  {
    forall j :: 0 <= j < i ==> InputKey(rows[j]) != InputKey(rows[i])
  }

  /** The scores the groupby loop divides are those of the input rows that
      open a group: no such row holds a string total score. */
  lemma NumericScoresSpec(rows: seq<Row>)
    ensures NumericScores(rows) <==>
      forall i :: 0 <= i < |rows| && NonNullKey(InputKey(rows[i])) && OpensGroup(rows, i) ==>
        !Cell(rows[i], TotalScoreColumn).S?
  {
    var keys := InputKeys(rows);
    if NumericScores(rows) {
      forall i | 0 <= i < |rows| && NonNullKey(InputKey(rows[i])) && OpensGroup(rows, i)
        ensures !Cell(rows[i], TotalScoreColumn).S?
      {
        var k := InputKey(rows[i]);
        assert keys[i] == k;
        var f := FirstIndexOf(keys, k);
        assert f == i;
      }
    }
    if !NumericScores(rows) {
      var k :| k in keys && NonNullKey(k) && FirstTotal(rows, k).S?;
      var i := FirstIndexOf(keys, k);
      assert OpensGroup(rows, i);
    }
  }

  /** The rows a conversion that goes through writes. */
  function Written(df: Table): seq<seq<Value>>
    requires Converts(df)
  {
    var d := RemapStimulus(df);
    SortAndBlank(Expected(d, QualifyingUpTo(d, TrialCount))).rows
  }

  /** The conversion succeeds exactly when it goes through, and then writes
      the archive header and those rows. */
  lemma ReformatWrites(df: Table)
    ensures Reformat(df).Success? <==> Converts(df)
    ensures Converts(df) ==> Reformat(df) == Success(Output(OutputColumns, Written(df)))
  {
  }

  /** The stimulus-set column is read before anything else: without it the
      conversion stops with its KeyError, and no other error names it
      alone. */
  lemma StimulusRequired(df: Table)
    ensures Reformat(df) == Failure(MissingColumns([StimulusColumn])) <==> StimulusColumn !in df.columns
  {
    if StimulusColumn in df.columns {
      assert StimulusColumn !in Missing(FixedColumns, df.columns);
    }
  }

  /** The conversion stops with the empty-concatenation error exactly when
      the stimulus-set column exists and no trial index 1..24 has both of
      its columns. */
  lemma NothingToConvert(df: Table)
    ensures Reformat(df) == Failure(NothingToConcatenate) <==>
            StimulusColumn in df.columns && forall n :: 1 <= n <= TrialCount ==> !Qualifies(df, n)
  {
    RemapKeepsTrials(df, TrialCount);
    QualifyingSpec(df, TrialCount);
    var q := QualifyingUpTo(df, TrialCount);
    if q != [] {
      assert q[0] in q;
    }
  }

  /** Some trial of `q` does not convert exactly when some row holds a
      set size of one of those trials that does not convert. */
  lemma UnparsedSpec(df: Table, q: seq<nat>)
    ensures !AllParse(df, q) <==>
      exists n, i :: n in q && 0 <= i < |df.rows| && SetSizeCell(Cell(df.rows[i], SetSizeColumn(n))) == Null
  {
    if !AllParse(df, q) {
      var j :| 0 <= j < |q| && !Parses(df, q[j]);
      var i :| 0 <= i < |df.rows| && SetSizeCell(Cell(df.rows[i], SetSizeColumn(q[j]))) == Null;
      assert q[j] in q;
    }
    if exists n, i :: n in q && 0 <= i < |df.rows| && SetSizeCell(Cell(df.rows[i], SetSizeColumn(n))) == Null {
      var n, i :| n in q && 0 <= i < |df.rows| && SetSizeCell(Cell(df.rows[i], SetSizeColumn(n))) == Null;
      var j :| 0 <= j < |q| && q[j] == n;
      assert !Parses(df, q[j]);
    }
  }

  /** The conversion stops on a set size exactly when the columns it
      projects exist and some trial does not convert. */
  lemma SetSizeFailure(df: Table)
    ensures Reformat(df) == Failure(UnparsableSetSize) <==>
      StimulusColumn in df.columns && Missing(FixedColumns, df.columns) == [] &&
      !AllParse(df, QualifyingUpTo(df, TrialCount))
  {
    if StimulusColumn in df.columns {
      RemapKeepsTrials(df, TrialCount);
      RemapKeepsSetSizes(df, QualifyingUpTo(df, TrialCount));
    }
  }

  /** The conversion stops on a set size exactly when the columns it
      projects exist and some row of a qualifying trial holds a set size
      that is not a string with a digit in it. */
  lemma UnconvertibleSetSize(df: Table)
    ensures Reformat(df) == Failure(UnparsableSetSize) <==>
      StimulusColumn in df.columns && Missing(FixedColumns, df.columns) == [] &&
      exists n, i :: 1 <= n <= TrialCount && Qualifies(df, n) && 0 <= i < |df.rows| &&
        SetSizeCell(Cell(df.rows[i], SetSizeColumn(n))) == Null
  {
    SetSizeFailure(df);
    var q := QualifyingUpTo(df, TrialCount);
    UnparsedSpec(df, q);
    QualifyingSpec(df, TrialCount);
  }

  /** Once the trials convert, the conversion stops on a score exactly when
      some group's first row holds a string total score. */
  lemma NonNumericTotal(df: Table)
    requires StimulusColumn in df.columns && QualifyingUpTo(df, TrialCount) != []
    requires Missing(FixedColumns, df.columns) == [] && AllParse(df, QualifyingUpTo(df, TrialCount))
    ensures Reformat(df) == Failure(NonNumericScore) <==>
            exists k :: k in InputKeys(df.rows) && NonNullKey(k) && FirstTotal(df.rows, k).S?
  {
    RemapKeepsTrials(df, TrialCount);
    RemapKeepsSetSizes(df, QualifyingUpTo(df, TrialCount));
    RemapKeepsScores(df);
  }

  /** The trials scanned are qualifying indices 1..24 whose set sizes
      convert. */
  lemma Scanned(d: Table)
    requires ConvertsRemapped(d)
    ensures forall j :: 0 <= j < |QualifyingUpTo(d, TrialCount)| ==>
              1 <= QualifyingUpTo(d, TrialCount)[j] <= TrialCount &&
              Qualifies(d, QualifyingUpTo(d, TrialCount)[j]) &&
              Parses(d, QualifyingUpTo(d, TrialCount)[j])
  {
    QualifyingSpec(d, TrialCount);
    var q := QualifyingUpTo(d, TrialCount);
    forall j | 0 <= j < |q| ensures 1 <= q[j] <= TrialCount && Qualifies(d, q[j]) {
      assert q[j] in q;
    }
  }

  /** The reference rows: the trial records, then one summary record per
      group. */
  lemma ExpectedLength(d: Table, q: seq<nat>)
    requires NumericScores(d.rows)
    ensures |ExpectedRecords(d, q)| == |Flatten(TrialFrames(d.rows, q))| + |Groups(d.rows)|
  {
  }

  lemma ExpectedTrialPart(d: Table, q: seq<nat>, x: nat)
    requires NumericScores(d.rows) && x < |Flatten(TrialFrames(d.rows, q))|
    ensures x < |ExpectedRecords(d, q)| && ExpectedRecords(d, q)[x] == Flatten(TrialFrames(d.rows, q))[x]
  {
  }

  lemma ExpectedSummaryPart(d: Table, q: seq<nat>, h: nat)
    requires NumericScores(d.rows) && h < |Groups(d.rows)|
    ensures Groups(d.rows)[h] in InputKeys(d.rows) && NonNullKey(Groups(d.rows)[h]) && |Groups(d.rows)[h]| == 2
    ensures !FirstTotal(d.rows, Groups(d.rows)[h]).S?
    ensures |Flatten(TrialFrames(d.rows, q))| + h < |ExpectedRecords(d, q)|
    ensures ExpectedRecords(d, q)[|Flatten(TrialFrames(d.rows, q))| + h] == SummaryRecord(d.rows, Groups(d.rows)[h])
  {
    GroupsSpec(d.rows);
    assert Groups(d.rows)[h] in Groups(d.rows);
  }

  /** A position before the summary records holds the trial record of an
      input row for a trial of `q`. */
  lemma TrialAt(d: Table, q: seq<nat>, k: nat) returns (j: nat, i: nat)
    requires NumericScores(d.rows) && k < |Flatten(TrialFrames(d.rows, q))|
    ensures j < |q| && i < |d.rows| && k < |ExpectedRecords(d, q)|
    ensures ExpectedRecords(d, q)[k] == TrialRecord(d.rows[i], q[j])
  {
    ExpectedTrialPart(d, q, k);
    var fs := TrialFrames(d.rows, q);
    FlattenIndex(fs, k);
    j, i :| 0 <= j < |fs| && 0 <= i < |fs[j]| && Flatten(fs)[k] == fs[j][i];
  }

  /** A position past the trial records holds the summary record of a
      group. */
  lemma SummaryAt(d: Table, q: seq<nat>, k: nat) returns (g: seq<Value>)
    requires NumericScores(d.rows)
    requires |Flatten(TrialFrames(d.rows, q))| <= k < |ExpectedRecords(d, q)|
    ensures g in InputKeys(d.rows) && NonNullKey(g) && |g| == 2
    ensures ExpectedRecords(d, q)[k] == SummaryRecord(d.rows, g)
  {
    ExpectedLength(d, q);
    var h := k - |Flatten(TrialFrames(d.rows, q))|;
    ExpectedSummaryPart(d, q, h);
    g := Groups(d.rows)[h];
  }

  /** Sentinel-filled, every trial cell is a trial index or the sentinel. */
  lemma ExpectedTrialCells(d: Table, q: seq<nat>)
    requires NumericScores(d.rows)
    requires forall j :: 0 <= j < |q| ==> 1 <= q[j] <= TrialCount
    ensures TrialCells(Expected(d, q), TrialPosition)
    ensures forall k :: 0 <= k < |Expected(d, q)| ==>
              Expected(d, q)[k][TrialPosition] == I(Sentinel) ||
              (Expected(d, q)[k][TrialPosition].I? && 1 <= Expected(d, q)[k][TrialPosition].i <= TrialCount)
  {
    var e: seq<seq<Value>> := Expected(d, q);
    forall k | 0 <= k < |e|
      ensures e[k][TrialPosition].I? && e[k][TrialPosition].i <= Sentinel
      ensures e[k][TrialPosition] == I(Sentinel) || 1 <= e[k][TrialPosition].i <= TrialCount
    {
      if k < |Flatten(TrialFrames(d.rows, q))| {
        var j, i := TrialAt(d, q, k);
      } else {
        var g := SummaryAt(d, q, k);
      }
    }
  }

  /** Where a row written comes from: a reference record, reindexed and
      its sentinel blanked. */
  lemma WrittenFrom(df: Table, o: seq<Value>) returns (k: nat)
    requires Converts(df) && o in Written(df)
    ensures var d := RemapStimulus(df);
      k < |ExpectedRecords(d, QualifyingUpTo(d, TrialCount))| &&
      o == BlankSentinel(OutputRow(ExpectedRecords(d, QualifyingUpTo(d, TrialCount))[k]), TrialPosition)
  {
    var d := RemapStimulus(df);
    var q := QualifyingUpTo(d, TrialCount);
    var e: seq<seq<Value>> := Expected(d, q);
    SortLayout();
    k := SentinelSortedFrom(e, SortColumns, TrialPosition, |OutputColumns|, o);
    assert e[k] == OutputRow(ExpectedRecords(d, q)[k]);
  }

  /** Where a reference record ends up: reindexed and its sentinel blanked,
      it is a row written. */
  lemma WrittenTo(df: Table, k: nat)
    requires Converts(df)
    requires k < |ExpectedRecords(RemapStimulus(df), QualifyingUpTo(RemapStimulus(df), TrialCount))|
    ensures var d := RemapStimulus(df);
      BlankSentinel(OutputRow(ExpectedRecords(d, QualifyingUpTo(d, TrialCount))[k]), TrialPosition) in Written(df)
  {
    var d := RemapStimulus(df);
    var q := QualifyingUpTo(d, TrialCount);
    var e: seq<seq<Value>> := Expected(d, q);
    SortLayout();
    SentinelSortedHas(e, SortColumns, TrialPosition, |OutputColumns|, k);
    assert e[k] == OutputRow(ExpectedRecords(d, q)[k]);
  }

  /** A trial row keeps its trial number through the blanking. */
  lemma TrialRowKept(row: Row, n: nat)
    requires n <= TrialCount
    ensures BlankSentinel(OutputRow(TrialRecord(row, n)), TrialPosition) == OutputRow(TrialRecord(row, n))
  {
    assert OutputRow(TrialRecord(row, n))[TrialPosition] == I(n);
  }

  /** A summary row's sentinel trial number is blanked. */
  lemma SummaryRowBlanked(rows: seq<Row>, g: seq<Value>)
    requires g in InputKeys(rows) && |g| == 2 && !FirstTotal(rows, g).S?
    ensures BlankSentinel(OutputRow(SummaryRecord(rows, g)), TrialPosition) ==
            OutputRow(SummaryRecord(rows, g))[TrialPosition := S("")]
  {
    assert OutputRow(SummaryRecord(rows, g))[TrialPosition] == I(Sentinel);
  }

  /** subjectkey, session, visit, stimcorss3..6, isidur and rt_ss3..6:
      the placeholders, null on every row. */
  predicate PlaceholdersNull(o: seq<Value>)
    requires |o| == |OutputColumns|
  {
    o[0] == Null && o[5] == Null && o[6] == Null && o[8] == Null && o[9] == Null &&
    o[10] == Null && o[11] == Null && o[12] == Null && o[19] == Null && o[20] == Null &&
    o[21] == Null && o[22] == Null
  }

  /** total_rs, dtttest_percor and accuracy_ss3..6 are null. */
  predicate NoSummaryScores(o: seq<Value>)
    requires |o| == |OutputColumns|
  {
    o[13] == Null && o[14] == Null && o[15] == Null && o[16] == Null && o[17] == Null && o[18] == Null
  }

  /** comments_misc, vswm_trial_set_size and vswm_trial_accuracy are null. */
  predicate NoTrialFields(o: seq<Value>)
    requires |o| == |OutputColumns|
  {
    o[24] == Null && o[27] == Null && o[28] == Null
  }

  /** Position of the "task" column. */
  const TaskPosition: nat := 7

  /** The set-size column. */
  const SetSizePosition: nat := 27

  /** Where reindex puts a record's fields: the placeholders are null,
      and the "task", trial, set-size, summary and trial-field columns hold
      the record's own. */
  lemma OutputRowCells(r: LongRow)
    ensures var o := OutputRow(r);
      (PlaceholdersNull(o) <==> r.session == Null && r.visit == Null) &&
      o[TaskPosition] == r.task && o[TrialPosition] == r.trial &&
      o[SetSizePosition] == r.trialSetSize &&
      (NoSummaryScores(o) <==> r.totalRs == Null && r.dtttestPercor == Null && r.accuracy == NoScores) &&
      (NoTrialFields(o) <==> r.commentsMisc == Null && r.trialSetSize == Null && r.trialAccuracy == Null)
  {
    OutputRowPlaceholders(r);
    OutputRowScores(r);
  }

  lemma OutputRowPlaceholders(r: LongRow)
    ensures PlaceholdersNull(OutputRow(r)) <==> r.session == Null && r.visit == Null
  {
    OutputRowFixed(r);
  }

  /** The placeholders no record field fills are null, and session and
      visit hold the record's own. */
  lemma OutputRowFixed(r: LongRow)
    ensures var o := OutputRow(r);
      o[0] == Null && o[8] == Null && o[9] == Null && o[10] == Null && o[11] == Null &&
      o[12] == Null && o[19] == Null && o[20] == Null && o[21] == Null && o[22] == Null &&
      o[5] == r.session && o[6] == r.visit
  {
  }

  lemma OutputRowScores(r: LongRow)
    ensures NoSummaryScores(OutputRow(r)) <==>
            r.totalRs == Null && r.dtttestPercor == Null && r.accuracy == NoScores
  {
  }

  /** A trial row as written: the placeholders null, task "vswm", a trial
      index 1..24, a whole-number set size and no summary scores. */
  predicate TrialRowShape(o: seq<Value>)
  {
    |o| == |OutputColumns| && PlaceholdersNull(o) && o[TaskPosition] == S("vswm") &&
    o[TrialPosition].I? && 1 <= o[TrialPosition].i <= TrialCount &&
    o[SetSizePosition].I? && o[SetSizePosition].i >= 0 && NoSummaryScores(o)
  }

  /** A summary row as written: the placeholders null, task "vswm", a blank
      trial and no trial fields. */
  predicate SummaryRowShape(o: seq<Value>)
  {
    |o| == |OutputColumns| && PlaceholdersNull(o) && o[TaskPosition] == S("vswm") &&
    o[TrialPosition] == S("") && NoTrialFields(o)
  }

  /** The trial record of a trial whose set size converts has that shape,
      once its sentinel is blanked. */
  lemma TrialRowShaped(row: Row, n: nat)
    requires 1 <= n <= TrialCount && SetSizeCell(Cell(row, SetSizeColumn(n))) != Null
    ensures TrialRowShape(BlankSentinel(OutputRow(TrialRecord(row, n)), TrialPosition))
  {
    TrialRowKept(row, n);
    OutputRowCells(TrialRecord(row, n));
    SetSizeSpec(Cell(row, SetSizeColumn(n)));
  }

  /** A summary record has that shape, once its sentinel is blanked. */
  lemma SummaryRowShaped(rows: seq<Row>, g: seq<Value>)
    requires g in InputKeys(rows) && |g| == 2 && !FirstTotal(rows, g).S?
    ensures SummaryRowShape(BlankSentinel(OutputRow(SummaryRecord(rows, g)), TrialPosition))
  {
    SummaryRowBlanked(rows, g);
    OutputRowCells(SummaryRecord(rows, g));
  }

  /** Every row written is a trial row of a qualifying trial or a summary
      row: it has the 29 archive columns, the placeholders null and task
      "vswm"; a trial row has a trial index 1..24 of a qualifying trial, a
      whole-number set size and no summary scores; a summary row has a
      blank trial and no trial fields. */
  lemma WrittenRowShape(df: Table, o: seq<Value>)
    requires Converts(df) && o in Written(df)
    ensures (TrialRowShape(o) && Qualifies(df, o[TrialPosition].i)) || SummaryRowShape(o)
  {
    var d := RemapStimulus(df);
    Scanned(d);
    var k := WrittenFrom(df, o);
    ShapeAt(d, QualifyingUpTo(d, TrialCount), k);
  }

  /** Every reference record, reindexed and its sentinel blanked, is a
      trial row of a trial of `q` or a summary row. */
  lemma ShapeAt(d: Table, q: seq<nat>, k: nat)
    requires NumericScores(d.rows) && AllParse(d, q) && k < |ExpectedRecords(d, q)|
    requires forall j :: 0 <= j < |q| ==> 1 <= q[j] <= TrialCount && Qualifies(d, q[j])
    ensures var o := BlankSentinel(OutputRow(ExpectedRecords(d, q)[k]), TrialPosition);
      (TrialRowShape(o) && Qualifies(d, o[TrialPosition].i)) || SummaryRowShape(o)
  {
    ExpectedLength(d, q);
    if k < |Flatten(TrialFrames(d.rows, q))| {
      var j, i := TrialAt(d, q, k);
      assert Parses(d, q[j]);
      TrialRowShaped(d.rows[i], q[j]);
      TrialRowKept(d.rows[i], q[j]);
    } else {
      var g := SummaryAt(d, q, k);
      SummaryRowShaped(d.rows, g);
    }
  }

  /** The trial record of a remapped row is the trial record of the input
      row with its stimulus set coded. */
  lemma TrialRecordRemapped(row: Row, n: nat)
    ensures TrialRecord(RemappedRow(row), n) ==
            TrialRecord(row, n).(stimulusSet := StimulusCode(Cell(row, StimulusColumn)))
  {
    TrialColumnsNotStimulus(n);
  }

  /** The trial record of every input row for every trial of `q` is among
      the reference records. */
  lemma TrialPositionOf(d: Table, q: seq<nat>, i: nat, n: nat) returns (k: nat)
    requires NumericScores(d.rows) && i < |d.rows| && n in q
    ensures k < |ExpectedRecords(d, q)| && ExpectedRecords(d, q)[k] == TrialRecord(d.rows[i], n)
  {
    var j :| 0 <= j < |q| && q[j] == n;
    var fs := TrialFrames(d.rows, q);
    var x := TrialRecord(d.rows[i], n);
    assert x == fs[j][i];
    FlattenMembers(fs, x);
    k :| 0 <= k < |Flatten(fs)| && Flatten(fs)[k] == x;
    ExpectedTrialPart(d, q, k);
  }

  /** The row trial `n` of input row `i` is written as: the input's cells
      with the stimulus set coded, the trial number, the trial's two cells
      with the set size extracted, task "vswm" and no summary scores. */
  function TrialRowOf(df: Table, i: nat, n: nat): seq<Value>
    requires i < |df.rows|
  {
    OutputRow(TrialRecord(df.rows[i], n).(stimulusSet := StimulusCode(Cell(df.rows[i], StimulusColumn))))
  }

  /** Every qualifying trial contributes a row for every input row. */
  lemma TrialRowWritten(df: Table, i: nat, n: nat)
    requires Converts(df)
    requires i < |df.rows| && 1 <= n <= TrialCount && Qualifies(df, n)
    ensures TrialRowOf(df, i, n) in Written(df)
  {
    var d := RemapStimulus(df);
    QualifyingSpec(d, TrialCount);
    var q := QualifyingUpTo(d, TrialCount);
    var k := TrialPositionOf(d, q, i, n);
    WrittenTo(df, k);
    TrialRowKept(d.rows[i], n);
    TrialRecordRemapped(df.rows[i], n);
  }

  /** The summary record of every group is among the reference records. */
  lemma SummaryPosition(d: Table, q: seq<nat>, g: seq<Value>) returns (k: nat)
    requires NumericScores(d.rows) && g in InputKeys(d.rows) && NonNullKey(g) && |g| == 2
    ensures k < |ExpectedRecords(d, q)| && ExpectedRecords(d, q)[k] == SummaryRecord(d.rows, g)
  {
    var h := GroupIndex(d.rows, g);
    ExpectedSummaryPart(d, q, h);
    k := |Flatten(TrialFrames(d.rows, q))| + h;
  }

  /** The summary row of group `g` is written as its summary record with a
      blank trial. */
  function SummaryRowOf(df: Table, g: seq<Value>): seq<Value>
    requires Converts(df) && g in InputKeys(df.rows) && NonNullKey(g) && |g| == 2
  {
    OutputRow(SummaryRecord(RemapStimulus(df).rows, g))[TrialPosition := S("")]
  }

  /** Every (subject, wave) group gets a summary row with a blank trial. */
  lemma SummaryRowWritten(df: Table, g: seq<Value>)
    requires Converts(df)
    requires g in InputKeys(df.rows) && NonNullKey(g) && |g| == 2
    ensures SummaryRowOf(df, g) in Written(df)
  {
    var d := RemapStimulus(df);
    var k := SummaryPosition(d, QualifyingUpTo(d, TrialCount), g);
    WrittenTo(df, k);
    SummaryRowBlanked(d.rows, g);
  }

  /** A group's summary row is read from the group's first input row: its
      date, age, sex, set scores and total score, the percentage of the
      total, and its stimulus set coded; task "vswm" and no trial fields. */
  lemma SummaryFromFirstRow(df: Table, g: seq<Value>)
    requires Converts(df)
    requires g in InputKeys(df.rows) && NonNullKey(g) && |g| == 2
    ensures var r := SummaryRecord(RemapStimulus(df).rows, g);
      var first := FirstRow(df.rows, g);
      GroupKey(r) == g && r.interviewDate == Cell(first, "interview_date") &&
      r.interviewAge == Cell(first, "interview_age") && r.gender == Cell(first, "sex") &&
      r.stimulusSet == StimulusCode(Cell(first, StimulusColumn)) &&
      r.totalRs == Cell(first, TotalScoreColumn) && !r.totalRs.S? &&
      r.dtttestPercor == Percent(r.totalRs) && r.accuracy == SetScoresOf(first) &&
      r.task == S("vswm") && r.session == Null && r.visit == Null && r.commentsMisc == Null &&
      r.trialSetSize == Null && r.trialAccuracy == Null
  {
    FirstRowRemapped(df, g);
  }

  /** Every row written is one of those: a trial row of an input row and a
      qualifying trial, or a group's summary row. */
  lemma WrittenRowOrigin(df: Table, o: seq<Value>)
    requires Converts(df) && o in Written(df)
    ensures (exists i, n :: 0 <= i < |df.rows| && 1 <= n <= TrialCount && Qualifies(df, n) &&
               o == TrialRowOf(df, i, n)) ||
            (exists g :: g in InputKeys(df.rows) && NonNullKey(g) && |g| == 2 && o == SummaryRowOf(df, g))
  {
    var d := RemapStimulus(df);
    Scanned(d);
    var q := QualifyingUpTo(d, TrialCount);
    var k := WrittenFrom(df, o);
    if k < |Flatten(TrialFrames(d.rows, q))| {
      var j, i := TrialAt(d, q, k);
      TrialRowKept(d.rows[i], q[j]);
      TrialRecordRemapped(df.rows[i], q[j]);
      assert o == TrialRowOf(df, i, q[j]);
    } else {
      var g := SummaryAt(d, q, k);
      SummaryRowBlanked(d.rows, g);
      assert o == SummaryRowOf(df, g);
    }
  }

  /** Reindexed, a record's group key is its (src_subject_id,
      timepoint_wave) and its sort key adds its trial. */
  lemma OutputRowKey(r: LongRow)
    ensures KeyOf(OutputRow(r), GroupColumns) == [r.srcSubjectId, r.timepointWave]
    ensures KeyOf(OutputRow(r), SortColumns) == [r.srcSubjectId, r.timepointWave, r.trial]
  {
  }

  /** The group key and sort key of a trial row. */
  lemma TrialRowKey(row: Row, n: nat)
    ensures KeyOf(OutputRow(TrialRecord(row, n)), GroupColumns) == InputKey(row)
    ensures KeyOf(OutputRow(TrialRecord(row, n)), SortColumns) == InputKey(row) + [I(n)]
  {
    OutputRowKey(TrialRecord(row, n));
  }

  /** The group key and sort key of a summary row, sentinel-filled. */
  lemma SummaryRowKey(rows: seq<Row>, g: seq<Value>)
    requires g in InputKeys(rows) && |g| == 2 && !FirstTotal(rows, g).S?
    ensures KeyOf(OutputRow(SummaryRecord(rows, g)), GroupColumns) == g
    ensures KeyOf(OutputRow(SummaryRecord(rows, g)), SortColumns) == g + [I(Sentinel)]
  {
    OutputRowKey(SummaryRecord(rows, g));
  }

  /** The trial rows of the reference table, frame by frame. */
  function TrialOutputs(d: Table, q: seq<nat>): (fs: seq<seq<seq<Value>>>)
    ensures |fs| == |q| && forall j :: 0 <= j < |q| ==> |fs[j]| == |d.rows|
    ensures forall j, i :: 0 <= j < |q| && 0 <= i < |d.rows| ==> fs[j][i] == OutputRow(TrialRecord(d.rows[i], q[j]))
  {
    seq(|q|, j requires 0 <= j < |q| =>
      seq(|d.rows|, i requires 0 <= i < |d.rows| => OutputRow(TrialRecord(d.rows[i], q[j]))))
  }

  /** The reference table opens with its trial rows. */
  lemma TrialOutputsFirst(d: Table, q: seq<nat>)
    requires NumericScores(d.rows)
    ensures var a := |Flatten(TrialFrames(d.rows, q))|;
      a <= |Expected(d, q)| && Expected(d, q)[..a] == Flatten(TrialOutputs(d, q))
  {
    var fs := TrialFrames(d.rows, q);
    var os := TrialOutputs(d, q);
    forall j, i | 0 <= j < |fs| && 0 <= i < |fs[j]| ensures os[j][i] == OutputRow(fs[j][i]) {
      assert fs[j][i] == TrialRecord(d.rows[i], q[j]);
    }
    FlattenPointwise(fs, os, OutputRow);
    ExpectedLength(d, q);
    var a := |Flatten(fs)|;
    var e: seq<seq<Value>> := Expected(d, q);
    forall x | 0 <= x < a ensures e[x] == Flatten(os)[x] {
      ExpectedTrialPart(d, q, x);
      assert e[x] == OutputRow(ExpectedRecords(d, q)[x]);
    }
  }

  /** The trial rows hold |q| rows for every input row of a group. */
  lemma TrialOutputsCount(d: Table, q: seq<nat>, k: seq<Value>)
    ensures CountKey(Flatten(TrialOutputs(d, q)), GroupColumns, k) == |q| * Occurrences(InputKeys(d.rows), k)
  {
    var os := TrialOutputs(d, q);
    var keys := InputKeys(d.rows);
    var c := Occurrences(keys, k);
    forall j | 0 <= j < |os| ensures CountKey(os[j], GroupColumns, k) == c {
      forall i | 0 <= i < |os[j]| ensures KeyOf(os[j][i], GroupColumns) == keys[i] {
        TrialRowKey(d.rows[i], q[j]);
      }
      CountKeyByKeys(os[j], GroupColumns, keys, k);
    }
    CountKeyFlattenUniform(os, GroupColumns, k, c);
  }

  /** No trial row carries the sentinel. */
  lemma TrialOutputsNoSentinel(d: Table, q: seq<nat>, k: seq<Value>)
    requires forall j :: 0 <= j < |q| ==> q[j] <= TrialCount
    ensures CountKey(Flatten(TrialOutputs(d, q)), SortColumns, k + [I(Sentinel)]) == 0
  {
    var os := TrialOutputs(d, q);
    forall j | 0 <= j < |os| ensures CountKey(os[j], SortColumns, k + [I(Sentinel)]) == 0 {
      forall i | 0 <= i < |os[j]| ensures KeyOf(os[j][i], SortColumns) != k + [I(Sentinel)] {
        TrialRowKey(d.rows[i], q[j]);
        assert KeyOf(os[j][i], SortColumns)[2] == I(q[j]);
      }
      CountKeyNone(os[j], SortColumns, k + [I(Sentinel)]);
    }
    CountKeyFlattenUniform(os, SortColumns, k + [I(Sentinel)], 0);
  }

  /** The summary row of the h-th group carries the group's key. */
  lemma SummaryOutputKey(d: Table, q: seq<nat>, h: nat)
    requires NumericScores(d.rows) && h < |Groups(d.rows)|
    ensures var a := |Flatten(TrialFrames(d.rows, q))|;
      a + h < |Expected(d, q)| &&
      KeyOf(Expected(d, q)[a + h], GroupColumns) == Groups(d.rows)[h] &&
      KeyOf(Expected(d, q)[a + h], SortColumns) == Groups(d.rows)[h] + [I(Sentinel)]
  {
    ExpectedSummaryPart(d, q, h);
    SummaryRowKey(d.rows, Groups(d.rows)[h]);
  }

  /** The reference table closes with one summary row per group, in group
      order, each with the sentinel as its trial. */
  lemma SummaryOutputsKeys(d: Table, q: seq<nat>)
    requires NumericScores(d.rows)
    ensures var a := |Flatten(TrialFrames(d.rows, q))|;
      KeysFrom(Expected(d, q), a, GroupColumns, Groups(d.rows)) &&
      KeysFrom(Expected(d, q), a, SortColumns, Extended(Groups(d.rows), I(Sentinel)))
  {
    ExpectedLength(d, q);
    forall h | 0 <= h < |Groups(d.rows)| {
      SummaryOutputKey(d, q, h);
    }
  }

  /** The summary rows hold one row for each group. */
  lemma SummaryOutputsGroupCount(d: Table, q: seq<nat>, k: seq<Value>)
    requires NumericScores(d.rows)
    ensures var a := |Flatten(TrialFrames(d.rows, q))|;
      a <= |Expected(d, q)| &&
      CountKey(Expected(d, q)[a..], GroupColumns, k) == (if k in InputKeys(d.rows) && NonNullKey(k) then 1 else 0)
  {
    SummaryOutputsKeys(d, q);
    CountKeyTail(Expected(d, q), |Flatten(TrialFrames(d.rows, q))|, GroupColumns, Groups(d.rows), k);
    GroupOccurrences(d.rows, k);
  }

  /** The summary rows carry the sentinel, one for each group. */
  lemma SummaryOutputsSentinelCount(d: Table, q: seq<nat>, k: seq<Value>)
    requires NumericScores(d.rows)
    ensures var a := |Flatten(TrialFrames(d.rows, q))|;
      a <= |Expected(d, q)| &&
      CountKey(Expected(d, q)[a..], SortColumns, k + [I(Sentinel)]) == (if k in InputKeys(d.rows) && NonNullKey(k) then 1 else 0)
  {
    SummaryOutputsKeys(d, q);
    var groups := Groups(d.rows);
    CountKeyTail(Expected(d, q), |Flatten(TrialFrames(d.rows, q))|, SortColumns, Extended(groups, I(Sentinel)), k + [I(Sentinel)]);
    OccurrencesExtended(groups, Extended(groups, I(Sentinel)), k, I(Sentinel));
    GroupOccurrences(d.rows, k);
  }

  /** The reference table holds |q| rows for every input row of group
      `k`, and a summary row when `k` is a group. */
  lemma ExpectedGroupCount(d: Table, q: seq<nat>, k: seq<Value>)
    requires NumericScores(d.rows)
    ensures CountKey(Expected(d, q), GroupColumns, k) ==
            |q| * Occurrences(InputKeys(d.rows), k) + (if k in InputKeys(d.rows) && NonNullKey(k) then 1 else 0)
  {
    TrialOutputsFirst(d, q);
    CountKeySplit(Expected(d, q), |Flatten(TrialFrames(d.rows, q))|, GroupColumns, k);
    TrialOutputsCount(d, q, k);
    SummaryOutputsGroupCount(d, q, k);
  }

  /** The reference table carries the sentinel once for every group. */
  lemma ExpectedSentinelCount(d: Table, q: seq<nat>, k: seq<Value>)
    requires NumericScores(d.rows)
    requires forall j :: 0 <= j < |q| ==> q[j] <= TrialCount
    ensures CountKey(Expected(d, q), SortColumns, k + [I(Sentinel)]) ==
            if k in InputKeys(d.rows) && NonNullKey(k) then 1 else 0
  {
    TrialOutputsFirst(d, q);
    CountKeySplit(Expected(d, q), |Flatten(TrialFrames(d.rows, q))|, SortColumns, k + [I(Sentinel)]);
    TrialOutputsNoSentinel(d, q, k);
    SummaryOutputsSentinelCount(d, q, k);
  }

  /** The sort columns lie within the archive's columns, the trial last,
      and the group columns leave the trial out. */
  lemma SortLayout()
    ensures SortKeys(SortColumns, TrialPosition, |OutputColumns|)
    ensures TrialPosition !in GroupColumns
  {
  }

  /** The number of rows written for the group `k`: one per input row with
      that key and qualifying trial, and one summary row when `k` is a
      group. With (subject, wave) unique in the input, a group has one row
      per qualifying trial plus its summary row. */
  lemma GroupRowCount(df: Table, k: seq<Value>)
    requires Converts(df) && |k| == 2
    ensures CountKey(Written(df), GroupColumns, k) ==
            |QualifyingUpTo(df, TrialCount)| * Occurrences(InputKeys(df.rows), k) +
            (if k in InputKeys(df.rows) && NonNullKey(k) then 1 else 0)
  {
    var d := RemapStimulus(df);
    RemapKeepsTrials(df, TrialCount);
    var q := QualifyingUpTo(d, TrialCount);
    SortLayout();
    SentinelSortedCount(Expected(d, q), SortColumns, TrialPosition, |OutputColumns|, GroupColumns, k);
    ExpectedGroupCount(d, q, k);
  }

  /** Sentinel-filled, every trial cell of the rows written is a trial
      index or the sentinel. */
  lemma WrittenTrialCells(df: Table)
    requires Converts(df)
    ensures var d := RemapStimulus(df);
      TrialCells(Expected(d, QualifyingUpTo(d, TrialCount)), TrialPosition)
  {
    var d := RemapStimulus(df);
    Scanned(d);
    ExpectedTrialCells(d, QualifyingUpTo(d, TrialCount));
  }

  /** Every group gets exactly one summary row, and nothing else gets one. */
  lemma OneSummaryPerGroup(df: Table, k: seq<Value>)
    requires Converts(df) && |k| == 2
    ensures CountKey(Written(df), SortColumns, k + [S("")]) ==
            if k in InputKeys(df.rows) && NonNullKey(k) then 1 else 0
  {
    var d := RemapStimulus(df);
    var q := QualifyingUpTo(d, TrialCount);
    WrittenTrialCells(df);
    QualifyingSpec(d, TrialCount);
    SortLayout();
    SentinelSortedBlankCount(Expected(d, q), SortColumns, TrialPosition, |OutputColumns|, k);
    ExpectedSentinelCount(d, q, k);
  }

  /** When all 24 trials are present, exactly the indices 1..24 qualify. */
  lemma {:induction false} AllTrialsQualify(df: Table, k: nat)
    requires k <= TrialCount && forall n :: 1 <= n <= TrialCount ==> Qualifies(df, n)
    ensures |QualifyingUpTo(df, k)| == k
  {
    if k > 0 {
      AllTrialsQualify(df, k - 1);
    }
  }

  /** With all 24 trials present and (subject, wave) unique in the input,
      every group has 24 trial rows and its summary row. */
  lemma CompleteGroupRows(df: Table, k: seq<Value>)
    requires Converts(df) && |k| == 2
    requires forall n :: 1 <= n <= TrialCount ==> Qualifies(df, n)
    requires NonNullKey(k) && Occurrences(InputKeys(df.rows), k) == 1
    ensures CountKey(Written(df), GroupColumns, k) == TrialCount + 1
  {
    GroupRowCount(df, k);
    AllTrialsQualify(df, TrialCount);
    OccurrencesPositive(InputKeys(df.rows), k);
  }

  /** Within a group of the rows written, trial numbers ascend and the
      summary row, with its blank trial, comes last. */
  lemma GroupOrder(df: Table, i: nat, j: nat)
    requires Converts(df) && i < j < |Written(df)|
    requires SameGroup(Written(df)[i], Written(df)[j], SortColumns)
    ensures Written(df)[i][TrialPosition] == S("") ==> Written(df)[j][TrialPosition] == S("")
    ensures Written(df)[i][TrialPosition].I? && Written(df)[j][TrialPosition].I? ==>
              Written(df)[i][TrialPosition].i <= Written(df)[j][TrialPosition].i
  {
    var d := RemapStimulus(df);
    var q := QualifyingUpTo(d, TrialCount);
    WrittenTrialCells(df);
    SortLayout();
    SentinelSortedGroupOrder(Expected(d, q), SortColumns, TrialPosition, |OutputColumns|, i, j);
  }

  /** Each group of the rows written is one contiguous block. */
  lemma GroupContiguous(df: Table, i: nat, m: nat, j: nat)
    requires Converts(df) && i < m < j < |Written(df)|
    requires SameGroup(Written(df)[i], Written(df)[j], SortColumns)
    ensures SameGroup(Written(df)[i], Written(df)[m], SortColumns)
  {
    var d := RemapStimulus(df);
    var q := QualifyingUpTo(d, TrialCount);
    SortLayout();
    SentinelSortedContiguous(Expected(d, q), SortColumns, TrialPosition, |OutputColumns|, i, m, j);
  }

  /** The groups of the rows written come in ascending (subject, wave)
      order. */
  lemma GroupsAscend(df: Table, i: nat, j: nat)
    requires Converts(df) && i < j < |Written(df)|
    ensures KeyLe(KeyOf(Written(df)[i], GroupColumns), KeyOf(Written(df)[j], GroupColumns))
  {
    var d := RemapStimulus(df);
    var q := QualifyingUpTo(d, TrialCount);
    SortLayout();
    assert SortColumns[..2] == GroupColumns;
    SentinelSortedGroupsAscend(Expected(d, q), SortColumns, TrialPosition, |OutputColumns|, i, j);
  }
}
