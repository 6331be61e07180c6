/** What reformat_scr_data writes, stated on its input: which rows the
    output holds, how many rows each (subject, wave) group gets, and the
    order of the rows within a group. */
module ShapeColorFacts {
  import opened Frames
  import opened Ordering
  import opened Sorting
  import opened SentinelSort
  import opened Grouping
  import opened ShapeColor

  /** The sort columns lie within the archive's columns, the trial last,
      and the group columns leave the trial out. */
  lemma SortLayout()
    ensures SortKeys(SortColumns, TrialPosition, |OutputColumns|)
    ensures TrialPosition !in GroupColumns
  {
  }

  /** The rows a conversion that goes through writes. */
  function Written(df: Table): seq<seq<Value>>
    requires Converts(df)
  {
    SortAndBlank(Expected(df, QualifyingUpTo(df, TrialCount))).rows
  }

  /** The conversion succeeds exactly when it goes through, and then writes
      the archive header and those rows. */
  lemma ReformatWrites(df: Table)
    ensures Reformat(df).Success? <==> Converts(df)
    ensures Converts(df) ==> Reformat(df) == Success(Output(OutputColumns, Written(df)))
  {
  }

  /** The trials scanned are qualifying indices 1..120. */
  lemma Scanned(df: Table)
    ensures forall j :: 0 <= j < |QualifyingUpTo(df, TrialCount)| ==>
              1 <= QualifyingUpTo(df, TrialCount)[j] <= TrialCount &&
              Qualifies(df, QualifyingUpTo(df, TrialCount)[j])
  {
    QualifyingSpec(df, TrialCount);
    var q := QualifyingUpTo(df, TrialCount);
    forall j | 0 <= j < |q| ensures 1 <= q[j] <= TrialCount && Qualifies(df, q[j]) {
      assert q[j] in q;
    }
  }

  /** The reference rows: the trial records, then one summary record per
      group. */
  lemma ExpectedLength(df: Table, q: seq<nat>)
    ensures |ExpectedRecords(df, q)| == |Flatten(TrialFrames(df.rows, q))| + |Groups(df.rows)|
  {
  }

  lemma ExpectedTrialPart(df: Table, q: seq<nat>, x: nat)
    requires x < |Flatten(TrialFrames(df.rows, q))|
    ensures x < |ExpectedRecords(df, q)| && ExpectedRecords(df, q)[x] == Flatten(TrialFrames(df.rows, q))[x]
  {
  }

  lemma ExpectedSummaryPart(df: Table, q: seq<nat>, h: nat)
    requires h < |Groups(df.rows)|
    ensures Groups(df.rows)[h] in InputKeys(df.rows) && NonNullKey(Groups(df.rows)[h]) && |Groups(df.rows)[h]| == 2
    ensures |Flatten(TrialFrames(df.rows, q))| + h < |ExpectedRecords(df, q)|
    ensures ExpectedRecords(df, q)[|Flatten(TrialFrames(df.rows, q))| + h] == SummaryRecord(df.rows, Groups(df.rows)[h])
  {
    GroupsSpec(df.rows);
    assert Groups(df.rows)[h] in Groups(df.rows);
  }

  /** A position before the summary records holds the trial record of an
      input row for a trial of `q`. */
  lemma TrialAt(df: Table, q: seq<nat>, k: nat) returns (j: nat, i: nat)
    requires k < |Flatten(TrialFrames(df.rows, q))|
    ensures j < |q| && i < |df.rows| && k < |ExpectedRecords(df, q)|
    ensures ExpectedRecords(df, q)[k] == TrialRecord(df.rows[i], q[j])
  {
    ExpectedTrialPart(df, q, k);
    var fs := TrialFrames(df.rows, q);
    FlattenIndex(fs, k);
    j, i :| 0 <= j < |fs| && 0 <= i < |fs[j]| && Flatten(fs)[k] == fs[j][i];
  }

  /** A position past the trial records holds the summary record of a
      group. */
  lemma SummaryAt(df: Table, q: seq<nat>, k: nat) returns (g: seq<Value>)
    requires |Flatten(TrialFrames(df.rows, q))| <= k < |ExpectedRecords(df, q)|
    ensures g in InputKeys(df.rows) && NonNullKey(g) && |g| == 2
    ensures ExpectedRecords(df, q)[k] == SummaryRecord(df.rows, g)
  {
    ExpectedLength(df, q);
    var h := k - |Flatten(TrialFrames(df.rows, q))|;
    ExpectedSummaryPart(df, q, h);
    g := Groups(df.rows)[h];
  }

  /** Sentinel-filled, every trial cell is a trial index or the sentinel. */
  lemma ExpectedTrialCells(df: Table, q: seq<nat>)
    requires forall j :: 0 <= j < |q| ==> 1 <= q[j] <= TrialCount
    ensures TrialCells(Expected(df, q), TrialPosition)
    ensures forall k :: 0 <= k < |Expected(df, q)| ==>
              Expected(df, q)[k][TrialPosition] == I(Sentinel) ||
              (Expected(df, q)[k][TrialPosition].I? && 1 <= Expected(df, q)[k][TrialPosition].i <= TrialCount)
  {
    var e: seq<seq<Value>> := Expected(df, q);
    forall k | 0 <= k < |e|
      ensures e[k][TrialPosition].I? && e[k][TrialPosition].i <= Sentinel
      ensures e[k][TrialPosition] == I(Sentinel) || 1 <= e[k][TrialPosition].i <= TrialCount
    {
      if k < |Flatten(TrialFrames(df.rows, q))| {
        var j, i := TrialAt(df, q, k);
      } else {
        var g := SummaryAt(df, q, k);
      }
    }
  }

  /** The conversion stops with the empty-concatenation error exactly when
      no trial index 1..120 has all three of its columns. */
  lemma NothingToConvert(df: Table)
    ensures Reformat(df) == Failure(NothingToConcatenate) <==>
            forall n :: 1 <= n <= TrialCount ==> !Qualifies(df, n)
  {
    QualifyingSpec(df, TrialCount);
    var q := QualifyingUpTo(df, TrialCount);
    if q != [] {
      assert q[0] in q;
    }
  }

  /** Where a row written comes from: a reference record, reindexed and
      its sentinel blanked. */
  lemma WrittenFrom(df: Table, o: seq<Value>) returns (k: nat)
    requires Converts(df) && o in Written(df)
    ensures k < |ExpectedRecords(df, QualifyingUpTo(df, TrialCount))|
    ensures o == BlankSentinel(OutputRow(ExpectedRecords(df, QualifyingUpTo(df, TrialCount))[k]), TrialPosition)
  {
    var q := QualifyingUpTo(df, TrialCount);
    var e: seq<seq<Value>> := Expected(df, q);
    SortLayout();
    k := SentinelSortedFrom(e, SortColumns, TrialPosition, |OutputColumns|, o);
    assert e[k] == OutputRow(ExpectedRecords(df, q)[k]);
  }

  /** Where a reference record ends up: reindexed and its sentinel blanked,
      it is a row written. */
  lemma WrittenTo(df: Table, k: nat)
    requires Converts(df) && k < |ExpectedRecords(df, QualifyingUpTo(df, TrialCount))|
    ensures BlankSentinel(OutputRow(ExpectedRecords(df, QualifyingUpTo(df, TrialCount))[k]), TrialPosition) in Written(df)
  {
    var q := QualifyingUpTo(df, TrialCount);
    var e: seq<seq<Value>> := Expected(df, q);
    SortLayout();
    SentinelSortedHas(e, SortColumns, TrialPosition, |OutputColumns|, k);
    assert e[k] == OutputRow(ExpectedRecords(df, q)[k]);
  }

  /** A trial row keeps its trial number through the blanking. */
  lemma TrialRowKept(row: Row, n: nat)
    requires n <= TrialCount
    ensures BlankSentinel(OutputRow(TrialRecord(row, n)), TrialPosition) == OutputRow(TrialRecord(row, n))
  {
    assert OutputRow(TrialRecord(row, n))[TrialPosition] == I(n);
  }

  /** A summary row's sentinel trial number is blanked. */
  lemma SummaryRowBlanked(rows: seq<Row>, g: seq<Value>)
    requires g in InputKeys(rows) && |g| == 2
    ensures BlankSentinel(OutputRow(SummaryRecord(rows, g)), TrialPosition) ==
            OutputRow(SummaryRecord(rows, g))[TrialPosition := S("")]
  {
    assert OutputRow(SummaryRecord(rows, g))[TrialPosition] == I(Sentinel);
  }

  /** The ten statistics columns of a row are all null. */
  predicate NoStatsCells(o: seq<Value>)
  {
    |o| == |OutputColumns| && forall c :: 15 <= c < |OutputColumns| ==> o[c] == Null
  }

  /** Reindexed, a record has subjectkey null and its trial in the trial
      column; its statistics columns are null exactly when its mean and
      SD reaction times and its accuracies are (the trial counts among its
      statistics are not archive columns). */
  lemma OutputRowCells(r: LongRow)
    ensures var o := OutputRow(r); var st := r.stats;
      o[0] == Null && o[TrialPosition] == r.trial &&
      (NoStatsCells(o) <==>
         st.shiftCorrMeanRt == Null && st.shiftIncorrMeanRt == Null &&
         st.noshiftCorrMeanRt == Null && st.noshiftIncorrMeanRt == Null &&
         st.shiftCorrSdRt == Null && st.shiftIncorrSdRt == Null &&
         st.noshiftCorrSdRt == Null && st.noshiftIncorrSdRt == Null &&
         st.shiftAccuracy == Null && st.noshiftAccuracy == Null)
  {
    var o := OutputRow(r);
    if NoStatsCells(o) {
      assert o[15] == Null && o[16] == Null && o[17] == Null && o[18] == Null && o[19] == Null;
      assert o[20] == Null && o[21] == Null && o[22] == Null && o[23] == Null && o[24] == Null;
    }
  }

  /** A trial row as written: subjectkey null, a trial index 1..120 and no
      statistics. */
  predicate TrialRowShape(o: seq<Value>)
  {
    |o| == |OutputColumns| && o[0] == Null &&
    o[TrialPosition].I? && 1 <= o[TrialPosition].i <= TrialCount && NoStatsCells(o)
  }

  /** A summary row as written: subjectkey null and a blank trial. */
  predicate SummaryRowShape(o: seq<Value>)
  {
    |o| == |OutputColumns| && o[0] == Null && o[TrialPosition] == S("")
  }

  /** A trial record has the trial-row shape, its sentinel left alone. */
  lemma TrialRowShaped(row: Row, n: nat)
    requires 1 <= n <= TrialCount
    ensures TrialRowShape(BlankSentinel(OutputRow(TrialRecord(row, n)), TrialPosition))
  {
    TrialRowKept(row, n);
    OutputRowCells(TrialRecord(row, n));
  }

  /** A summary record has the summary-row shape once its sentinel is
      blanked. */
  lemma SummaryRowShaped(rows: seq<Row>, g: seq<Value>)
    requires g in InputKeys(rows) && |g| == 2
    ensures SummaryRowShape(BlankSentinel(OutputRow(SummaryRecord(rows, g)), TrialPosition))
  {
    SummaryRowBlanked(rows, g);
    OutputRowCells(SummaryRecord(rows, g));
  }

  /** Every reference record, reindexed and its sentinel blanked, is a
      trial row of a trial of `q` or a summary row. */
  lemma ShapeAt(df: Table, q: seq<nat>, k: nat)
    requires k < |ExpectedRecords(df, q)|
    requires forall j :: 0 <= j < |q| ==> 1 <= q[j] <= TrialCount && Qualifies(df, q[j])
    ensures var o := BlankSentinel(OutputRow(ExpectedRecords(df, q)[k]), TrialPosition);
      (TrialRowShape(o) && Qualifies(df, o[TrialPosition].i)) || SummaryRowShape(o)
  {
    ExpectedLength(df, q);
    if k < |Flatten(TrialFrames(df.rows, q))| {
      var j, i := TrialAt(df, q, k);
      TrialRowShaped(df.rows[i], q[j]);
      TrialRowKept(df.rows[i], q[j]);
      OutputRowCells(TrialRecord(df.rows[i], q[j]));
    } else {
      var g := SummaryAt(df, q, k);
      SummaryRowShaped(df.rows, g);
    }
  }

  /** Every row written is a trial row of a qualifying trial, with all
      ten statistics columns null, or a summary row with a blank trial; both
      have the 25 archive columns with subjectkey null. */
  lemma WrittenRowShape(df: Table, o: seq<Value>)
    requires Converts(df) && o in Written(df)
    ensures (TrialRowShape(o) && Qualifies(df, o[TrialPosition].i)) || SummaryRowShape(o)
  {
    Scanned(df);
    var k := WrittenFrom(df, o);
    ShapeAt(df, QualifyingUpTo(df, TrialCount), k);
  }

  /** Every qualifying trial contributes a row for every input row: the
      input's cells, the trial number, the trial's three cells with its
      type coded, and no statistics. */
  lemma TrialRowWritten(df: Table, i: nat, n: nat)
    requires Converts(df)
    requires i < |df.rows| && 1 <= n <= TrialCount && Qualifies(df, n)
    ensures OutputRow(TrialRecord(df.rows[i], n)) in Written(df)
  {
    QualifyingSpec(df, TrialCount);
    var q := QualifyingUpTo(df, TrialCount);
    var k := TrialPositionOf(df, q, i, n);
    WrittenTo(df, k);
    TrialRowKept(df.rows[i], n);
  }

  /** The trial record of every input row for every trial of `q` is among
      the reference records. */
  lemma TrialPositionOf(df: Table, q: seq<nat>, i: nat, n: nat) returns (k: nat)
    requires i < |df.rows| && n in q
    ensures k < |ExpectedRecords(df, q)| && ExpectedRecords(df, q)[k] == TrialRecord(df.rows[i], n)
  {
    var j :| 0 <= j < |q| && q[j] == n;
    var fs := TrialFrames(df.rows, q);
    var x := TrialRecord(df.rows[i], n);
    assert x == fs[j][i];
    FlattenMembers(fs, x);
    k :| 0 <= k < |Flatten(fs)| && Flatten(fs)[k] == x;
    ExpectedTrialPart(df, q, k);
  }

  /** The summary record of every group is among the reference records. */
  lemma SummaryPosition(df: Table, q: seq<nat>, g: seq<Value>) returns (k: nat)
    requires g in InputKeys(df.rows) && NonNullKey(g) && |g| == 2
    ensures k < |ExpectedRecords(df, q)| && ExpectedRecords(df, q)[k] == SummaryRecord(df.rows, g)
  {
    var h := GroupIndex(df.rows, g);
    ExpectedSummaryPart(df, q, h);
    k := |Flatten(TrialFrames(df.rows, q))| + h;
  }

  /** Every (subject, wave) group gets a summary row with a blank trial. */
  lemma SummaryRowWritten(df: Table, g: seq<Value>)
    requires Converts(df)
    requires g in InputKeys(df.rows) && NonNullKey(g) && |g| == 2
    ensures OutputRow(SummaryRecord(df.rows, g))[TrialPosition := S("")] in Written(df)
  {
    var k := SummaryPosition(df, QualifyingUpTo(df, TrialCount), g);
    WrittenTo(df, k);
    SummaryRowBlanked(df.rows, g);
  }

  /** Every row written is one of those: a trial row of an input row and a
      qualifying trial, or a group's summary row with a blank trial. */
  lemma WrittenRowOrigin(df: Table, o: seq<Value>)
    requires Converts(df) && o in Written(df)
    ensures (exists i, n :: 0 <= i < |df.rows| && 1 <= n <= TrialCount && Qualifies(df, n) &&
               o == OutputRow(TrialRecord(df.rows[i], n))) ||
            (exists g :: g in InputKeys(df.rows) && NonNullKey(g) && |g| == 2 &&
               o == OutputRow(SummaryRecord(df.rows, g))[TrialPosition := S("")])
  {
    Scanned(df);
    var q := QualifyingUpTo(df, TrialCount);
    var k := WrittenFrom(df, o);
    if k < |Flatten(TrialFrames(df.rows, q))| {
      var j, i := TrialAt(df, q, k);
      TrialRowKept(df.rows[i], q[j]);
      assert o == OutputRow(TrialRecord(df.rows[i], q[j]));
    } else {
      var g := SummaryAt(df, q, k);
      SummaryRowBlanked(df.rows, g);
      assert o == OutputRow(SummaryRecord(df.rows, g))[TrialPosition := S("")];
    }
  }

  /** Reindexed, a record's group key is its (src_subject_id,
      timepoint_wave) and its sort key adds its trial. */
  lemma OutputRowKey(r: LongRow)
    ensures KeyOf(OutputRow(r), GroupColumns) == [r.srcSubjectId, r.timepointWave]
    ensures KeyOf(OutputRow(r), SortColumns) == [r.srcSubjectId, r.timepointWave, r.trial]
  {
  }

  /** The group key and sort key of a trial row. */
  lemma TrialRowKey(row: Row, n: nat)
    ensures KeyOf(OutputRow(TrialRecord(row, n)), GroupColumns) == InputKey(row)
    ensures KeyOf(OutputRow(TrialRecord(row, n)), SortColumns) == InputKey(row) + [I(n)]
  {
    OutputRowKey(TrialRecord(row, n));
  }

  /** The group key and sort key of a summary row, sentinel-filled. */
  lemma SummaryRowKey(rows: seq<Row>, g: seq<Value>)
    requires g in InputKeys(rows) && |g| == 2
    ensures KeyOf(OutputRow(SummaryRecord(rows, g)), GroupColumns) == g
    ensures KeyOf(OutputRow(SummaryRecord(rows, g)), SortColumns) == g + [I(Sentinel)]
  {
    OutputRowKey(SummaryRecord(rows, g));
  }

  /** The trial rows of the reference table, frame by frame. */
  function TrialOutputs(df: Table, q: seq<nat>): (fs: seq<seq<seq<Value>>>)
    ensures |fs| == |q| && forall j :: 0 <= j < |q| ==> |fs[j]| == |df.rows|
    ensures forall j, i :: 0 <= j < |q| && 0 <= i < |df.rows| ==> fs[j][i] == OutputRow(TrialRecord(df.rows[i], q[j]))
  {
    seq(|q|, j requires 0 <= j < |q| =>
      seq(|df.rows|, i requires 0 <= i < |df.rows| => OutputRow(TrialRecord(df.rows[i], q[j]))))
  }

  /** The reference table opens with its trial rows. */
  lemma TrialOutputsFirst(df: Table, q: seq<nat>)
    ensures var a := |Flatten(TrialFrames(df.rows, q))|;
      a <= |Expected(df, q)| && Expected(df, q)[..a] == Flatten(TrialOutputs(df, q))
  {
    var fs := TrialFrames(df.rows, q);
    var os := TrialOutputs(df, q);
    forall j, i | 0 <= j < |fs| && 0 <= i < |fs[j]| ensures os[j][i] == OutputRow(fs[j][i]) {
      assert fs[j][i] == TrialRecord(df.rows[i], q[j]);
    }
    FlattenPointwise(fs, os, OutputRow);
    ExpectedLength(df, q);
    var a := |Flatten(fs)|;
    var e: seq<seq<Value>> := Expected(df, q);
    forall x | 0 <= x < a ensures e[x] == Flatten(os)[x] {
      ExpectedTrialPart(df, q, x);
      assert e[x] == OutputRow(ExpectedRecords(df, q)[x]);
    }
  }

  /** The trial rows hold |q| rows for every input row of a group. */
  lemma TrialOutputsCount(df: Table, q: seq<nat>, k: seq<Value>)
    ensures CountKey(Flatten(TrialOutputs(df, q)), GroupColumns, k) == |q| * Occurrences(InputKeys(df.rows), k)
  {
    var os := TrialOutputs(df, q);
    var keys := InputKeys(df.rows);
    var c := Occurrences(keys, k);
    forall j | 0 <= j < |os| ensures CountKey(os[j], GroupColumns, k) == c {
      forall i | 0 <= i < |os[j]| ensures KeyOf(os[j][i], GroupColumns) == keys[i] {
        TrialRowKey(df.rows[i], q[j]);
      }
      CountKeyByKeys(os[j], GroupColumns, keys, k);
    }
    CountKeyFlattenUniform(os, GroupColumns, k, c);
  }

  /** No trial row carries the sentinel. */
  lemma TrialOutputsNoSentinel(df: Table, q: seq<nat>, k: seq<Value>)
    requires forall j :: 0 <= j < |q| ==> q[j] <= TrialCount
    ensures CountKey(Flatten(TrialOutputs(df, q)), SortColumns, k + [I(Sentinel)]) == 0
  {
    var os := TrialOutputs(df, q);
    forall j | 0 <= j < |os| ensures CountKey(os[j], SortColumns, k + [I(Sentinel)]) == 0 {
      forall i | 0 <= i < |os[j]| ensures KeyOf(os[j][i], SortColumns) != k + [I(Sentinel)] {
        TrialRowKey(df.rows[i], q[j]);
        assert KeyOf(os[j][i], SortColumns)[2] == I(q[j]);
      }
      CountKeyNone(os[j], SortColumns, k + [I(Sentinel)]);
    }
    CountKeyFlattenUniform(os, SortColumns, k + [I(Sentinel)], 0);
  }

  /** The summary row of the h-th group carries the group's key. */
  lemma SummaryOutputKey(df: Table, q: seq<nat>, h: nat)
    requires h < |Groups(df.rows)|
    ensures var a := |Flatten(TrialFrames(df.rows, q))|;
      a + h < |Expected(df, q)| &&
      KeyOf(Expected(df, q)[a + h], GroupColumns) == Groups(df.rows)[h] &&
      KeyOf(Expected(df, q)[a + h], SortColumns) == Groups(df.rows)[h] + [I(Sentinel)]
  {
    ExpectedSummaryPart(df, q, h);
    SummaryRowKey(df.rows, Groups(df.rows)[h]);
  }

  /** The reference table closes with one summary row per group, in group
      order, each with the sentinel as its trial. */
  lemma SummaryOutputsKeys(df: Table, q: seq<nat>)
    ensures var a := |Flatten(TrialFrames(df.rows, q))|;
      KeysFrom(Expected(df, q), a, GroupColumns, Groups(df.rows)) &&
      KeysFrom(Expected(df, q), a, SortColumns, Extended(Groups(df.rows), I(Sentinel)))
  {
    ExpectedLength(df, q);
    forall h | 0 <= h < |Groups(df.rows)| {
      SummaryOutputKey(df, q, h);
    }
  }

  /** The summary rows hold one row for each group. */
  lemma SummaryOutputsGroupCount(df: Table, q: seq<nat>, k: seq<Value>)
    ensures var a := |Flatten(TrialFrames(df.rows, q))|;
      a <= |Expected(df, q)| &&
      CountKey(Expected(df, q)[a..], GroupColumns, k) == (if k in InputKeys(df.rows) && NonNullKey(k) then 1 else 0)
  {
    SummaryOutputsKeys(df, q);
    CountKeyTail(Expected(df, q), |Flatten(TrialFrames(df.rows, q))|, GroupColumns, Groups(df.rows), k);
    GroupOccurrences(df.rows, k);
  }

  /** The summary rows carry the sentinel, one for each group. */
  lemma SummaryOutputsSentinelCount(df: Table, q: seq<nat>, k: seq<Value>)
    ensures var a := |Flatten(TrialFrames(df.rows, q))|;
      a <= |Expected(df, q)| &&
      CountKey(Expected(df, q)[a..], SortColumns, k + [I(Sentinel)]) == (if k in InputKeys(df.rows) && NonNullKey(k) then 1 else 0)
  {
    SummaryOutputsKeys(df, q);
    var groups := Groups(df.rows);
    CountKeyTail(Expected(df, q), |Flatten(TrialFrames(df.rows, q))|, SortColumns, Extended(groups, I(Sentinel)), k + [I(Sentinel)]);
    OccurrencesExtended(groups, Extended(groups, I(Sentinel)), k, I(Sentinel));
    GroupOccurrences(df.rows, k);
  }

  /** The number of rows written for the group `k`: one per input row with
      that key and qualifying trial, and one summary row when `k` is a
      group. With (subject, wave) unique in the input, a group has one row
      per qualifying trial plus its summary row. */
  lemma GroupRowCount(df: Table, k: seq<Value>)
    requires Converts(df) && |k| == 2
    ensures CountKey(Written(df), GroupColumns, k) ==
            |QualifyingUpTo(df, TrialCount)| * Occurrences(InputKeys(df.rows), k) +
            (if k in InputKeys(df.rows) && NonNullKey(k) then 1 else 0)
  {
    var q := QualifyingUpTo(df, TrialCount);
    var e: seq<seq<Value>> := Expected(df, q);
    SortLayout();
    SentinelSortedCount(e, SortColumns, TrialPosition, |OutputColumns|, GroupColumns, k);
    TrialOutputsFirst(df, q);
    CountKeySplit(e, |Flatten(TrialFrames(df.rows, q))|, GroupColumns, k);
    TrialOutputsCount(df, q, k);
    SummaryOutputsGroupCount(df, q, k);
  }

  /** Every group gets exactly one summary row, and nothing else gets one. */
  lemma OneSummaryPerGroup(df: Table, k: seq<Value>)
    requires Converts(df) && |k| == 2
    ensures CountKey(Written(df), SortColumns, k + [S("")]) ==
            if k in InputKeys(df.rows) && NonNullKey(k) then 1 else 0
  {
    Scanned(df);
    var q := QualifyingUpTo(df, TrialCount);
    var e: seq<seq<Value>> := Expected(df, q);
    ExpectedTrialCells(df, q);
    SortLayout();
    SentinelSortedBlankCount(e, SortColumns, TrialPosition, |OutputColumns|, k);
    TrialOutputsFirst(df, q);
    CountKeySplit(e, |Flatten(TrialFrames(df.rows, q))|, SortColumns, k + [I(Sentinel)]);
    TrialOutputsNoSentinel(df, q, k);
    SummaryOutputsSentinelCount(df, q, k);
  }

  /** Within a group of the rows written, trial numbers ascend and the
      summary row, with its blank trial, comes last. */
  lemma GroupOrder(df: Table, i: nat, j: nat)
    requires Converts(df) && i < j < |Written(df)|
    requires SameGroup(Written(df)[i], Written(df)[j], SortColumns)
    ensures Written(df)[i][TrialPosition] == S("") ==> Written(df)[j][TrialPosition] == S("")
    ensures Written(df)[i][TrialPosition].I? && Written(df)[j][TrialPosition].I? ==>
              Written(df)[i][TrialPosition].i <= Written(df)[j][TrialPosition].i
  {
    Scanned(df);
    var q := QualifyingUpTo(df, TrialCount);
    ExpectedTrialCells(df, q);
    SortLayout();
    SentinelSortedGroupOrder(Expected(df, q), SortColumns, TrialPosition, |OutputColumns|, i, j);
  }

  /** Each group of the rows written is one contiguous block. */
  lemma GroupContiguous(df: Table, i: nat, m: nat, j: nat)
    requires Converts(df) && i < m < j < |Written(df)|
    requires SameGroup(Written(df)[i], Written(df)[j], SortColumns)
    ensures SameGroup(Written(df)[i], Written(df)[m], SortColumns)
  {
    var q := QualifyingUpTo(df, TrialCount);
    SortLayout();
    SentinelSortedContiguous(Expected(df, q), SortColumns, TrialPosition, |OutputColumns|, i, m, j);
  }

  /** The statistics of a summary row depend on the subject only: every
      wave of a subject carries the same fourteen values. */
  lemma StatsBySubject(rows: seq<Row>, g: seq<Value>, h: seq<Value>)
    requires g in InputKeys(rows) && |g| == 2 && h in InputKeys(rows) && |h| == 2
    requires g[0] == h[0]
    ensures SummaryRecord(rows, g).stats == SummaryRecord(rows, h).stats
  {
  }

  /** A group's summary record: the group's key; date, age and sex of the
      group's first input row; the statistics of the first input row of
      the subject, whatever its wave; the sentinel trial; and no comments,
      trial counts or trial fields. */
  lemma SummaryFromFirstRow(rows: seq<Row>, g: seq<Value>)
    requires g in InputKeys(rows) && |g| == 2
    ensures var r := SummaryRecord(rows, g); var f := FirstIndexOf(InputKeys(rows), g);
      f < |rows| && InputKey(rows[f]) == g && (forall j :: 0 <= j < f ==> InputKey(rows[j]) != g) &&
      GroupKey(r) == g && r.interviewDate == Cell(rows[f], "interview_date") &&
      r.interviewAge == Cell(rows[f], "interview_age") && r.gender == Cell(rows[f], "sex") &&
      (exists i :: 0 <= i < |rows| && Cell(rows[i], "subject_id") == g[0] && r.stats == StatsOf(rows[i]) &&
         forall j :: 0 <= j < i ==> Cell(rows[j], "subject_id") != g[0]) &&
      r.trial == I(Sentinel) && r.commentsMisc == Null && r.reactionTimeUnits == Null &&
      r.numShiftTrials == Null && r.numNoshiftTrials == Null && r.totalNumTrials == Null &&
      r.trialType == Null && r.trialRt == Null && r.trialAccuracy == Null
  {
    SubjectAlwaysFound(rows, g);
    var f := FirstIndexOf(InputKeys(rows), g);
    assert g == [g[0], g[1]];
  }

  /** The groups of the rows written come in ascending (subject, wave)
      order. */
  lemma GroupsAscend(df: Table, i: nat, j: nat)
    requires Converts(df) && i < j < |Written(df)|
    ensures KeyLe(KeyOf(Written(df)[i], GroupColumns), KeyOf(Written(df)[j], GroupColumns))
  {
    var q := QualifyingUpTo(df, TrialCount);
    SortLayout();
    assert SortColumns[..2] == GroupColumns;
    SentinelSortedGroupsAscend(Expected(df, q), SortColumns, TrialPosition, |OutputColumns|, i, j);
  }
}
