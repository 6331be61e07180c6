/** The last steps both converters share. fillna(9999) on the trial column
    gives every summary row the sentinel as its trial number; the table is
    then sorted by (subject, wave, trial), and the sentinel is blanked. */
module SentinelSort {
  import opened Frames
  import opened Ordering
  import opened Sorting

  /** Every row is `w` cells wide. */
  predicate Width(rows: seq<seq<Value>>, w: nat)
  {
    forall k :: 0 <= k < |rows| ==> |rows[k]| == w
  }

  /** The sort columns of a `w`-wide table: subject, wave, and the trial
      column `t` last. */
  predicate SortKeys(ks: seq<nat>, t: nat, w: nat)
  {
    |ks| == 3 && ks[2] == t && t < w && ks[0] < w && ks[1] < w && ks[0] != t && ks[1] != t
  }

  /** Every trial cell is a whole number no larger than the sentinel. */
  predicate TrialCells(rows: seq<seq<Value>>, t: nat)
  {
    forall k :: 0 <= k < |rows| ==> t < |rows[k]| && rows[k][t].I? && rows[k][t].i <= Sentinel
  }

  /** sort_values by `ks`, then replace(9999, "") on column `t`. */
  function SentinelSorted(rows: seq<seq<Value>>, ks: seq<nat>, t: nat, w: nat): (r: seq<seq<Value>>)
    requires Width(rows, w) && SortKeys(ks, t, w)
    ensures |r| == |rows| && Width(r, w)
  {
    var sorted := SortBy(rows, ks);
    PermutationWidth(rows, sorted, w);
    BlankSentinels(sorted, t)
  }

  lemma TrialCellsPermutation(a: seq<seq<Value>>, b: seq<seq<Value>>, t: nat)
    requires multiset(a) == multiset(b) && TrialCells(a, t)
    ensures TrialCells(b, t)
  {
    forall k | 0 <= k < |b| ensures t < |b[k]| && b[k][t].I? && b[k][t].i <= Sentinel {
      assert b[k] in multiset(a);
      var i :| 0 <= i < |a| && a[i] == b[k];
    }
  }

  /** Every input row appears in the result, its sentinel blanked. */
  lemma SentinelSortedHas(rows: seq<seq<Value>>, ks: seq<nat>, t: nat, w: nat, k: nat)
    requires Width(rows, w) && SortKeys(ks, t, w) && k < |rows|
    ensures BlankSentinel(rows[k], t) in SentinelSorted(rows, ks, t, w)
  {
    var sorted := SortBy(rows, ks);
    PermutationWidth(rows, sorted, w);
    assert rows[k] in multiset(sorted);
    var i :| 0 <= i < |sorted| && sorted[i] == rows[k];
    assert SentinelSorted(rows, ks, t, w)[i] == BlankSentinel(rows[k], t);
  }

  /** Every row of the result is an input row, its sentinel blanked. */
  lemma SentinelSortedFrom(rows: seq<seq<Value>>, ks: seq<nat>, t: nat, w: nat, o: seq<Value>) returns (k: nat)
    requires Width(rows, w) && SortKeys(ks, t, w) && o in SentinelSorted(rows, ks, t, w)
    ensures k < |rows| && o == BlankSentinel(rows[k], t)
  {
    var sorted := SortBy(rows, ks);
    PermutationWidth(rows, sorted, w);
    var i :| 0 <= i < |sorted| && SentinelSorted(rows, ks, t, w)[i] == o;
    assert sorted[i] in multiset(rows);
    k :| 0 <= k < |rows| && rows[k] == sorted[i];
  }

  /** Sorting and blanking keep the number of rows with key `k` on any
      columns other than the trial column. */
  lemma SentinelSortedCount(rows: seq<seq<Value>>, ks: seq<nat>, t: nat, w: nat, ps: seq<nat>, k: seq<Value>)
    requires Width(rows, w) && SortKeys(ks, t, w) && t !in ps
    ensures CountKey(SentinelSorted(rows, ks, t, w), ps, k) == CountKey(rows, ps, k)
  {
    var sorted := SortBy(rows, ks);
    PermutationWidth(rows, sorted, w);
    var out := SentinelSorted(rows, ks, t, w);
    forall i | 0 <= i < |out| ensures KeyOf(out[i], ps) == KeyOf(sorted[i], ps) {
      assert out[i] == BlankSentinel(sorted[i], t);
      forall j | 0 <= j < |ps| ensures KeyOf(out[i], ps)[j] == KeyOf(sorted[i], ps)[j] {
        assert ps[j] != t;
      }
    }
    CountKeyPointwise(out, sorted, ps, k);
    CountKeyPermutation(sorted, rows, ps, k);
  }

  /** A row shows a blank trial and group key `k` exactly when its trial
      cell held the sentinel and its group key is `k`. */
  lemma BlankedKey(x: seq<Value>, ks: seq<nat>, t: nat, w: nat, k: seq<Value>)
    requires SortKeys(ks, t, w) && |x| == w && x[t].I? && |k| == 2
    ensures KeyOf(BlankSentinel(x, t), ks) == k + [S("")] <==> KeyOf(x, ks) == k + [I(Sentinel)]
  {
    var b := BlankSentinel(x, t);
    if KeyOf(x, ks) == k + [I(Sentinel)] {
      assert KeyOf(x, ks)[2] == I(Sentinel);
      assert KeyOf(b, ks) == k + [S("")];
    }
    if KeyOf(b, ks) == k + [S("")] {
      assert KeyOf(b, ks)[2] == S("");
      assert KeyOf(x, ks) == k + [I(Sentinel)];
    }
  }

  lemma {:induction false} BlankedCount(rows: seq<seq<Value>>, ks: seq<nat>, t: nat, w: nat, k: seq<Value>)
    requires Width(rows, w) && SortKeys(ks, t, w) && TrialCells(rows, t) && |k| == 2
    ensures CountKey(BlankSentinels(rows, t), ks, k + [S("")]) == CountKey(rows, ks, k + [I(Sentinel)])
  {
    if rows != [] {
      BlankedCount(rows[1..], ks, t, w, k);
      BlankedKey(rows[0], ks, t, w, k);
      assert BlankSentinels(rows, t)[1..] == BlankSentinels(rows[1..], t);
    }
  }

  /** The rows the result shows with a blank trial and group key `k` are
      the rows that carried the sentinel: one per summary row. */
  lemma SentinelSortedBlankCount(rows: seq<seq<Value>>, ks: seq<nat>, t: nat, w: nat, k: seq<Value>)
    requires Width(rows, w) && SortKeys(ks, t, w) && TrialCells(rows, t) && |k| == 2
    ensures CountKey(SentinelSorted(rows, ks, t, w), ks, k + [S("")]) == CountKey(rows, ks, k + [I(Sentinel)])
  {
    var sorted := SortBy(rows, ks);
    PermutationWidth(rows, sorted, w);
    TrialCellsPermutation(rows, sorted, t);
    BlankedCount(sorted, ks, t, w, k);
    CountKeyPermutation(sorted, rows, ks, k + [I(Sentinel)]);
  }

  /** The sorted rows are `w` cells wide, so every sort column exists. */
  lemma SortedWide(rows: seq<seq<Value>>, ks: seq<nat>, t: nat, w: nat)
    requires Width(rows, w) && SortKeys(ks, t, w)
    ensures Width(SortBy(rows, ks), w) && Wide(SortBy(rows, ks), ks)
  {
    var sorted := SortBy(rows, ks);
    PermutationWidth(rows, sorted, w);
    forall i, j | 0 <= i < |sorted| && 0 <= j < |ks| ensures ks[j] < |sorted[i]| {
    }
  }

  /** Row `i` of the result is row `i` of the sorted table, its sentinel
      blanked. */
  lemma SentinelSortedAt(rows: seq<seq<Value>>, ks: seq<nat>, t: nat, w: nat, i: nat)
    requires Width(rows, w) && SortKeys(ks, t, w) && i < |rows|
    ensures |SortBy(rows, ks)| == |rows| && |SortBy(rows, ks)[i]| == w
    ensures SentinelSorted(rows, ks, t, w)[i] == BlankSentinel(SortBy(rows, ks)[i], t)
  {
    PermutationWidth(rows, SortBy(rows, ks), w);
  }

  /** Each group of the result is one contiguous block. */
  lemma SentinelSortedContiguous(rows: seq<seq<Value>>, ks: seq<nat>, t: nat, w: nat, i: nat, m: nat, j: nat)
    requires Width(rows, w) && SortKeys(ks, t, w)
    requires i < m < j < |rows|
    requires SameGroup(SentinelSorted(rows, ks, t, w)[i], SentinelSorted(rows, ks, t, w)[j], ks)
    ensures SameGroup(SentinelSorted(rows, ks, t, w)[i], SentinelSorted(rows, ks, t, w)[m], ks)
  {
    SortedWide(rows, ks, t, w);
    SentinelSortedAt(rows, ks, t, w, i);
    SentinelSortedAt(rows, ks, t, w, m);
    SentinelSortedAt(rows, ks, t, w, j);
    SortedGroupsContiguous(SortBy(rows, ks), ks, i, m, j);
  }

  /** Within a group of the result, trial numbers ascend, and a blank trial
      is followed only by blank trials: the summary row closes its group. */
  lemma SentinelSortedGroupOrder(rows: seq<seq<Value>>, ks: seq<nat>, t: nat, w: nat, i: nat, j: nat)
    requires Width(rows, w) && SortKeys(ks, t, w) && TrialCells(rows, t)
    requires i < j < |rows|
    requires SameGroup(SentinelSorted(rows, ks, t, w)[i], SentinelSorted(rows, ks, t, w)[j], ks)
    ensures var out := SentinelSorted(rows, ks, t, w);
      (out[i][t] == S("") ==> out[j][t] == S("")) &&
      (out[i][t].I? && out[j][t].I? ==> out[i][t].i <= out[j][t].i)
  {
    var sorted := SortBy(rows, ks);
    SortedWide(rows, ks, t, w);
    TrialCellsPermutation(rows, sorted, t);
    SentinelSortedAt(rows, ks, t, w, i);
    SentinelSortedAt(rows, ks, t, w, j);
    SortedGroupsAscend(sorted, ks, i, j);
    var a, b := sorted[i][t], sorted[j][t];
    assert a.I? && b.I? && a.i <= b.i <= Sentinel;
  }

  /** Blanking the sentinel leaves a row's (subject, wave) key as it was. */
  lemma BlankedGroupKey(x: seq<Value>, ks: seq<nat>, t: nat, w: nat)
    requires SortKeys(ks, t, w) && |x| == w
    ensures KeyOf(BlankSentinel(x, t), ks[..2]) == KeyOf(x, ks)[..2]
  {
  }

  /** The groups of the result come in ascending (subject, wave) order:
      blanking the sentinel leaves the group columns as they were sorted. */
  lemma SentinelSortedGroupsAscend(rows: seq<seq<Value>>, ks: seq<nat>, t: nat, w: nat, i: nat, j: nat)
    requires Width(rows, w) && SortKeys(ks, t, w) && i < j < |rows|
    ensures KeyLe(KeyOf(SentinelSorted(rows, ks, t, w)[i], ks[..2]), KeyOf(SentinelSorted(rows, ks, t, w)[j], ks[..2]))
  {
    var sorted := SortBy(rows, ks);
    SentinelSortedAt(rows, ks, t, w, i);
    SentinelSortedAt(rows, ks, t, w, j);
    BlankedGroupKey(sorted[i], ks, t, w);
    BlankedGroupKey(sorted[j], ks, t, w);
    assert KeyLe(KeyOf(sorted[i], ks), KeyOf(sorted[j], ks));
    KeyLePrefix(KeyOf(sorted[i], ks), KeyOf(sorted[j], ks));
  }
}
