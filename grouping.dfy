/** The (subject, wave) groups both converters build summary rows for:
    groupby(["src_subject_id", "timepoint_wave"]) over rows whose keys are
    the input's (subject_id, wave) pairs, and the first row of each group,
    the one group.iloc[0] reads. */
module Grouping {
  import opened Frames
  import opened Sorting

  /** The group key of an input row: (subject_id, wave). */
  function InputKey(row: Row): seq<Value>
  {
    [Cell(row, "subject_id"), Cell(row, "wave")]
  }

  function InputKeys(rows: seq<Row>): (keys: seq<seq<Value>>)
    ensures |keys| == |rows| && forall i :: 0 <= i < |rows| ==> keys[i] == InputKey(rows[i])
  {
    seq(|rows|, i requires 0 <= i < |rows| => InputKey(rows[i]))
  }

  /** The position of the first row with key `k`. */
  function FirstIndexOf(keys: seq<seq<Value>>, k: seq<Value>): (i: nat)
    requires k in keys
    ensures i < |keys| && keys[i] == k
    ensures forall j :: 0 <= j < i ==> keys[j] != k
  {
    if keys[0] == k then 0 else 1 + FirstIndexOf(keys[1..], k)
  }

  /** The first row with key `k` in a list is found within any prefix that
      holds `k`. */
  lemma {:induction false} FirstIndexOfPrefix(keys: seq<seq<Value>>, p: seq<seq<Value>>, k: seq<Value>)
    requires |p| <= |keys| && keys[..|p|] == p && k in p
    ensures FirstIndexOf(keys, k) == FirstIndexOf(p, k)
  {
    if keys[0] != k {
      assert p[0] == keys[0];
      assert keys[1..][..|p| - 1] == p[1..];
      assert k in p[1..] by {
        var i :| 0 <= i < |p| && p[i] == k;
        assert p[1..][i - 1] == k;
      }
      FirstIndexOfPrefix(keys[1..], p[1..], k);
    }
  }

  /** The groups groupby visits: distinct non-null (subject_id, wave) pairs
      of the input, ascending. */
  function Groups(rows: seq<Row>): seq<seq<Value>>
  {
    GroupKeys(InputKeys(rows))
  }

  /** The groups are the input's non-null (subject_id, wave) pairs, each
      once, ascending. */
  lemma GroupsSpec(rows: seq<Row>)
    ensures StrictlyIncreasing(Groups(rows))
    ensures forall k :: k in Groups(rows) <==> k in InputKeys(rows) && NonNullKey(k)
    ensures forall k :: k in Groups(rows) ==> |k| == 2
  {
    GroupKeysSpec(InputKeys(rows));
  }

  /** Every non-null input key is one of the groups. */
  lemma GroupIndex(rows: seq<Row>, g: seq<Value>) returns (h: nat)
    requires g in InputKeys(rows) && NonNullKey(g)
    ensures h < |Groups(rows)| && Groups(rows)[h] == g
  {
    GroupsSpec(rows);
    h :| 0 <= h < |Groups(rows)| && Groups(rows)[h] == g;
  }

  /** Each group is an input key of two cells. */
  lemma GroupMember(rows: seq<Row>, g: nat)
    requires g < |Groups(rows)|
    ensures Groups(rows)[g] in InputKeys(rows) && |Groups(rows)[g]| == 2
  {
    GroupsSpec(rows);
  }

  /** Each group key occurs once among the groups; nothing else occurs. */
  lemma GroupOccurrences(rows: seq<Row>, k: seq<Value>)
    ensures Occurrences(Groups(rows), k) == if k in InputKeys(rows) && NonNullKey(k) then 1 else 0
  {
    GroupsSpec(rows);
    OccurrencesStrict(Groups(rows), k);
  }

  /** Rows that open with the input's keys and carry no other key fall into
      the input's groups. */
  lemma GroupsOfKeys(rows: seq<Row>, keys: seq<seq<Value>>)
    requires |rows| <= |keys| && keys[..|rows|] == InputKeys(rows)
    requires forall x :: x in keys ==> x in InputKeys(rows)
    ensures GroupKeys(keys) == Groups(rows)
  {
    forall x | x in InputKeys(rows) ensures x in keys {
      assert x in keys[..|rows|];
    }
    GroupKeysSpec(keys);
    GroupsSpec(rows);
    StrictlyIncreasingUnique(GroupKeys(keys), Groups(rows));
  }
}
