/** sort_values(by=[...]) on the output table, and the distinct keys groupby
    iterates over, in ascending key order. */
module Sorting {
  import opened Frames
  import opened Ordering

  /** The sort key of `row`: its cells at the positions `ks`, in that order
      (null for a position past the end of the row). */
  function KeyOf(row: seq<Value>, ks: seq<nat>): (k: seq<Value>)
    ensures |k| == |ks|
    ensures forall j :: 0 <= j < |ks| && ks[j] < |row| ==> k[j] == row[ks[j]]
  {
    seq(|ks|, j requires 0 <= j < |ks| => if ks[j] < |row| then row[ks[j]] else Null)
  }

  ghost predicate SortedBy(rows: seq<seq<Value>>, ks: seq<nat>)
  {
    forall i, j :: 0 <= i < j < |rows| ==> KeyLe(KeyOf(rows[i], ks), KeyOf(rows[j], ks))
  }

  ghost predicate AllAbove(k: seq<Value>, rows: seq<seq<Value>>, ks: seq<nat>)
  {
    forall i :: 0 <= i < |rows| ==> KeyLe(k, KeyOf(rows[i], ks))
  }

  lemma AllAboveByMultiset(k: seq<Value>, a: seq<seq<Value>>, b: seq<seq<Value>>, ks: seq<nat>)
    requires multiset(a) == multiset(b) && AllAbove(k, b, ks)
    ensures AllAbove(k, a, ks)
  {
    forall i | 0 <= i < |a| ensures KeyLe(k, KeyOf(a[i], ks)) {
      assert a[i] in multiset(b);
      var j :| 0 <= j < |b| && b[j] == a[i];
    }
  }

  /** One step of insertion sort: `x` goes before the first row whose key is
      not below its own. */
  function Insert(x: seq<Value>, rows: seq<seq<Value>>, ks: seq<nat>): (r: seq<seq<Value>>)
    requires SortedBy(rows, ks)
    decreases |rows|
    ensures multiset(r) == multiset(rows) + multiset{x}
    ensures SortedBy(r, ks)
  {
    if rows == [] then [x]
    else if KeyLe(KeyOf(x, ks), KeyOf(rows[0], ks)) then
      InsertFront(x, rows, ks);
      [x] + rows
    else
      KeyLeTotal(KeyOf(x, ks), KeyOf(rows[0], ks));
      var t := Insert(x, rows[1..], ks);
      InsertBehind(x, rows, t, ks);
      assert rows == [rows[0]] + rows[1..];
      assert multiset([rows[0]] + t) == multiset{rows[0]} + multiset(t);
      [rows[0]] + t
  }

  lemma InsertFront(x: seq<Value>, rows: seq<seq<Value>>, ks: seq<nat>)
    requires SortedBy(rows, ks) && rows != []
    requires KeyLe(KeyOf(x, ks), KeyOf(rows[0], ks))
    ensures SortedBy([x] + rows, ks)
  {
    var r := [x] + rows;
    forall i, j | 0 <= i < j < |r| ensures KeyLe(KeyOf(r[i], ks), KeyOf(r[j], ks)) {
      if i == 0 && j > 1 {
        KeyLeTransitive(KeyOf(x, ks), KeyOf(rows[0], ks), KeyOf(rows[j - 1], ks));
      }
    }
  }

  lemma InsertBehind(x: seq<Value>, rows: seq<seq<Value>>, t: seq<seq<Value>>, ks: seq<nat>)
    requires SortedBy(rows, ks) && rows != [] && SortedBy(t, ks)
    requires KeyLe(KeyOf(rows[0], ks), KeyOf(x, ks))
    requires multiset(t) == multiset(rows[1..]) + multiset{x}
    ensures SortedBy([rows[0]] + t, ks)
  {
    var k := KeyOf(rows[0], ks);
    var b := rows[1..] + [x];
    assert multiset(b) == multiset(t);
    forall i | 0 <= i < |b| ensures KeyLe(k, KeyOf(b[i], ks)) {
      if i < |rows| - 1 {
        assert b[i] == rows[i + 1];
      }
    }
    AllAboveByMultiset(k, t, b, ks);
  }

  /** sort_values by the columns at positions `ks`: a permutation of the
      rows, in ascending key order. */
  function SortBy(rows: seq<seq<Value>>, ks: seq<nat>): (r: seq<seq<Value>>)
    ensures multiset(r) == multiset(rows)
    ensures SortedBy(r, ks)
  {
    if rows == [] then []
    else
      assert rows == [rows[0]] + rows[1..];
      Insert(rows[0], SortBy(rows[1..], ks), ks)
  }

  /** A permutation of rows of width `w` has rows of width `w`. */
  lemma PermutationWidth(a: seq<seq<Value>>, b: seq<seq<Value>>, w: nat)
    requires multiset(a) == multiset(b)
    requires forall k :: 0 <= k < |a| ==> |a[k]| == w
    ensures forall k :: 0 <= k < |b| ==> |b[k]| == w
  {
    forall k | 0 <= k < |b| ensures |b[k]| == w {
      assert b[k] in multiset(a);
      var i :| 0 <= i < |a| && a[i] == b[k];
    }
  }

  /** A non-empty sequence holds its first element. Stated as a lemma so
      that a caller whose facts already rule out a non-empty `s` can use it
      without indexing `s` itself. */
  lemma HeadIsMember<T>(s: seq<T>)
    ensures s == [] || s[0] in s
  {
  }

  /** Rows `a` and `b` fall in the same (subject, wave) group: they agree on
      the first two sort columns. */
  predicate SameGroup(a: seq<Value>, b: seq<Value>, ks: seq<nat>)
    requires |ks| == 3 && ks[0] < |a| && ks[1] < |a| && ks[0] < |b| && ks[1] < |b|
  {
    a[ks[0]] == b[ks[0]] && a[ks[1]] == b[ks[1]]
  }

  ghost predicate Wide(rows: seq<seq<Value>>, ks: seq<nat>)
  {
    forall i, j :: 0 <= i < |rows| && 0 <= j < |ks| ==> ks[j] < |rows[i]|
  }

  /** In a table sorted by (subject, wave, trial), every group is one
      contiguous block. */
  lemma SortedGroupsContiguous(rows: seq<seq<Value>>, ks: seq<nat>, i: nat, m: nat, j: nat)
    requires |ks| == 3 && Wide(rows, ks) && SortedBy(rows, ks)
    requires i < m < j < |rows| && SameGroup(rows[i], rows[j], ks)
    ensures SameGroup(rows[i], rows[m], ks)
  {
    KeyLeSandwich(KeyOf(rows[i], ks), KeyOf(rows[m], ks), KeyOf(rows[j], ks));
  }

  /** In a table sorted by (subject, wave, trial), the trial column ascends
      within every group. */
  lemma SortedGroupsAscend(rows: seq<seq<Value>>, ks: seq<nat>, i: nat, j: nat)
    requires |ks| == 3 && Wide(rows, ks) && SortedBy(rows, ks)
    requires i < j < |rows| && SameGroup(rows[i], rows[j], ks)
    ensures ValueLe(rows[i][ks[2]], rows[j][ks[2]])
  {
    KeyLeThird(KeyOf(rows[i], ks), KeyOf(rows[j], ks));
  }

  /** The number of rows whose cells at positions `ps` equal `k`. */
  function CountKey(rows: seq<seq<Value>>, ps: seq<nat>, k: seq<Value>): nat
  {
    if rows == [] then 0
    else (if KeyOf(rows[0], ps) == k then 1 else 0) + CountKey(rows[1..], ps, k)
  }

  lemma {:induction false} CountKeyAppend(a: seq<seq<Value>>, b: seq<seq<Value>>, ps: seq<nat>, k: seq<Value>)
    ensures CountKey(a + b, ps, k) == CountKey(a, ps, k) + CountKey(b, ps, k)
  {
    if a == [] {
      assert a + b == b;
    } else {
      assert (a + b)[1..] == a[1..] + b;
      CountKeyAppend(a[1..], b, ps, k);
    }
  }

  /** The count over a table is the count over its first `a` rows plus the
      count over the rest. */
  lemma CountKeySplit(rows: seq<seq<Value>>, a: nat, ps: seq<nat>, k: seq<Value>)
    requires a <= |rows|
    ensures CountKey(rows, ps, k) == CountKey(rows[..a], ps, k) + CountKey(rows[a..], ps, k)
  {
    assert rows == rows[..a] + rows[a..];
    CountKeyAppend(rows[..a], rows[a..], ps, k);
  }

  /** Counts depend only on the multiset of rows: sorting keeps every
      group's size. */
  /** Taking the row at `j` out of `b` leaves the others' keys. */
  lemma CountKeyRemove(b: seq<seq<Value>>, j: nat, ps: seq<nat>, k: seq<Value>)
    requires j < |b|
    ensures CountKey(b, ps, k) == CountKey(b[..j] + b[j + 1..], ps, k) + (if KeyOf(b[j], ps) == k then 1 else 0)
  {
    assert b == b[..j] + [b[j]] + b[j + 1..];
    CountKeyAppend(b[..j] + [b[j]], b[j + 1..], ps, k);
    CountKeyAppend(b[..j], [b[j]], ps, k);
    CountKeyAppend(b[..j], b[j + 1..], ps, k);
  }

  /** Taking the first row out of `a` and a copy of it out of `b` keeps
      them permutations of each other. */
  lemma RemoveAt(a: seq<seq<Value>>, b: seq<seq<Value>>, j: nat)
    requires multiset(a) == multiset(b) && a != [] && j < |b| && b[j] == a[0]
    ensures multiset(a[1..]) == multiset(b[..j] + b[j + 1..])
  {
    assert b == b[..j] + [b[j]] + b[j + 1..];
    assert a == [a[0]] + a[1..];
    assert multiset(a[1..]) == multiset(a) - multiset{a[0]};
    assert multiset(b[..j] + b[j + 1..]) == multiset(b) - multiset{b[j]};
  }

  lemma {:induction false} CountKeyPermutation(a: seq<seq<Value>>, b: seq<seq<Value>>, ps: seq<nat>, k: seq<Value>)
    requires multiset(a) == multiset(b)
    ensures CountKey(a, ps, k) == CountKey(b, ps, k)
    decreases |a|
  {
    if a != [] {
      assert a[0] in multiset(b);
      var j :| 0 <= j < |b| && b[j] == a[0];
      RemoveAt(a, b, j);
      CountKeyPermutation(a[1..], b[..j] + b[j + 1..], ps, k);
      CountKeyRemove(b, j, ps, k);
    } else {
      assert |b| == |multiset(b)| == 0;
    }
  }

  /** Concatenated frames that each hold `c` rows with key `k` hold
      |frames| * c of them together. */
  lemma {:induction false} CountKeyFlattenUniform(fs: seq<seq<seq<Value>>>, ps: seq<nat>, k: seq<Value>, c: nat)
    requires forall j :: 0 <= j < |fs| ==> CountKey(fs[j], ps, k) == c
    ensures CountKey(Flatten(fs), ps, k) == |fs| * c
  {
    if fs != [] {
      CountKeyFlattenUniform(fs[1..], ps, k, c);
      CountKeyAppend(fs[0], Flatten(fs[1..]), ps, k);
      assert |fs| * c == c + (|fs| - 1) * c;
    }
  }

  /** A row-wise operation that keeps the cells at positions `ps` keeps
      every count. */
  lemma {:induction false} CountKeyPointwise(a: seq<seq<Value>>, b: seq<seq<Value>>, ps: seq<nat>, k: seq<Value>)
    requires |a| == |b|
    requires forall i :: 0 <= i < |a| ==> KeyOf(a[i], ps) == KeyOf(b[i], ps)
    ensures CountKey(a, ps, k) == CountKey(b, ps, k)
  {
    if a != [] {
      CountKeyPointwise(a[1..], b[1..], ps, k);
    }
  }

  /** No row has key `k`: the count is zero. */
  lemma {:induction false} CountKeyNone(rows: seq<seq<Value>>, ps: seq<nat>, k: seq<Value>)
    requires forall i :: 0 <= i < |rows| ==> KeyOf(rows[i], ps) != k
    ensures CountKey(rows, ps, k) == 0
  {
    if rows != [] {
      CountKeyNone(rows[1..], ps, k);
    }
  }

  /** Keys ascending with no repeats, as groupby iterates over them. */
  ghost predicate StrictlyIncreasing(keys: seq<seq<Value>>)
  {
    forall i, j :: 0 <= i < j < |keys| ==> KeyLt(keys[i], keys[j])
  }

  /** A key groupby keeps: groupby drops a row when any key cell is NaN. */
  predicate NonNullKey(k: seq<Value>)
  {
    forall j :: 0 <= j < |k| ==> k[j] != Null
  }

  /** Adds `k` to an ascending list of distinct keys. */
  function InsertKey(k: seq<Value>, keys: seq<seq<Value>>): seq<seq<Value>>
  {
    if keys == [] then [k]
    else if k == keys[0] then keys
    else if KeyLe(k, keys[0]) then [k] + keys
    else [keys[0]] + InsertKey(k, keys[1..])
  }

  /** Inserting into an ascending list of distinct keys keeps it so, and adds
      exactly `k`. */
  lemma {:induction false} InsertKeySpec(k: seq<Value>, keys: seq<seq<Value>>)
    requires StrictlyIncreasing(keys)
    ensures StrictlyIncreasing(InsertKey(k, keys))
    ensures forall x :: x in InsertKey(k, keys) <==> x == k || x in keys
  {
    if keys == [] || k == keys[0] {
    } else if KeyLe(k, keys[0]) {
      InsertKeyFront(k, keys);
    } else {
      KeyLeTotal(k, keys[0]);
      InsertKeySpec(k, keys[1..]);
      InsertKeyBehind(k, keys, InsertKey(k, keys[1..]));
    }
  }

  lemma InsertKeyFront(k: seq<Value>, keys: seq<seq<Value>>)
    requires StrictlyIncreasing(keys) && keys != [] && KeyLt(k, keys[0])
    ensures StrictlyIncreasing([k] + keys)
  {
    var r := [k] + keys;
    forall i, j | 0 <= i < j < |r| ensures KeyLt(r[i], r[j]) {
      if i == 0 && j > 1 {
        KeyLeTransitive(k, keys[0], keys[j - 1]);
        if k == keys[j - 1] {
          KeyLeAntisymmetric(k, keys[0]);
        }
      }
    }
  }

  lemma InsertKeyBehind(k: seq<Value>, keys: seq<seq<Value>>, t: seq<seq<Value>>)
    requires StrictlyIncreasing(keys) && keys != [] && StrictlyIncreasing(t)
    requires KeyLt(keys[0], k)
    requires forall x :: x in t <==> x == k || x in keys[1..]
    ensures StrictlyIncreasing([keys[0]] + t)
  {
    var r := [keys[0]] + t;
    forall i, j | 0 <= i < j < |r| ensures KeyLt(r[i], r[j]) {
      if i == 0 {
        assert r[j] in t;
        if r[j] != k {
          var m :| 0 <= m < |keys[1..]| && keys[1..][m] == r[j];
          assert keys[m + 1] == r[j];
        }
      }
    }
  }

  /** The keys groupby iterates over: the distinct non-null keys, ascending. */
  function GroupKeys(keys: seq<seq<Value>>): seq<seq<Value>>
  {
    if keys == [] then []
    else
      var t := GroupKeys(keys[..|keys| - 1]);
      if NonNullKey(keys[|keys| - 1]) then InsertKey(keys[|keys| - 1], t) else t
  }

  /** GroupKeys lists each non-null key once, in ascending order. */
  lemma {:induction false} GroupKeysSpec(keys: seq<seq<Value>>)
    ensures StrictlyIncreasing(GroupKeys(keys))
    ensures forall x :: x in GroupKeys(keys) <==> x in keys && NonNullKey(x)
  {
    if keys != [] {
      var p := keys[..|keys| - 1];
      GroupKeysSpec(p);
      assert keys == p + [keys[|keys| - 1]];
      if NonNullKey(keys[|keys| - 1]) {
        InsertKeySpec(keys[|keys| - 1], GroupKeys(p));
      }
    }
  }

  /** An ascending list of distinct keys is fixed by its elements. */
  lemma {:induction false} StrictlyIncreasingUnique(a: seq<seq<Value>>, b: seq<seq<Value>>)
    requires StrictlyIncreasing(a) && StrictlyIncreasing(b)
    requires forall x :: x in a <==> x in b
    ensures a == b
    decreases |a|
  {
    if a != [] {
      assert a[0] in b;
      assert b != [] && b[0] in a;
      var i :| 0 <= i < |a| && a[i] == b[0];
      var j :| 0 <= j < |b| && b[j] == a[0];
      if a[0] != b[0] {
        assert i > 0 && j > 0;
        assert KeyLe(a[0], b[0]) && KeyLe(b[0], a[0]);
        KeyLeAntisymmetric(a[0], b[0]);
      }
      forall x ensures x in a[1..] <==> x in b[1..] {
        if x in a[1..] {
          var m :| 0 <= m < |a[1..]| && a[1..][m] == x;
          assert a[m + 1] == x && x != a[0];
          assert x in b;
        }
        if x in b[1..] {
          var m :| 0 <= m < |b[1..]| && b[1..][m] == x;
          assert b[m + 1] == x && x != b[0];
          assert x in a;
        }
      }
      StrictlyIncreasingUnique(a[1..], b[1..]);
      assert a == [a[0]] + a[1..] && b == [b[0]] + b[1..];
    } else {
      HeadIsMember(b);
    }
  }

  /** How often `k` occurs in `keys`. */
  function Occurrences(keys: seq<seq<Value>>, k: seq<Value>): nat
  {
    if keys == [] then 0 else (if keys[0] == k then 1 else 0) + Occurrences(keys[1..], k)
  }

  lemma {:induction false} OccurrencesPositive(keys: seq<seq<Value>>, k: seq<Value>)
    ensures Occurrences(keys, k) > 0 <==> k in keys
  {
    if keys != [] {
      OccurrencesPositive(keys[1..], k);
      assert keys == [keys[0]] + keys[1..];
    }
  }

  /** Rows built one per key carry each key as often as the list does. */
  lemma {:induction false} CountKeyByKeys(rows: seq<seq<Value>>, ps: seq<nat>, keys: seq<seq<Value>>, k: seq<Value>)
    requires |rows| == |keys|
    requires forall i :: 0 <= i < |rows| ==> KeyOf(rows[i], ps) == keys[i]
    ensures CountKey(rows, ps, k) == Occurrences(keys, k)
  {
    if rows != [] {
      CountKeyByKeys(rows[1..], ps, keys[1..], k);
    }
  }

  /** The rows of `rows` from position `a` on carry the keys `keys` on
      columns `ps`, one row per key, in order. */
  predicate KeysFrom(rows: seq<seq<Value>>, a: nat, ps: seq<nat>, keys: seq<seq<Value>>)
  {
    a + |keys| == |rows| && forall h :: 0 <= h < |keys| ==> KeyOf(rows[a + h], ps) == keys[h]
  }

  /** Those rows carry each key as often as the list does. */
  lemma CountKeyTail(rows: seq<seq<Value>>, a: nat, ps: seq<nat>, keys: seq<seq<Value>>, k: seq<Value>)
    requires KeysFrom(rows, a, ps, keys)
    ensures CountKey(rows[a..], ps, k) == Occurrences(keys, k)
  {
    forall h | 0 <= h < |keys| ensures KeyOf(rows[a..][h], ps) == keys[h] {
      assert rows[a..][h] == rows[a + h];
    }
    CountKeyByKeys(rows[a..], ps, keys, k);
  }

  /** Every key extended by the cell `v`. */
  function Extended(keys: seq<seq<Value>>, v: Value): (ext: seq<seq<Value>>)
    ensures |ext| == |keys| && forall i :: 0 <= i < |keys| ==> ext[i] == keys[i] + [v]
  {
    seq(|keys|, i requires 0 <= i < |keys| => keys[i] + [v])
  }

  /** Extending every key by the same cell `v` keeps every count. */
  lemma {:induction false} OccurrencesExtended(keys: seq<seq<Value>>, ext: seq<seq<Value>>, k: seq<Value>, v: Value)
    requires |ext| == |keys| && forall i :: 0 <= i < |keys| ==> ext[i] == keys[i] + [v]
    ensures Occurrences(ext, k + [v]) == Occurrences(keys, k)
  {
    if keys != [] {
      OccurrencesExtended(keys[1..], ext[1..], k, v);
      assert ext[0] == k + [v] ==> ext[0][..|ext[0]| - 1] == k;
    }
  }

  /** A key occurs once in an ascending list of distinct keys that holds it. */
  lemma {:induction false} OccurrencesStrict(keys: seq<seq<Value>>, k: seq<Value>)
    requires StrictlyIncreasing(keys)
    ensures Occurrences(keys, k) == if k in keys then 1 else 0
  {
    if keys != [] {
      OccurrencesStrict(keys[1..], k);
      if keys[0] == k {
        forall m | 0 <= m < |keys[1..]| ensures keys[1..][m] != k {
          assert KeyLt(keys[0], keys[m + 1]);
        }
      }
      assert keys == [keys[0]] + keys[1..];
    }
  }
}
