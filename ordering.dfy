/** The order sort_values and groupby put key values in. Within one kind of
    value the order is the natural one (integers and reals numerically,
    strings by code point, as Python compares them); nulls go last, as with
    na_position='last'. A key is compared lexicographically, column by
    column. */
module Ordering {
  import opened Frames

  /** Python's string comparison: lexicographic on code points, a proper
      prefix first. */
  predicate StrLe(a: string, b: string)
    decreases |a|
  {
    a == [] || (b != [] && (a[0] < b[0] || (a[0] == b[0] && StrLe(a[1..], b[1..]))))
  }

  lemma {:induction false} StrLeReflexive(a: string)
    ensures StrLe(a, a)
    decreases |a|
  {
    if a != [] {
      StrLeReflexive(a[1..]);
    }
  }

  lemma {:induction false} StrLeTotal(a: string, b: string)
    ensures StrLe(a, b) || StrLe(b, a)
    decreases |a|
  {
    if a != [] && b != [] && a[0] == b[0] {
      StrLeTotal(a[1..], b[1..]);
    }
  }

  lemma {:induction false} StrLeAntisymmetric(a: string, b: string)
    requires StrLe(a, b) && StrLe(b, a)
    ensures a == b
    decreases |a|
  {
    if a != [] {
      StrLeAntisymmetric(a[1..], b[1..]);
      assert a == [a[0]] + a[1..] && b == [b[0]] + b[1..];
    }
  }

  lemma {:induction false} StrLeTransitive(a: string, b: string, c: string)
    requires StrLe(a, b) && StrLe(b, c)
    ensures StrLe(a, c)
    decreases |a|
  {
    if a != [] && a[0] == b[0] && b[0] == c[0] {
      StrLeTransitive(a[1..], b[1..], c[1..]);
    }
  }

  /** Kinds in ascending order; null is greatest. */
  function Rank(v: Value): nat
  {
    match v
    case I(_) => 0
    case R(_) => 1
    case S(_) => 2
    case Null => 3
  }

  predicate ValueLe(a: Value, b: Value)
  {
    if Rank(a) != Rank(b) then Rank(a) < Rank(b)
    else match a
      case I(x) => x <= b.i
      case R(x) => x <= b.r
      case S(x) => StrLe(x, b.s)
      case Null => true
  }

  predicate ValueLt(a: Value, b: Value)
  {
    ValueLe(a, b) && a != b
  }

  lemma ValueLeReflexive(a: Value)
    ensures ValueLe(a, a)
  {
    if a.S? {
      StrLeReflexive(a.s);
    }
  }

  lemma ValueLeTotal(a: Value, b: Value)
    ensures ValueLe(a, b) || ValueLe(b, a)
  {
    if a.S? && b.S? {
      StrLeTotal(a.s, b.s);
    }
  }

  lemma ValueLeAntisymmetric(a: Value, b: Value)
    requires ValueLe(a, b) && ValueLe(b, a)
    ensures a == b
  {
    if a.S? && b.S? {
      StrLeAntisymmetric(a.s, b.s);
    }
  }

  lemma ValueLeTransitive(a: Value, b: Value, c: Value)
    requires ValueLe(a, b) && ValueLe(b, c)
    ensures ValueLe(a, c)
  {
    if a.S? && b.S? && c.S? {
      StrLeTransitive(a.s, b.s, c.s);
    }
  }

  /** Lexicographic order on keys, first column first. */
  predicate KeyLe(a: seq<Value>, b: seq<Value>)
    decreases |a|
  {
    a == [] || (b != [] && (ValueLt(a[0], b[0]) || (a[0] == b[0] && KeyLe(a[1..], b[1..]))))
  }

  predicate KeyLt(a: seq<Value>, b: seq<Value>)
  {
    KeyLe(a, b) && a != b
  }

  lemma {:induction false} KeyLeTotal(a: seq<Value>, b: seq<Value>)
    ensures KeyLe(a, b) || KeyLe(b, a)
    decreases |a|
  {
    if a != [] && b != [] {
      ValueLeTotal(a[0], b[0]);
      if a[0] == b[0] {
        KeyLeTotal(a[1..], b[1..]);
      }
    }
  }

  lemma {:induction false} KeyLeAntisymmetric(a: seq<Value>, b: seq<Value>)
    requires KeyLe(a, b) && KeyLe(b, a)
    ensures a == b
    decreases |a|
  {
    if a != [] {
      if a[0] != b[0] {
        ValueLeAntisymmetric(a[0], b[0]);
      }
      KeyLeAntisymmetric(a[1..], b[1..]);
      assert a == [a[0]] + a[1..] && b == [b[0]] + b[1..];
    }
  }

  lemma {:induction false} KeyLeTransitive(a: seq<Value>, b: seq<Value>, c: seq<Value>)
    requires KeyLe(a, b) && KeyLe(b, c)
    ensures KeyLe(a, c)
    decreases |a|
  {
    if a != [] {
      if a[0] == b[0] && b[0] == c[0] {
        KeyLeTransitive(a[1..], b[1..], c[1..]);
      } else {
        ValueLeReflexive(b[0]);
        ValueLeTransitive(a[0], b[0], c[0]);
        if a[0] == c[0] {
          ValueLeAntisymmetric(a[0], b[0]);
        }
      }
    }
  }

  /** Two keys of length three in order whose first two columns agree are
      ordered by their third column. */
  lemma KeyLeThird(a: seq<Value>, b: seq<Value>)
    requires |a| == 3 && |b| == 3 && KeyLe(a, b)
    requires a[0] == b[0] && a[1] == b[1]
    ensures ValueLe(a[2], b[2])
  {
    ValueLeReflexive(a[2]);
    assert !ValueLt(a[0], b[0]) && KeyLe(a[1..], b[1..]);
    assert a[1..][0] == a[1] && b[1..][0] == b[1];
    assert KeyLe(a[1..][1..], b[1..][1..]);
    assert a[1..][1..] == [a[2]] && b[1..][1..] == [b[2]];
  }

  /** Keys of length three in order have their first two columns in order:
      sorting by (subject, wave, trial) sorts by (subject, wave). */
  lemma KeyLePrefix(a: seq<Value>, b: seq<Value>)
    requires |a| == 3 && |b| == 3 && KeyLe(a, b)
    ensures KeyLe(a[..2], b[..2])
  {
    if a[0] == b[0] {
      assert a[1..][0] == a[1] && b[1..][0] == b[1];
      assert a[..2][1..] == [a[1]] && b[..2][1..] == [b[1]];
      if a[1] == b[1] {
        assert KeyLe([a[1]][1..], [b[1]][1..]);
      }
    }
  }

  /** If a <= m <= c and a and c agree on the first two of three columns, so
      does m. */
  lemma KeyLeSandwich(a: seq<Value>, m: seq<Value>, c: seq<Value>)
    requires |a| == 3 && |m| == 3 && |c| == 3
    requires KeyLe(a, m) && KeyLe(m, c)
    requires a[0] == c[0] && a[1] == c[1]
    ensures m[0] == a[0] && m[1] == a[1]
  {
    if m[0] != a[0] {
      ValueLeAntisymmetric(a[0], m[0]);
    } else if m[1] != a[1] {
      ValueLeAntisymmetric(a[1], m[1]);
    }
  }
}
