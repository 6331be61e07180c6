/** The tabular data both converters work on: an already-parsed wide input
    table, the cell values pandas would hold, the errors a conversion can
    raise, and the long output table. */
module Frames {

  /** One cell. `Null` stands for pandas' NaN/None, `I` for an integer, `R`
      for a float (modelled as an exact real) and `S` for a string. */
  datatype Value = Null | I(i: int) | S(s: string) | R(r: real)

  /** One input row: column name to cell. */
  type Row = map<string, Value>

  /** A parsed input file: the header as a set (the converters only test
      column presence) and the data rows in file order. */
  datatype Table = Table(columns: set<string>, rows: seq<Row>)

  /** The long table written out: header in output order and one cell per
      header column in every row. */
  datatype Output = Output(header: seq<string>, rows: seq<seq<Value>>)

  /** Why a conversion stops without writing anything. */
  datatype Error =
    | MissingColumns(names: seq<string>)   // KeyError on a projection or a column access
    | NothingToConcatenate                 // pd.concat of an empty list
    | UnparsableSetSize                    // a set-size cell astype(int) cannot convert
    | NonNumericScore                      // a string total score divided by 24

  datatype Option<T> = None | Some(value: T)

  datatype Result<T> = Success(value: T) | Failure(error: Error)

  /** The cell of `row` in column `c`; a column the row does not carry reads
      as null, as it does after pandas aligns frames. */
  function Cell(row: Row, c: string): Value
  {
    if c in row then row[c] else Null
  }

  /** The columns of `wanted` that the table lacks, in `wanted`'s order: the
      list a pandas KeyError reports for `df[wanted]`. */
  function Missing(wanted: seq<string>, present: set<string>): (r: seq<string>)
    ensures forall c :: c in r <==> c in wanted && c !in present
    ensures |r| <= |wanted|
    ensures r == [] <==> forall k :: 0 <= k < |wanted| ==> wanted[k] in present
  {
    if wanted == [] then []
    else (if wanted[0] in present then [] else [wanted[0]]) + Missing(wanted[1..], present)
  }

  /** pd.concat of a list of frames, each a sequence of rows. */
  function Flatten<T>(frames: seq<seq<T>>): seq<T>
  {
    if frames == [] then [] else frames[0] + Flatten(frames[1..])
  }

  lemma {:induction false} FlattenAppend<T>(frames: seq<seq<T>>, f: seq<T>)
    ensures Flatten(frames + [f]) == Flatten(frames) + f
  {
    if frames == [] {
      assert frames + [f] == [f];
    } else {
      assert (frames + [f])[1..] == frames[1..] + [f];
      FlattenAppend(frames[1..], f);
    }
  }

  /** Every position of a concatenation falls in one of the frames. */
  lemma {:induction false} FlattenIndex<T>(fs: seq<seq<T>>, k: nat)
    requires k < |Flatten(fs)|
    ensures exists j, i :: 0 <= j < |fs| && 0 <= i < |fs[j]| && Flatten(fs)[k] == fs[j][i]
  {
    if k >= |fs[0]| {
      FlattenIndex(fs[1..], k - |fs[0]|);
      var j, i :| 0 <= j < |fs[1..]| && 0 <= i < |fs[1..][j]| && Flatten(fs[1..])[k - |fs[0]|] == fs[1..][j][i];
      assert Flatten(fs)[k] == fs[j + 1][i];
    } else {
      assert Flatten(fs)[k] == fs[0][k];
    }
  }

  /** A row-wise operation `f` applied to every row of every frame is the
      same as `f` applied to every row of their concatenation. */
  lemma {:induction false} FlattenPointwise<A, B>(fs: seq<seq<A>>, gs: seq<seq<B>>, f: A -> B)
    requires |fs| == |gs|
    requires forall j :: 0 <= j < |fs| ==> |gs[j]| == |fs[j]|
    requires forall j, i :: 0 <= j < |fs| && 0 <= i < |fs[j]| ==> gs[j][i] == f(fs[j][i])
    ensures |Flatten(gs)| == |Flatten(fs)|
    ensures forall k :: 0 <= k < |Flatten(fs)| ==> Flatten(gs)[k] == f(Flatten(fs)[k])
  {
    if fs != [] {
      FlattenPointwise(fs[1..], gs[1..], f);
      assert |gs[0]| == |fs[0]|;
      forall k | 0 <= k < |Flatten(fs)| ensures Flatten(gs)[k] == f(Flatten(fs)[k]) {
        if k < |fs[0]| {
          assert Flatten(fs)[k] == fs[0][k];
          assert Flatten(gs)[k] == gs[0][k];
        } else {
          assert Flatten(fs)[k] == Flatten(fs[1..])[k - |fs[0]|];
          assert Flatten(gs)[k] == Flatten(gs[1..])[k - |gs[0]|];
        }
      }
    }
  }

  /** A value is in a concatenation exactly when it is in one of the frames. */
  lemma {:induction false} FlattenMembers<T>(fs: seq<seq<T>>, x: T)
    ensures x in Flatten(fs) <==> exists j :: 0 <= j < |fs| && x in fs[j]
  {
    if fs != [] {
      FlattenMembers(fs[1..], x);
      if x in Flatten(fs[1..]) {
        var j :| 0 <= j < |fs[1..]| && x in fs[1..][j];
        assert x in fs[j + 1];
      }
      if exists j :: 0 <= j < |fs| && x in fs[j] {
        var j :| 0 <= j < |fs| && x in fs[j];
        if j > 0 {
          assert fs[1..][j - 1] == fs[j];
        }
      }
    }
  }

  /** A row-wise operation that maps `a` onto `x` and `b` onto `y` maps
      their concatenation onto `x + y`. */
  lemma ConcatPointwise<A, B>(a: seq<A>, b: seq<A>, x: seq<B>, y: seq<B>, f: A -> B)
    requires |a| == |x| && forall i :: 0 <= i < |a| ==> f(a[i]) == x[i]
    requires |b| == |y| && forall i :: 0 <= i < |b| ==> f(b[i]) == y[i]
    ensures |a + b| == |x + y| && forall i :: 0 <= i < |a + b| ==> f((a + b)[i]) == (x + y)[i]
  {
  }

  /** Concatenating one or more copies of the same frame yields exactly the
      values of that frame. */
  lemma {:induction false} FlattenCopiesValues<T>(fs: seq<seq<T>>, x: seq<T>)
    requires |fs| > 0
    requires forall j :: 0 <= j < |fs| ==> fs[j] == x
    ensures forall v :: v in Flatten(fs) <==> v in x
    ensures |Flatten(fs)| >= |x| && Flatten(fs)[..|x|] == x
  {
    if |fs| > 1 {
      FlattenCopiesValues(fs[1..], x);
    } else {
      assert fs[1..] == [];
    }
    assert Flatten(fs) == x + Flatten(fs[1..]);
  }

  /** The trial value that sort_values sees on a summary row: the column is
      NaN there and fillna(9999) puts it last within its group. */
  const Sentinel: int := 9999

  /** replace(9999, "") on the column at position `t`. */
  function BlankSentinel(row: seq<Value>, t: nat): (r: seq<Value>)
    requires t < |row|
    ensures |r| == |row| && r[t] != I(Sentinel)
    ensures forall k :: 0 <= k < |row| && k != t ==> r[k] == row[k]
    ensures row[t] != I(Sentinel) ==> r == row
    ensures row[t] == I(Sentinel) ==> r == row[t := S("")]
  {
    if row[t] == I(Sentinel) then row[t := S("")] else row
  }

  /** The column-wise replace(9999, "") over a whole table. */
  function BlankSentinels(rows: seq<seq<Value>>, t: nat): (r: seq<seq<Value>>)
    requires forall k :: 0 <= k < |rows| ==> t < |rows[k]|
    ensures |r| == |rows|
    ensures forall k :: 0 <= k < |rows| ==> r[k] == BlankSentinel(rows[k], t)
  {
    seq(|rows|, k requires 0 <= k < |rows| => BlankSentinel(rows[k], t))
  }
}
