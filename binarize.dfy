/**
 * The binarization step of the dashboard (`preprocess_data`, index.py:139-154):
 * every cell of the uploaded table is coerced to a number, NaN is filled with 0,
 * and each value becomes 1 when it is strictly positive and 0 otherwise.
 *
 * Each of the three pandas calls is an element-wise pass over the whole table,
 * so each is modelled as one MapTable of a per-cell function.
 */
module Binarize {
  import opened Wrappers

  /** A cell of the uploaded table. Whether a piece of CSV text parses as a
      number is decided before the model sees the cell: a parsable cell is
      `Num`, an unparsable one `NonNumeric`, an empty one `Missing`. */
  datatype Cell = Num(r: real) | NonNumeric | Missing

  type Table = seq<seq<Cell>>

  /** Same number of rows, and each row the same number of columns. */
  ghost predicate SameShape<A, B>(a: seq<seq<A>>, b: seq<seq<B>>)
  {
    |a| == |b| && forall i :: 0 <= i < |a| ==> |a[i]| == |b[i]|
  }

  /** Every cell is exactly 0 or 1. */
  ghost predicate IsBinary(m: seq<seq<int>>)
  {
    forall i, j :: 0 <= i < |m| && 0 <= j < |m[i]| ==> m[i][j] == 0 || m[i][j] == 1
  }

  /** One row of an element-wise pass (`applymap`, or `apply` of an element-wise function). */
  function MapRow<A, B>(row: seq<A>, f: A -> B): (r: seq<B>)
    ensures |r| == |row|
    ensures forall j :: 0 <= j < |row| ==> r[j] == f(row[j])
  {
    if row == [] then [] else [f(row[0])] + MapRow(row[1..], f)
  }

  /** An element-wise pass over a whole table: no row or column is added or dropped. */
  function MapTable<A, B>(t: seq<seq<A>>, f: A -> B): (r: seq<seq<B>>)
    ensures SameShape(t, r)
    ensures forall i, j :: 0 <= i < |t| && 0 <= j < |t[i]| ==> r[i][j] == f(t[i][j])
  {
    if t == [] then [] else [MapRow(t[0], f)] + MapTable(t[1..], f)
  }

  /** `pd.to_numeric(errors="coerce")` on one cell: a number stays, anything else is NaN. */
  function ToNumeric(c: Cell): Option<real>
  {
    match c
    case Num(r) => Some(r)
    case NonNumeric => None
    case Missing => None
  }

  /** `fillna(0)` on one cell. */
  function FillNaZero(x: Option<real>): real
  {
    if x.Some? then x.value else 0.0
  }

  /** `lambda x: 1 if x > 0 else 0`. */
  function Presence(x: real): int
  {
    if x > 0.0 then 1 else 0
  }

  /** A cell that counts as present: a number strictly greater than 0. */
  predicate Positive(c: Cell)
  {
    c.Num? && c.r > 0.0
  }

  /** `preprocess_data`: the 0/1 presence matrix of the uploaded table. */
  function PreprocessData(t: Table): (b: seq<seq<int>>)
    ensures SameShape(t, b)
    ensures IsBinary(b)
    ensures forall i, j :: 0 <= i < |t| && 0 <= j < |t[i]| ==>
              (b[i][j] == 1 <==> Positive(t[i][j]))
  {
    var numeric := MapTable(t, ToNumeric);
    var filled := MapTable(numeric, FillNaZero);
    MapTable(filled, Presence)
  }

  /** How pandas sees an integer matrix when it is handed to `preprocess_data`
      again: every cell already numeric. */
  function AsCells(m: seq<seq<int>>): (t: Table)
    ensures SameShape(m, t)
    ensures forall i, j :: 0 <= i < |m| && 0 <= j < |m[i]| ==> t[i][j] == Num(m[i][j] as real)
  {
    MapTable(m, (x: int) => Num(x as real))
  }

  /** A 0/1 matrix is left unchanged by binarization. */
  lemma {:induction false} BinaryIsFixedPoint(m: seq<seq<int>>)
    requires IsBinary(m)
    ensures PreprocessData(AsCells(m)) == m
  {
    var b := PreprocessData(AsCells(m));
    assert |b| == |m|;
    forall i | 0 <= i < |m|
      ensures b[i] == m[i]
    {
      assert |b[i]| == |m[i]|;
      forall j | 0 <= j < |m[i]|
        ensures b[i][j] == m[i][j]
      {
        assert AsCells(m)[i][j] == Num(m[i][j] as real);
      }
    }
  }

  /** Binarization is idempotent. */
  lemma {:induction false} PreprocessIdempotent(t: Table)
    ensures PreprocessData(AsCells(PreprocessData(t))) == PreprocessData(t)
  {
    BinaryIsFixedPoint(PreprocessData(t));
  }
}
