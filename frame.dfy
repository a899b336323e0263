/**
 * The uploaded table as the dashboard script holds it in `data`, and the one
 * in-place change it makes to it: the "Age Group" column written at
 * index.py:122 before the table is binarized at index.py:157.
 */
module Frame {
  import opened Wrappers
  import opened Binarize
  import opened AgeGroups

  /** The table as `pd.read_csv` returns it: named columns and rows of cells. */
  datatype Data = Data(columns: seq<string>, rows: Table)

  ghost predicate Distinct(names: seq<string>)
  {
    forall i, j :: 0 <= i < j < |names| ==> names[i] != names[j]
  }

  /** Column names are unique (read_csv renames duplicates) and every row has
      one cell per column. */
  ghost predicate WellFormed(d: Data)
  {
    Distinct(d.columns) && forall i :: 0 <= i < |d.rows| ==> |d.rows[i]| == |d.columns|
  }

  /** Position of a column name. */
  function IndexOf(columns: seq<string>, name: string): (r: Option<nat>)
    ensures r.Some? <==> name in columns
    ensures r.Some? ==> r.value < |columns| && columns[r.value] == name
  {
    if columns == [] then None
    else if columns[0] == name then Some(0)
    else
      var rest := IndexOf(columns[1..], name);
      if rest.Some? then Some(rest.value + 1) else None
  }

  /** `d[name] = cells`: an existing column of that name is overwritten in
      place, otherwise a new column is appended at the right. */
  function SetColumn(d: Data, name: string, cells: seq<Cell>): (r: Data)
    requires WellFormed(d) && |cells| == |d.rows|
    ensures WellFormed(r) && |r.rows| == |d.rows|
    ensures r.columns == if name in d.columns then d.columns else d.columns + [name]
    ensures forall i, j :: 0 <= i < |r.rows| && 0 <= j < |r.columns| ==>
              r.rows[i][j] == if r.columns[j] == name then cells[i] else d.rows[i][j]
  {
    match IndexOf(d.columns, name)
    case Some(k) =>
      Data(d.columns, seq(|d.rows|, i requires 0 <= i < |d.rows| => d.rows[i][k := cells[i]]))
    case None =>
      Data(d.columns + [name], seq(|d.rows|, i requires 0 <= i < |d.rows| => d.rows[i] + [cells[i]]))
  }

  /** The value `pd.cut` reads from an "Age" cell; it cannot read a text cell. */
  function AgeValue(c: Cell): Option<real>
    requires !c.NonNumeric?
  {
    if c.Num? then Some(c.r) else None
  }

  /** The ages of column k, or None when some cell of it is text: read_csv then
      gives the column an object dtype and `pd.cut` raises a TypeError. */
  function AgeColumn(rows: Table, k: nat): (ages: Option<seq<Option<real>>>)
    requires forall i :: 0 <= i < |rows| ==> k < |rows[i]|
    ensures ages.Some? <==> forall i :: 0 <= i < |rows| ==> !rows[i][k].NonNumeric?
    ensures ages.Some? ==> |ages.value| == |rows|
    ensures ages.Some? ==> forall i :: 0 <= i < |rows| ==> ages.value[i] == AgeValue(rows[i][k])
  {
    if rows == [] then Some([])
    else if rows[0][k].NonNumeric? then None
    else
      var rest := AgeColumn(rows[1..], k);
      if rest.Some? then Some([AgeValue(rows[0][k])] + rest.value) else None
  }

  /** The "Age Group" cell of one age: a label, whose text is not a number, or
      NaN when the age has no group. */
  function GroupCell(age: Option<real>): Cell
  {
    if AgeGroup(age).Some? then NonNumeric else Missing
  }

  function GroupCells(ages: seq<Option<real>>): (cells: seq<Cell>)
    ensures |cells| == |ages|
    ensures forall i :: 0 <= i < |ages| ==> cells[i] == GroupCell(ages[i])
  {
    MapRow(ages, GroupCell)
  }

  /** What the age-group block (index.py:119-132) produces for the chart. */
  datatype AgeChart =
    | NoAgeColumn                                   // the warning of index.py:132
    | AgeNotNumeric                                 // pd.cut raises; the run stops
    | AgeCounts(counts: seq<(AgeLabel, nat)>)       // the bar chart's data

  /** The effect of index.py:119-124 on `data` and the chart it draws. */
  function AgeStage(d: Data): (r: (AgeChart, Data))
    requires WellFormed(d)
    ensures WellFormed(r.1) && |r.1.rows| == |d.rows|
    ensures r.0.NoAgeColumn? <==> "Age" !in d.columns
    ensures !r.0.AgeCounts? ==> r.1 == d
    ensures r.0.AgeCounts? ==>
              && |r.0.counts| == |Labels|
              && (forall k :: 0 <= k < |Labels| ==> r.0.counts[k].0 == Labels[k])
              && r.1.columns == (if "Age Group" in d.columns then d.columns else d.columns + ["Age Group"])
    ensures "Age" in d.columns ==>
              (r.0.AgeNotNumeric? <==>
                 exists i :: 0 <= i < |d.rows| && d.rows[i][IndexOf(d.columns, "Age").value].NonNumeric?)
    ensures r.0.AgeCounts? ==>
              var ages := AgeColumn(d.rows, IndexOf(d.columns, "Age").value).value;
              && r.0.counts == AgeGroupCounts(ages)
              && forall i, j :: 0 <= i < |r.1.rows| && 0 <= j < |r.1.columns| ==>
                   r.1.rows[i][j] == if r.1.columns[j] == "Age Group" then GroupCell(ages[i]) else d.rows[i][j]
  {
    match IndexOf(d.columns, "Age")
    case None => (NoAgeColumn, d)
    case Some(k) =>
      match AgeColumn(d.rows, k)
      case None => (AgeNotNumeric, d)
      case Some(ages) => (AgeCounts(AgeGroupCounts(ages)), SetColumn(d, "Age Group", GroupCells(ages)))
  }

  /** The chart's counts add up to the ages of the "Age" column that lie in (0, 100]. */
  lemma {:induction false} AgeStageCountsTotal(d: Data)
    requires WellFormed(d)
    requires AgeStage(d).0.AgeCounts?
    ensures Total(AgeStage(d).0.counts)
              == CountInRange(AgeColumn(d.rows, IndexOf(d.columns, "Age").value).value)
  {
    CountsSumToInRange(AgeColumn(d.rows, IndexOf(d.columns, "Age").value).value);
  }

  /** Writing a column whose cells are never positive numbers puts a column of
      zeros into the binarized table and leaves every other column's bits as
      they were. */
  lemma {:induction false} SetColumnBinarizes(d: Data, name: string, cells: seq<Cell>)
    requires WellFormed(d) && |cells| == |d.rows|
    requires forall i :: 0 <= i < |cells| ==> !Positive(cells[i])
    ensures forall i, j :: 0 <= i < |d.rows| && 0 <= j < |SetColumn(d, name, cells).columns| ==>
              PreprocessData(SetColumn(d, name, cells).rows)[i][j]
                == if SetColumn(d, name, cells).columns[j] == name then 0 else PreprocessData(d.rows)[i][j]
  {
    var r := SetColumn(d, name, cells);
    var b, b0 := PreprocessData(r.rows), PreprocessData(d.rows);
    forall i, j | 0 <= i < |d.rows| && 0 <= j < |r.columns|
      ensures b[i][j] == if r.columns[j] == name then 0 else b0[i][j]
    {
      assert |r.rows[i]| == |r.columns|;
      var c := if r.columns[j] == name then cells[i] else d.rows[i][j];
      assert r.rows[i][j] == c;
      assert b[i][j] == 1 <==> Positive(c);
      if r.columns[j] != name {
        assert j < |d.columns| == |d.rows[i]|;
        assert b0[i][j] == 1 <==> Positive(c);
      }
    }
  }

  /** After the age block, every column of the upload other than "Age Group"
      binarizes cell by cell from the uploaded cell. */
  lemma {:induction false} UploadedColumnsKeepBits(d: Data)
    requires WellFormed(d)
    ensures var b := PreprocessData(AgeStage(d).1.rows);
            forall i, j :: 0 <= i < |b| && 0 <= j < |d.columns| && d.columns[j] != "Age Group" ==>
              (b[i][j] == 1 <==> Positive(d.rows[i][j]))
  {
    var r := AgeStage(d);
    var b := PreprocessData(r.1.rows);
    forall i, j | 0 <= i < |b| && 0 <= j < |d.columns| && d.columns[j] != "Age Group"
      ensures b[i][j] == 1 <==> Positive(d.rows[i][j])
    {
      assert r.1.columns[j] == d.columns[j];
      assert r.1.rows[i][j] == d.rows[i][j];
      assert b[i][j] == 1 <==> Positive(r.1.rows[i][j]);
    }
  }

  /** A written "Age Group" column binarizes to all zeros. */
  lemma {:induction false} AgeGroupColumnIsZero(d: Data)
    requires WellFormed(d)
    requires AgeStage(d).0.AgeCounts?
    ensures var r := AgeStage(d);
            var b := PreprocessData(r.1.rows);
            forall i, j :: 0 <= i < |b| && 0 <= j < |r.1.columns| && r.1.columns[j] == "Age Group" ==> b[i][j] == 0
  {
    var r := AgeStage(d);
    var b := PreprocessData(r.1.rows);
    var ages := AgeColumn(d.rows, IndexOf(d.columns, "Age").value).value;
    forall i, j | 0 <= i < |b| && 0 <= j < |r.1.columns| && r.1.columns[j] == "Age Group"
      ensures b[i][j] == 0
    {
      assert r.1.rows[i][j] == GroupCell(ages[i]);
      assert b[i][j] == 1 <==> Positive(r.1.rows[i][j]);
    }
  }

  /** The `data` variable of the script: a table that the age-group block
      changes in place. */
  class DataFrame {
    var columns: seq<string>
    var rows: Table

    ghost predicate Valid()
      reads this
    {
      WellFormed(Data(columns, rows))
    }

    /** `data = pd.read_csv(uploaded_file)` (index.py:101). */
    constructor (d: Data)
      requires WellFormed(d)
      ensures Valid() && columns == d.columns && rows == d.rows
    {
      columns := d.columns;
      rows := d.rows;
    }

    /** index.py:119-124: when an "Age" column exists, cut it into groups, store
        the groups as the "Age Group" column and count them in label order. */
    method AddAgeGroups() returns (chart: AgeChart)
      requires Valid()
      modifies this
      ensures Valid()
      ensures (chart, Data(columns, rows)) == AgeStage(Data(old(columns), old(rows)))
    {
      var k := IndexOf(columns, "Age");
      if k.None? {
        chart := NoAgeColumn;
        return;
      }
      var ages := AgeColumn(rows, k.value);
      if ages.None? {
        chart := AgeNotNumeric;
        return;
      }
      var d := SetColumn(Data(columns, rows), "Age Group", GroupCells(ages.value));
      columns, rows := d.columns, d.rows;
      chart := AgeCounts(AgeGroupCounts(ages.value));
    }
  }
}
