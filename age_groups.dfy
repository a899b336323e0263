/**
 * Age-group bucketing and counting (index.py:119-124):
 *   pd.cut(age, bins=[0, 18, 30, 45, 60, 100], labels=["0-18", ..., "60+"])
 * with pandas' defaults: every bin is right-closed, (lo, hi], and the lowest
 * edge is not included (include_lowest=False). An age outside (0, 100], or a
 * missing age, gets no group (NaN). The counts are taken per label, in label
 * order, with labels nobody falls into reported as 0.
 */
module AgeGroups {
  import opened Wrappers
  import opened Binarize

  datatype AgeLabel = Upto18 | From19To30 | From31To45 | From46To60 | Over60
  {
    /** The label text shown on the chart. */
    function Name(): string
    {
      match this
      case Upto18 => "0-18"
      case From19To30 => "19-30"
      case From31To45 => "31-45"
      case From46To60 => "46-60"
      case Over60 => "60+"
    }
  }

  /** The bin edges of index.py:122. */
  const Bins: seq<real> := [0.0, 18.0, 30.0, 45.0, 60.0, 100.0]

  /** The labels of index.py:123, in category order: label k names bin (Bins[k], Bins[k+1]]. */
  const Labels: seq<AgeLabel> := [Upto18, From19To30, From31To45, From46To60, Over60]

  /** The label texts of index.py:123, in the same order. */
  const LabelNames: seq<string> := ["0-18", "19-30", "31-45", "46-60", "60+"]

  /** Label k of the chart is shown with text LabelNames[k]. */
  lemma LabelsNamedInOrder()
    ensures |Labels| == |LabelNames|
    ensures forall k :: 0 <= k < |Labels| ==> Labels[k].Name() == LabelNames[k]
  {
    assert Labels[0].Name() == LabelNames[0];
    assert Labels[1].Name() == LabelNames[1];
    assert Labels[2].Name() == LabelNames[2];
    assert Labels[3].Name() == LabelNames[3];
    assert Labels[4].Name() == LabelNames[4];
  }

  ghost predicate Increasing(edges: seq<real>)
  {
    forall i, j :: 0 <= i < j < |edges| ==> edges[i] < edges[j]
  }

  /** The bin (edges[k], edges[k+1]] that holds x, for an x inside (edges[0], edges[|edges|-1]]. */
  function BinIndex(edges: seq<real>, x: real): (k: nat)
    requires Increasing(edges) && |edges| >= 2 && edges[0] < x <= edges[|edges| - 1]
    ensures k + 1 < |edges| && edges[k] < x <= edges[k + 1]
  {
    if x <= edges[1] then 0 else 1 + BinIndex(edges[1..], x)
  }

  /** `pd.cut` with `right=True, include_lowest=False` on one value: the index k
      of the bin (edges[k], edges[k+1]] holding x, or None (NaN) when x lies
      outside (edges[0], edges[|edges|-1]]. */
  function Cut(edges: seq<real>, x: real): (r: Option<nat>)
    requires Increasing(edges)
    ensures r.Some? <==> |edges| >= 2 && edges[0] < x <= edges[|edges| - 1]
    ensures r.Some? ==> r.value + 1 < |edges| && edges[r.value] < x <= edges[r.value + 1]
  {
    if |edges| < 2 || x <= edges[0] || edges[|edges| - 1] < x then None
    else Some(BinIndex(edges, x))
  }

  /** The age group of one (possibly missing) age. */
  function AgeGroup(age: Option<real>): (g: Option<AgeLabel>)
    ensures g == Some(Upto18) <==> age.Some? && 0.0 < age.value <= 18.0
    ensures g == Some(From19To30) <==> age.Some? && 18.0 < age.value <= 30.0
    ensures g == Some(From31To45) <==> age.Some? && 30.0 < age.value <= 45.0
    ensures g == Some(From46To60) <==> age.Some? && 45.0 < age.value <= 60.0
    ensures g == Some(Over60) <==> age.Some? && 60.0 < age.value <= 100.0
    ensures g.None? <==> age.None? || age.value <= 0.0 || 100.0 < age.value
  {
    if age.None? then None
    else
      var k := Cut(Bins, age.value);
      if k.Some? then Some(Labels[k.value]) else None
  }

  /** The "Age Group" column: the group of every age, in row order. */
  function Groups(ages: seq<Option<real>>): (gs: seq<Option<AgeLabel>>)
    ensures |gs| == |ages|
    ensures forall i :: 0 <= i < |ages| ==> gs[i] == AgeGroup(ages[i])
  {
    MapRow(ages, AgeGroup)
  }

  /** Ages whose group is g: the number of times the category g occurs in the
      group column. */
  function CountLabel(ages: seq<Option<real>>, g: AgeLabel): (n: nat)
    ensures n == multiset(Groups(ages))[Some(g)]
  {
    if ages == [] then 0
    else
      assert Groups(ages) == [AgeGroup(ages[0])] + Groups(ages[1..]);
      (if AgeGroup(ages[0]) == Some(g) then 1 else 0) + CountLabel(ages[1..], g)
  }

  /** Ages that are present and lie in (0, 100], counted without reference to the bins. */
  function CountInRange(ages: seq<Option<real>>): (n: nat)
    ensures n <= |ages|
  {
    if ages == [] then 0
    else
      var inRange := ages[0].Some? && 0.0 < ages[0].value <= 100.0;
      (if inRange then 1 else 0) + CountInRange(ages[1..])
  }

  /** `value_counts().sort_index()` on the age-group column: one (label, count)
      pair per label, in label order. */
  function AgeGroupCounts(ages: seq<Option<real>>): (r: seq<(AgeLabel, nat)>)
    ensures |r| == |Labels|
    ensures forall k :: 0 <= k < |r| ==> r[k].0 == Labels[k]
    ensures forall k :: 0 <= k < |r| ==> r[k].1 == multiset(Groups(ages))[Some(r[k].0)]
  {
    seq(|Labels|, k requires 0 <= k < |Labels| => (Labels[k], CountLabel(ages, Labels[k])))
  }

  function Total(counts: seq<(AgeLabel, nat)>): nat
  {
    if counts == [] then 0 else counts[0].1 + Total(counts[1..])
  }

  /** Every age in (0, 100] falls into exactly one of the five groups. */
  lemma {:induction false} LabelCountsPartition(ages: seq<Option<real>>)
    ensures CountLabel(ages, Upto18) + CountLabel(ages, From19To30) + CountLabel(ages, From31To45)
            + CountLabel(ages, From46To60) + CountLabel(ages, Over60) == CountInRange(ages)
  {
    if ages != [] {
      LabelCountsPartition(ages[1..]);
    }
  }

  /** The reported counts add up to the number of ages in (0, 100]; all other
      ages (missing, at most 0, above 100) are not counted anywhere. */
  lemma {:induction false} CountsSumToInRange(ages: seq<Option<real>>)
    ensures Total(AgeGroupCounts(ages)) == CountInRange(ages)
  {
    var r := AgeGroupCounts(ages);
    assert Total(r) == r[0].1 + Total(r[1..]);
    assert Total(r[1..]) == r[1].1 + Total(r[2..]);
    assert Total(r[2..]) == r[2].1 + Total(r[3..]);
    assert Total(r[3..]) == r[3].1 + Total(r[4..]);
    assert Total(r[4..]) == r[4].1 + Total(r[5..]);
    assert r[5..] == [];
    LabelCountsPartition(ages);
  }
}
