/** The load tables `calculateLoad` builds: one row per percentage of the
    schedule for the selected lift, and one such table per variation of it. */
module LoadTable {
  import opened Wrappers
  import opened Rounding
  import opened Catalog

  /** One table row: a percentage of 1RM and the rounded weight for it. */
  datatype LoadEntry = LoadEntry(percent: int, weight: real)

  /** The table of one variation exercise. */
  datatype VariationLoad = VariationLoad(name: string, loads: seq<LoadEntry>)

  /** What `calculateLoad` stores: the primary lift's table and, when the lift
      has a catalog entry, the variation tables (`undefined` is `None`). */
  datatype Results = Results(baseLoads: seq<LoadEntry>, variationLoads: Option<seq<VariationLoad>>)

  /** The percentage schedule: 35, 40, ..., 120. */
  function Percentages(): (ps: seq<int>)
    ensures |ps| == 18
    ensures forall i :: 0 <= i < |ps| ==> ps[i] == 35 + 5 * i
  {
    [35, 40, 45, 50, 55, 60, 65, 70, 75, 80, 85, 90, 95, 100, 105, 110, 115, 120]
  }

  predicate Ascending(ps: seq<int>) {
    forall i, j :: 0 <= i < j < |ps| ==> ps[i] < ps[j]
  }

  /** The schedule is strictly increasing, starts at 35 and ends at 120. */
  lemma PercentagesAscending()
    ensures Ascending(Percentages())
    ensures Percentages()[0] == 35 && Percentages()[|Percentages()| - 1] == 120
  {
  }

  /** The unrounded load of `scale` at `p` percent, as `scale * (p / 100)`. */
  function RawLoad(scale: real, p: int): real {
    scale * (p as real / 100.0)
  }

  /** The row for percentage `p` of a table whose 100% load is `scale`:
      `{percent: p, weight: roundToNearest2_5(scale * (p / 100))}`. */
  function Row(scale: real, p: int): LoadEntry {
    LoadEntry(p, RoundToNearest2_5(RawLoad(scale, p)))
  }

  /** `percentages.map(p => ...)`, where `scale` is the 1RM for the primary
      lift and the 1RM times the ratio for a variation: one row per
      percentage, in the same order. */
  function Loads(scale: real, ps: seq<int>): (r: seq<LoadEntry>)
    ensures |r| == |ps|
    ensures forall i :: 0 <= i < |ps| ==> r[i] == Row(scale, ps[i])
  {
    if ps == [] then []
    else [Row(scale, ps[0])] + Loads(scale, ps[1..])
  }

  /** Every weight of a table is a multiple of 2.5 within 1.25 of the exact load. */
  lemma LoadsOnGrid(scale: real, ps: seq<int>, i: int)
    requires 0 <= i < |ps|
    ensures OnGrid(Loads(scale, ps)[i].weight)
    ensures Abs(Loads(scale, ps)[i].weight - RawLoad(scale, ps[i])) <= Increment / 2.0
  {
    RoundOnGridAndClose(RawLoad(scale, ps[i]));
  }

  /** For a non-negative scale, a table over ascending percentages has
      non-decreasing weights. */
  lemma LoadsNonDecreasing(scale: real, ps: seq<int>, i: int, j: int)
    requires 0.0 <= scale && Ascending(ps)
    requires 0 <= i <= j < |ps|
    ensures Loads(scale, ps)[i].weight <= Loads(scale, ps)[j].weight
  {
    assert RawLoad(scale, ps[i]) <= RawLoad(scale, ps[j]) by {
      assert ps[i] as real / 100.0 <= ps[j] as real / 100.0;
    }
    RoundMonotone(RawLoad(scale, ps[i]), RawLoad(scale, ps[j]));
  }

  /** The table of one catalog entry: its name and the loads at 1RM times its ratio. */
  function TableFor(oneRM: real, v: Variation, ps: seq<int>): VariationLoad {
    VariationLoad(v.name, Loads(oneRM * v.ratio, ps))
  }

  /** `Object.entries(variationRatios[lift]).map(([name, ratio]) => ...)`:
      one table per catalog entry, in catalog order. */
  function VariationTables(oneRM: real, vs: seq<Variation>, ps: seq<int>): (r: seq<VariationLoad>)
    ensures |r| == |vs|
    ensures forall k :: 0 <= k < |vs| ==> r[k] == TableFor(oneRM, vs[k], ps)
  {
    if vs == [] then []
    else [TableFor(oneRM, vs[0], ps)] + VariationTables(oneRM, vs[1..], ps)
  }

  /** The whole result of one calculation with 1RM `oneRM`: the primary
      table has one row per scheduled percentage `35 + 5 i`; the variation
      tables are present exactly when the lift is a catalog key, and then
      table k carries the catalog's k-th name and one row per percentage
      scaled by that entry's ratio. */
  function Report(oneRM: real, lift: string, catalog: Catalog): (res: Results)
    ensures |res.baseLoads| == 18
    ensures forall i :: 0 <= i < 18 ==> res.baseLoads[i] == Row(oneRM, 35 + 5 * i)
    ensures res.variationLoads.Some? <==> lift in catalog
    ensures lift in catalog ==>
              var tables := res.variationLoads.value;
              && |tables| == |catalog[lift]|
              && forall k :: 0 <= k < |catalog[lift]| ==>
                   && tables[k].name == catalog[lift][k].name
                   && |tables[k].loads| == 18
                   && forall i :: 0 <= i < 18 ==>
                        tables[k].loads[i] == Row(oneRM * catalog[lift][k].ratio, 35 + 5 * i)
  {
    Results(
      Loads(oneRM, Percentages()),
      if lift in catalog then Some(VariationTables(oneRM, catalog[lift], Percentages())) else None)
  }

  /** Row i of the primary table is at `p_i = 35 + 5 i` percent and weighs
      `round(oneRM * (p_i / 100))`. */
  lemma BaseRowClosedForm(oneRM: real, lift: string, catalog: Catalog, i: int)
    requires 0 <= i < 18
    ensures |Report(oneRM, lift, catalog).baseLoads| == 18
    ensures Report(oneRM, lift, catalog).baseLoads[i] ==
              LoadEntry(35 + 5 * i, RoundToNearest2_5(RawLoad(oneRM, 35 + 5 * i)))
  {
  }

  /** Variation table k of a report carries the catalog's k-th name, and its
      row i is at `p_i = 35 + 5 i` percent and weighs `round(oneRM * ratio_k * (p_i / 100))`. */
  lemma VariationRowClosedForm(oneRM: real, lift: string, catalog: Catalog, k: int, i: int)
    requires lift in catalog
    requires 0 <= k < |catalog[lift]| && 0 <= i < 18
    ensures var tables := Report(oneRM, lift, catalog).variationLoads.value;
      && |tables| == |catalog[lift]|
      && tables[k].name == catalog[lift][k].name
      && |tables[k].loads| == 18
      && tables[k].loads[i] ==
           LoadEntry(35 + 5 * i, RoundToNearest2_5(RawLoad(oneRM * catalog[lift][k].ratio, 35 + 5 * i)))
  {
    var ps := Percentages();
    var v := catalog[lift][k];
    var tables := Report(oneRM, lift, catalog).variationLoads.value;
    assert tables == VariationTables(oneRM, catalog[lift], ps);
    assert tables[k] == TableFor(oneRM, v, ps);
    var loads := Loads(oneRM * v.ratio, ps);
    assert ps[i] == 35 + 5 * i;
    assert loads[i] == Row(oneRM * v.ratio, ps[i]);
  }

  /** For a non-negative 1RM the primary table gets heavier (or stays equal)
      from row to row, because the schedule is increasing. */
  lemma BaseLoadsNonDecreasing(oneRM: real, lift: string, catalog: Catalog, i: int, j: int)
    requires 0.0 <= oneRM
    requires 0 <= i <= j < 18
    ensures Report(oneRM, lift, catalog).baseLoads[i].weight <= Report(oneRM, lift, catalog).baseLoads[j].weight
  {
    PercentagesAscending();
    LoadsNonDecreasing(oneRM, Percentages(), i, j);
  }

  /** The primary table depends on the 1RM only: neither the selected lift
      nor the catalog changes it, and a lift missing from the catalog still
      gets it. */
  lemma BaseLoadsIndependentOfLift(oneRM: real, lift: string, catalog: Catalog, lift': string, catalog': Catalog)
    ensures Report(oneRM, lift, catalog).baseLoads == Report(oneRM, lift', catalog').baseLoads
  {
  }

  /** A 1RM of zero (the entry "0", which is not empty) gives zero everywhere. */
  lemma ZeroOneRepMax(lift: string, catalog: Catalog)
    ensures var res := Report(0.0, lift, catalog);
      && (forall i :: 0 <= i < |res.baseLoads| ==> res.baseLoads[i].weight == 0.0)
      && (lift in catalog ==>
            forall k, i :: 0 <= k < |res.variationLoads.value| && 0 <= i < |res.variationLoads.value[k].loads| ==>
              res.variationLoads.value[k].loads[i].weight == 0.0)
  {
    var res := Report(0.0, lift, catalog);
    RoundFixesGrid(0.0);
    forall i | 0 <= i < |res.baseLoads|
      ensures res.baseLoads[i].weight == 0.0
    {
      assert RawLoad(0.0, Percentages()[i]) == 0.0;
    }
    if lift in catalog {
      var vs := catalog[lift];
      forall k, i | 0 <= k < |res.variationLoads.value| && 0 <= i < |res.variationLoads.value[k].loads|
        ensures res.variationLoads.value[k].loads[i].weight == 0.0
      {
        assert res.variationLoads.value[k].loads == Loads(0.0 * vs[k].ratio, Percentages());
        assert RawLoad(0.0 * vs[k].ratio, Percentages()[i]) == 0.0;
      }
    }
  }

  /** Worked examples: 100 at 100% is 100, 200 at 50% is 100, 101 at 100%
      rounds down to 100, and a ratio of 0.85 on 100 at 100% gives 85. */
  lemma WorkedExamples()
    ensures RoundToNearest2_5(RawLoad(100.0, 100)) == 100.0
    ensures RoundToNearest2_5(RawLoad(200.0, 50)) == 100.0
    ensures RoundToNearest2_5(RawLoad(101.0, 100)) == 100.0
    ensures RoundToNearest2_5(RawLoad(100.0 * 0.85, 100)) == 85.0
  {
  }
}
