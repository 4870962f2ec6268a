/** The variation catalog: for each primary lift, the variation exercises
    derived from it, each with the ratio of its 1RM to the primary lift's 1RM.
    The entries of one lift are kept as a sequence so that their order is the
    insertion order that `Object.entries` reports. */
module Catalog {

  datatype Variation = Variation(name: string, ratio: real)

  type Catalog = map<string, seq<Variation>>

  /** Exercise names of one lift are distinct (they are keys of one object). */
  predicate DistinctNames(vs: seq<Variation>) {
    forall i, j :: 0 <= i < j < |vs| ==> vs[i].name != vs[j].name
  }

  /** Every ratio lies in `[lo, hi]`. */
  predicate RatiosWithin(vs: seq<Variation>, lo: real, hi: real) {
    forall i :: 0 <= i < |vs| ==> lo <= vs[i].ratio <= hi
  }

  const Squat: seq<Variation> := [
    Variation("FrontSquat", 0.85),
    Variation("SplitSquat", 0.5),
    Variation("RFESplitSquat", 0.45),
    Variation("StepUp", 0.4),
    Variation("RDL", 0.75),
    Variation("GoodMorning", 0.5)
  ]

  const Bench: seq<Variation> := [
    Variation("InclineBench", 0.8),
    Variation("FloorPress", 0.9),
    Variation("DBBench", 0.3),
    Variation("DBInclineBench", 0.35),
    Variation("PushPress", 0.8)
  ]

  const Deadlift: seq<Variation> := [
    Variation("TrapBarJump", 0.4),
    Variation("SplitStanceTrapBarDeadlift", 0.8),
    Variation("SingleLegTrapBarDeadlift", 0.35),
    Variation("TrapBarRDL", 0.7),
    Variation("SplitStanceTrapBarRDL", 0.6)
  ]

  const Clean: seq<Variation> := [
    Variation("HangClean", 0.85),
    Variation("HighPull", 0.75),
    Variation("CleanPullFromFloor", 1.1),
    Variation("CleanPullFromHang", 1.05),
    Variation("OneArmDBSnatch", 0.25)
  ]

  /** The catalog the component starts with: exactly the four primary lifts,
      with six, five, five and five variations. */
  function DefaultCatalog(): (c: Catalog)
    ensures c.Keys == {"Squat", "Bench", "Deadlift", "Clean"}
    ensures |c["Squat"]| == 6 && |c["Bench"]| == 5 && |c["Deadlift"]| == 5 && |c["Clean"]| == 5
  {
    map["Squat" := Squat, "Bench" := Bench, "Deadlift" := Deadlift, "Clean" := Clean]
  }

  /** Within each lift of the default catalog the names are distinct and
      every ratio is positive, between 0.25 and 1.1. */
  lemma DefaultCatalogShape()
    ensures forall lift :: lift in DefaultCatalog() ==>
              DistinctNames(DefaultCatalog()[lift]) && RatiosWithin(DefaultCatalog()[lift], 0.25, 1.1)
  {
  }
}
