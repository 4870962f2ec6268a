/** The component's state and its actions. The React state hooks become
    fields; each setter and `calculateLoad` becomes a method that changes
    only the field the source's `set...` call changes. */
module Calculator {
  import opened Wrappers
  import opened Catalog
  import opened LoadTable

  class TrainingLoadCalculator {
    /** The selected primary lift. */
    var lift: string
    /** The 1RM field: `None` for the empty entry, `Some(x)` for a number. */
    var oneRM: Option<real>
    /** The last computed tables; `None` until the first calculation. */
    var results: Option<Results>
    /** The variation catalog (never changed by any action of the component). */
    var variationRatios: Catalog

    /** The initial state: Squat selected, an empty 1RM, no results, the
        default catalog. */
    constructor ()
      ensures lift == "Squat" && oneRM == None && results == None
      ensures variationRatios == DefaultCatalog()
    {
      lift := "Squat";
      oneRM := None;
      results := None;
      variationRatios := DefaultCatalog();
    }

    /** Choosing a lift in the selector. */
    method SetLift(l: string)
      modifies this`lift
      ensures lift == l
    {
      lift := l;
    }

    /** Editing the 1RM field. */
    method SetOneRM(v: Option<real>)
      modifies this`oneRM
      ensures oneRM == v
    {
      oneRM := v;
    }

    /** `calculateLoad`: with an empty 1RM nothing happens and the previous
        results stay; otherwise the results become the report for the
        current 1RM, lift and catalog. Nothing but `results` changes. */
    method CalculateLoad()
      modifies this`results
      ensures oneRM == None ==> results == old(results)
      ensures oneRM.Some? ==> results == Some(Report(oneRM.value, lift, variationRatios))
      ensures lift == old(lift) && oneRM == old(oneRM) && variationRatios == old(variationRatios)
    {
      if oneRM == None {
        return;
      }
      results := Some(Report(oneRM.value, lift, variationRatios));
    }

    /** `handleKeyPress`: the Enter key runs `calculateLoad`; any other key
        changes nothing. */
    method HandleKeyPress(key: string)
      modifies this`results
      ensures key == "Enter" ==> (oneRM == None ==> results == old(results))
      ensures key == "Enter" && oneRM.Some? ==> results == Some(Report(oneRM.value, lift, variationRatios))
      ensures key != "Enter" ==> results == old(results)
      ensures lift == old(lift) && oneRM == old(oneRM) && variationRatios == old(variationRatios)
    {
      if key == "Enter" {
        CalculateLoad();
      }
    }
  }
}
