# Training load calculator — Dafny model

A model of the load-table computation of the training load calculator, a
single React component (`TrainingLoadCalculator`). The user picks a primary
lift (Squat, Bench, Deadlift, Clean) and types a one-repetition maximum
(1RM). "Calculate" (the button or the Enter key) produces:

- the primary table: one row per percentage of the fixed schedule
  35, 40, …, 120, each weight being the 1RM times the percentage, rounded to
  the nearest multiple of 2.5 with JavaScript's `Math.round`;
- one table per variation exercise of the selected lift, in the catalog's
  order, computed the same way from the 1RM times the variation's ratio.

Files:

- `wrappers.dfy` — `Option`.
- `rounding.dfy` — `Math.round` as `Floor(y + 0.5)`, and `roundToNearest2_5`
  with its characterisation: a multiple of 2.5 in the window
  (x − 1.25, x + 1.25], hence the nearest one, with exact halves going up;
  idempotent and monotone.
- `catalog.dfy` — the default variation catalog. Each lift maps to a
  sequence of (name, ratio) pairs, so the order `Object.entries` reports is
  kept.
- `load_table.dfy` — the percentage schedule, the per-table `map`
  (`Loads`), the per-variation `map` (`VariationTables`) and the whole
  result (`Report`), with their closed forms.
- `calculator.dfy` — the component's state as a class whose fields are the
  hook states `lift`, `oneRM`, `results` and `variationRatios`. Its methods
  are the setters, `CalculateLoad` and `HandleKeyPress`.

Modelling decisions:

- Numbers are exact `real`s.
- The 1RM input is `Option<real>`. An `<input type="number">` yields `""`
  (the only falsy value it can give) for an empty or unparsable entry, and
  that is `None`. Every other entry is `Some(x)`. The entry "0" is a
  non-empty string, so it is truthy and does not stop `calculateLoad`:
  it yields tables of zeros (`ZeroOneRepMax`).
- `variationRatios[lift] && …` gives `undefined` when the lift has no
  catalog entry and an array otherwise, empty when the entry is an empty
  object. So `variationLoads` is `None` exactly when the lift is missing,
  and `Some([])` for an empty entry.
- I/O: the DOM events are the method parameters (`SetLift`, `SetOneRM`,
  `HandleKeyPress(key)`). Nothing else is external.

## Model

| member | source | states |
|---|---|---|
| Rounding.JsMathRound | src/TrainingLoadCalculator.js:43 | `Math.round(y)` is an integer n with y − 0.5 < n ≤ y + 0.5 (halves go toward +∞) |
| Rounding.JsMathRoundUnique | src/TrainingLoadCalculator.js:43 | that window contains exactly one integer, so it determines `Math.round` |
| Rounding.RoundToNearest2_5 | src/TrainingLoadCalculator.js:43 | `Math.round(x / 2.5) * 2.5` is an integer multiple of 2.5; `RoundOnGridAndClose` and `RoundUnique` characterise it completely |
| Rounding.RoundOnGridAndClose | src/TrainingLoadCalculator.js:43 | `roundToNearest2_5(x)` is an integer multiple of 2.5 and lies in (x − 1.25, x + 1.25] |
| Rounding.RoundUnique | src/TrainingLoadCalculator.js:43 | any multiple of 2.5 in (x − 1.25, x + 1.25] equals `roundToNearest2_5(x)`; with the row above, this characterises the function |
| Rounding.RoundIsNearest | src/TrainingLoadCalculator.js:43 | no multiple k·2.5 is closer to x than `roundToNearest2_5(x)` |
| Rounding.RoundTiesUp | src/TrainingLoadCalculator.js:43 | an exact half-way value k·2.5 + 1.25 rounds to the larger multiple (k+1)·2.5 |
| Rounding.RoundFixesGrid | src/TrainingLoadCalculator.js:43 | a value that is already a multiple of 2.5 is returned unchanged |
| Rounding.RoundIdempotent | src/TrainingLoadCalculator.js:43 | rounding twice equals rounding once |
| Rounding.RoundMonotone | src/TrainingLoadCalculator.js:43 | x ≤ y implies round(x) ≤ round(y) |
| Catalog.DefaultCatalog | src/TrainingLoadCalculator.js:7-37 | the initial catalog, entry by entry in source order; it has exactly the keys Squat, Bench, Deadlift, Clean, with 6/5/5/5 entries |
| Catalog.DefaultCatalogShape | src/TrainingLoadCalculator.js:7-37 | within each lift of the default catalog the names are distinct and every ratio lies in [0.25, 1.1] |
| LoadTable.Percentages | src/TrainingLoadCalculator.js:39-41 | the schedule has 18 entries and entry i is 35 + 5i |
| LoadTable.PercentagesAscending | src/TrainingLoadCalculator.js:39-41 | the schedule is strictly increasing from 35 to 120 |
| LoadTable.Loads | src/TrainingLoadCalculator.js:47-50 | one row per percentage, same order: row i has percent ps[i] and weight round(scale · ps[i]/100) |
| LoadTable.LoadsOnGrid | src/TrainingLoadCalculator.js:47-50 | every weight of a table is a multiple of 2.5 within 1.25 of the exact load |
| LoadTable.LoadsNonDecreasing | src/TrainingLoadCalculator.js:47-50 | for a non-negative scale and increasing percentages the weights never decrease |
| LoadTable.VariationTables | src/TrainingLoadCalculator.js:52-58 | one table per catalog pair, in catalog order: table k has the k-th name and the loads at 1RM · ratio_k |
| LoadTable.Report | src/TrainingLoadCalculator.js:47-59 | 18 primary rows, row i being {35 + 5i, round(1RM · (35 + 5i)/100)}; the variation tables are present exactly when the lift is a catalog key, and then table k has the catalog's k-th name and 18 rows, row i being {35 + 5i, round(1RM · ratio_k · (35 + 5i)/100)} |
| LoadTable.BaseRowClosedForm | src/TrainingLoadCalculator.js:47-50 | the primary table has 18 rows; row i is percent 35 + 5i with weight round(1RM · (35 + 5i)/100) |
| LoadTable.VariationRowClosedForm | src/TrainingLoadCalculator.js:51-58 | variation table k has the catalog's k-th name and 18 rows; row i is percent 35 + 5i with weight round(1RM · ratio_k · (35 + 5i)/100) |
| LoadTable.BaseLoadsNonDecreasing | src/TrainingLoadCalculator.js:39-50 | for a non-negative 1RM the primary table's weights never decrease down the table |
| LoadTable.BaseLoadsIndependentOfLift | src/TrainingLoadCalculator.js:47-52 | the primary table depends on the 1RM only; a lift missing from the catalog still gets it |
| LoadTable.ZeroOneRepMax | src/TrainingLoadCalculator.js:46-58 | the entry "0" passes the emptiness test and gives weight 0 in every row of every table |
| LoadTable.WorkedExamples | src/TrainingLoadCalculator.js:43-50 | 100 at 100% is 100; 200 at 50% is 100; 101 at 100% rounds to 100; 100 with ratio 0.85 at 100% is 85 |
| Calculator.TrainingLoadCalculator.constructor | src/TrainingLoadCalculator.js:4-37 | initial state: lift "Squat", empty 1RM, no results, the default catalog |
| Calculator.TrainingLoadCalculator.SetLift | src/TrainingLoadCalculator.js:74 | the selected lift becomes the given value; nothing else changes |
| Calculator.TrainingLoadCalculator.SetOneRM | src/TrainingLoadCalculator.js:85 | the 1RM becomes the given entry; nothing else changes |
| Calculator.TrainingLoadCalculator.CalculateLoad | src/TrainingLoadCalculator.js:45-60 | with an empty 1RM the previous results are kept; otherwise results become the report for the current 1RM, lift and catalog; no other field changes |
| Calculator.TrainingLoadCalculator.HandleKeyPress | src/TrainingLoadCalculator.js:62-66 | Enter behaves as `CalculateLoad`; any other key changes nothing |

## Left out

- Rendering: the JSX, the tables, the CSS classes and the "%"/"lbs" suffixes (src/TrainingLoadCalculator.js:68-142). They are presentation only.
- `src/index.js`: React/DOM start-up with no logic.
- React hook mechanics: batching of `setState`, re-rendering, StrictMode double calls. The state is plain fields, and an update takes effect at once.
- IEEE-754 arithmetic: the model computes with exact reals. So it does not capture that `0.85 * x` or `x / 2.5` may be inexact, nor `Math.round` quirks near half-way values, nor a result of `-0`.
- String-to-number coercion of the 1RM (`oneRM * …` on a string): the parsed number is the input.
- `Object.entries` puts integer-like keys first in ascending order. The model keeps plain insertion order, which is what the default catalog's names (none integer-like) get.
- Property lookup through the object prototype: a lift such as "constructor" would find an inherited value. The selector only offers catalog keys, and the model treats every non-key as missing.
- `setVariationRatios` is declared but never called, so no catalog update operation exists to model. A catalog of any content is accepted by `Report`, though.
