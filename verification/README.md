# Carbon-footprint calculator engine, modelled in Dafny

This project models the engine of a household carbon-footprint calculator. The
engine takes five inputs: monthly electricity in kWh, a vehicle type, a distance
in km, weekly waste in kg and a diet type. From them it builds a breakdown by
category: `listrik` (electricity), `transportasi` (transport), `sampah` (waste)
and `makanan` (diet). It derives the monthly total and the number of trees needed
to absorb a year of that total. It also picks an improvement suggestion keyed to
the dominant category. Module-level state holds the inputs, the last result, the
suggestion and an info-panel flag. Calculate, reset and the input handlers change
that state.

- `emissions.dfy` (module `Emissions`) holds the emission factors and the
  contribution of each category. `Compute` is one whole calculation, stated as
  exact reals.
- `suggestions.dfy` (module `Suggestions`) holds the suggestion.
  - `Lead` is the strict-`>` scan that starts from 0. Its contract says which
    entry wins: the first one that is positive, beats every earlier entry
    strictly and beats every later entry weakly.
  - `Suggestion` is the text this produces. `StaticSuggestions` is the loop
    itself, proved equal to `Suggestion`.
- `calculator.dfy` (module `CalculatorState`) holds the class `Calculator`,
  whose fields are the module-level variables.
  - `Calculate`, `Reset` and the handlers are methods on it.
  - `Valid()` is the object invariant that all of them keep. It says the total
    is the breakdown's sum, the trees follow from the total, and a computed
    breakdown has the four categories in order and carries its own suggestion.
  - Four client methods at the end walk through sessions and prove what a
    caller observes.

The breakdown is a JavaScript object, and its `for…in` order is its insertion
order. It is modelled as a sequence of `Entry(category, amount)`, and the empty
object `{}` is the empty sequence. A text field parsed as a number is modelled as
`ParsedNumber`: either `Finite(x)` or `NotANumber`. The handlers' `|| 0` maps a
falsy parse result (NaN or zero) to 0.

Three behaviours of the code are easy to miss:
- The vehicle and diet handlers store any string as it is. They do not check it
  against the known values. An unknown value then contributes 0 when the next
  calculation runs.
- The prompt to calculate first appears when the breakdown is empty or the
  **total** is 0. It does not test whether every category is 0. So amounts that
  cancel out also give the prompt. A non-zero total with no positive category
  gives the general block.
- Negative numbers are not clamped. Non-negativity appears only as a `requires`
  on the lemmas that need it.

## Model

| member | source | states |
|---|---|---|
| `Emissions.ElectricityEmission` | script.js:123-126 | electricity contribution is exactly kWh × 0.5; the falsy-zero guard changes nothing; it is 0 exactly when the reading is 0 |
| `Emissions.TransportEmission` | script.js:128-147 | `mobil` gives distance × 0.18, `motor` × 0.08, `umum` × 0.05; `sepeda/jalan kaki` and any unrecognised vehicle give 0; a zero distance gives 0 for every vehicle |
| `Emissions.WasteEmission` | script.js:149-152 | waste contribution is weekly kg × 0.5 × 4 (= kg × 2); it is 0 exactly when the input is 0 |
| `Emissions.DietEmission` | script.js:154-155 | `daging` 250, `vegetarian` 100, `vegan` 50, any other diet 0; never negative |
| `Emissions.TreesEquivalent` | script.js:167-169 | trees × 21 equals the monthly total × 12; a non-negative total gives a non-negative count |
| `Emissions.Breakdown` | script.js:160-165 | the breakdown has exactly the keys `listrik`, `transportasi`, `sampah`, `makanan` in that order, each key holds its own contribution (electricity, transport, waste, diet), and the values sum to the four contributions |
| `Emissions.BreakdownByKey` | script.js:160-165 | looked up by name, `listrik` gives the electricity contribution, `transportasi` transport, `sampah` waste and `makanan` diet |
| `Emissions.Compute` | script.js:117-169 | a calculation's total equals the sum of its breakdown exactly; the four keys are in order; each entry is its category's formula; trees × 21 = total × 12 |
| `Emissions.DefaultCalculation` | script.js:18-22 | with the default inputs (0, `mobil`, 0, 0, `daging`) the breakdown is {0, 0, 0, 250} and the total is 250 |
| `Emissions.NonNegativeInputs` | script.js:123-169 | non-negative numeric inputs give non-negative entries and trees, and a total at least the diet contribution |
| `Emissions.Amount` | script.js:62 | looking a category name up in a breakdown gives the amount of an entry carrying that name |
| `Emissions.AmountIsFirst` | script.js:62 | a lookup by name reads the first entry carrying that name |
| `Emissions.TotalIsSumOfCategories` | script.js:157-165 | looking up `listrik`, `transportasi`, `sampah` and `makanan` by name in a calculated breakdown and adding them gives exactly the stored total |
| `Suggestions.Lead` | script.js:58-66 | the scan keeps no entry exactly when no amount is positive; otherwise it keeps an entry that is positive, strictly above every earlier amount and at least every later one |
| `Suggestions.LeadIsFirstMaximum` | script.js:58-66 | that characterisation determines the chosen entry uniquely: the first maximal positive entry wins |
| `Suggestions.LeadingCategory` | script.js:58-66 | the category the scan ends with: the empty name when no amount is positive, otherwise the name of the first maximal positive entry |
| `Suggestions.Advice` | script.js:70-110 | `listrik`, `transportasi`, `sampah` and `makanan` each map to their own block; any other name, including the empty one, maps to the general block |
| `Suggestions.Suggestion` | script.js:53-113 | the result is the prompt exactly when the breakdown is empty or the total is 0; any other result starts with the fixed header line and ends with the fixed closing line |
| `Suggestions.StaticSuggestions` | script.js:53-114 | the loop with its running highest category and amount returns exactly `Suggestion` |
| `Suggestions.ChosenCategory` | script.js:58-110 | over a calculated breakdown the chosen category is electricity, transport, waste or diet by explicit comparisons (earlier wins ties, must exceed 0), else none |
| `Suggestions.TieKeepsEarlierCategory` | script.js:61-66 | equal electricity and transport amounts (10, 10, 0, 0) select the electricity advice |
| `Suggestions.GeneralAdviceWhenNothingPositive` | script.js:103-110 | a non-empty breakdown with a non-zero total and no positive amount gets the general block |
| `Suggestions.AdviceIdentifiesCategory` | script.js:70-102 | the four category blocks differ from each other and from the general block |
| `Suggestions.KnownDietGetsCategoryAdvice` | script.js:54-56 | with non-negative inputs and a known diet, a calculation never yields the prompt and always selects one of the four categories |
| `CalculatorState.Coerce` | script.js:220 | a parsed number is kept, NaN becomes 0; a non-zero stored value was parsed as exactly that number |
| `CalculatorState.Calculator.constructor` | script.js:18-27 | initial state: default inputs, total and trees 0, empty breakdown, empty suggestion, info panel closed |
| `CalculatorState.Calculator.Calculate` | script.js:117-174 | replaces total, breakdown, trees and suggestion together with the calculation of the current inputs; inputs and the panel flag are unchanged; keeps `Valid` |
| `CalculatorState.Calculator.Reset` | script.js:177-188 | restores the default inputs, sets total and trees to 0, empties the breakdown, clears the suggestion, leaves the panel flag as it was |
| `CalculatorState.Calculator.SetElectricity` | script.js:220 | stores the coerced number; only that field may change |
| `CalculatorState.Calculator.SetTransportKm` | script.js:221 | stores the coerced number; only that field may change |
| `CalculatorState.Calculator.SetVehicle` | script.js:222 | stores the value as given; only that field may change |
| `CalculatorState.Calculator.SetWaste` | script.js:223 | stores the coerced number; only that field may change |
| `CalculatorState.Calculator.SetDiet` | script.js:224 | stores the value as given; only that field may change |
| `CalculatorState.Calculator.OpenInfo` | script.js:230 | opens the info panel; only the flag may change |
| `CalculatorState.Calculator.CloseInfo` | script.js:233-234 | closes the info panel (both close buttons); only the flag may change |
| `CalculatorState.DefaultSession` | script.js:117-174 | calculating from the initial state gives total 250, trees × 21 = 3000 and the diet advice |
| `CalculatorState.ResetAfterUse` | script.js:177-188 | after any inputs and a calculation, a reset leaves an open panel open, restores default inputs and clears result and suggestion |
| `CalculatorState.EditThenRecalculate` | script.js:220-224 | on a fresh calculator calculated at its defaults, editing electricity and vehicle leaves the shown result unchanged, and the next calculation equals a calculation from scratch on the edited inputs |
| `CalculatorState.CalculateTwice` | script.js:117-174 | calculating twice without an input change gives an identical result and suggestion |

## Left out

- Firebase initialisation, sign-in and the authentication callback (script.js:1-3, 246-287): remote library calls and asynchronous I/O.
- `saveData` (script.js:191-215): a Firestore write with a timestamp. Its guard makes it do nothing until the store, a user id and readiness are present. It never touches the calculator state.
- `render`, the event-listener wiring and the `window.*` exports (script.js:6-15, 218-243): DOM and presentation.
- The `updateUI` calls (script.js:173, 187, 220-234, 240, 248) are not modelled. `updateUI` is not defined in script.js, so as module code each call would raise a ReferenceError unless another script defines that global. Every state assignment the model covers happens before the call in its handler, so the state effects stated here hold either way.
- Floating point: the numbers are exact reals. IEEE-754 rounding, infinities and `-0` are not modelled.
- `parseFloat` prefix parsing is not modelled: a parse is given as `ParsedNumber`. The extra `parseFloat` of an already numeric field inside the calculation (script.js:125, 130, 151) is taken as the identity.
- Each advice block is represented by its heading line. The five bullet lines under each heading are left out.
- DietEmission: a diet string naming an inherited object property (such as `constructor` or `toString`) would pick up a non-number in JavaScript. The model treats every name outside the table as unknown, giving 0.
- Input values from the DOM are typed as strings and numbers. Other JavaScript values that a global could hold are not modelled.
