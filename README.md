# Asphalt calculator: a Dafny model of the estimator

The asphalt calculator is a single page. The user enters a length and a
width in feet, a thickness in inches and a price per ton in dollars. The page
shows the tonnage of hot-mix asphalt needed and its cost. The page keeps a
density of 145 lb/ft³. Whenever an input changes, the page recomputes two
values. The first is `tons`, the weight rounded to hundredths of a US ton
(2000 lb). The second is `totalCost`, the unrounded tonnage times the price,
also rounded to hundredths.

The model has three modules:

- `JsNumber` (`js_number.dfy`) covers the JavaScript number behaviour the
  page relies on. A form field's state is `number | ""`. `Number(x) || 0`
  turns it into a number, with `||` modelled by its truthiness rule.
  `parseFloat(x.toFixed(2))` is modelled as `ToFixed2`: it sets the sign
  aside, rounds the magnitude to the nearest hundredth, takes the larger
  candidate on a tie, and puts the sign back. The module also proves that
  this is the choice `Number.prototype.toFixed` prescribes in ECMA-262
  (section 21.1.3.3 in recent editions). From 10^21 upward the value
  comes back unchanged.
- `Estimator` (`estimator.dfy`) holds the pure formula. `Convert` does the
  unit conversions in the page's order: cubic feet, pounds, tons, cost.
  `Estimate` rounds both results. `EstimateOf` coerces a snapshot of the form
  fields first. The module also holds the lemmas: zero absorption, price
  independence, cost from the unrounded tonnage, the rounding bound, sign
  and monotonicity, and the worked examples.
- `Calculator` (`calculator.dfy`) models the page state as the class
  `AsphaltCalculator`. Its fields are `length`, `width`, `thickness`,
  `price`, `density`, `tons` and `totalCost`. Each setter changes one input
  and then runs `Recompute`, the effect body. Every setter ensures
  `Valid()`: the displayed results equal `EstimateOf` of the current inputs.
  The setters do not require `Valid()` beforehand, so no earlier result can
  leak into the new one.

Numbers are exact reals. NaN is a separate case of `JsNumber.Number`,
because the coercion removes it.

Points of behaviour worth stating plainly:

- **Zero price.** A zero price zeroes only the cost; the tonnage is what
  the other inputs make it (`ZeroPriceCostsNothing`). A zero length, width,
  thickness or density zeroes both results (`ZeroAbsorbs`).
- **Rounding rule.** Both results go through `toFixed(2)`, which rounds the
  magnitude half up, so negative values round half away from zero.
- **Density.** The density is a state variable starting at 145. Its setter
  is never wired to an input, but the recomputation depends on it. The model
  keeps it as a field with a `SetDensity` method.
- **Negative inputs.** No clamping happens anywhere. A negative value passes
  through the coercion unchanged.
- **The page's printed formula.** The explanatory text at app/page.tsx:150
  gives the tonnage as length × width × thickness (in) × density ÷ 2000,
  without the inches-to-feet division by 12 that line 25 applies; read
  literally it gives twelve times the tonnage. The model follows the code,
  and `Convert` states the formula with the division by 12.

## Model

| member | source | states |
|---|---|---|
| `JsNumber.Coerce` | app/page.tsx:18-21 | the field coercion: a blank field and NaN both give 0; any finite number, negatives included, comes through unchanged; the estimator never sees NaN |
| `JsNumber.ToFixed2` | app/page.tsx:36-37 | the rounded value lies within 0.005 of the exact value; a non-negative input gives a non-negative result and a non-positive input a non-positive result |
| `JsNumber.HalfUpIsNearest` | app/page.tsx:36-37 | the half-up choice n = ⌊100·y + ½⌋ is the integer for which n/100 − y is as close to zero as possible, and the larger of two such integers, as `toFixed` requires |
| `JsNumber.NearestHundredthUnique` | app/page.tsx:36-37 | exactly one integer meets the `toFixed` rule, so the rounding is fully determined |
| `JsNumber.ToFixed2Rounds` | app/page.tsx:36-37 | below 10^21 in magnitude, `parseFloat(x.toFixed(2))` is the sign of x times n/100, where n is the integer the `toFixed` rule picks for the magnitude of x |
| `JsNumber.ToFixed2Large` | app/page.tsx:36-37 | from 10^21 upward in magnitude, the value comes back unchanged |
| `JsNumber.ToFixed2Monotone` | app/page.tsx:36-37 | rounding never reverses the order of two values |
| `Estimator.Convert` | app/page.tsx:25-34 | the closed form of the conversions: the volume is length × width × thickness / 12, the tonnage is length × width × thickness × density / (12 · 2000), and the cost is that unrounded tonnage times the price |
| `Estimator.Estimate` | app/page.tsx:25-37 | each displayed result is within 0.005 of its exact value: `tons` of the exact tonnage, `totalCost` of the exact tonnage times the price |
| `Estimator.CostFromUnroundedTons` | app/page.tsx:31-37 | `totalCost` is rounded from the unrounded tonnage times the price |
| `Estimator.CostNotFromRoundedTons` | app/page.tsx:34-37 | rounding the displayed tonnage first would change the cost: for the placeholder inputs it would give $1450.40 instead of $1450 |
| `Estimator.ZeroAbsorbs` | app/page.tsx:25-37 | a zero length, width, thickness or density gives 0 tons and $0, whatever the price |
| `Estimator.ZeroPriceCostsNothing` | app/page.tsx:34-37 | a zero price gives $0 and leaves the tonnage as the other inputs make it |
| `Estimator.PriceIndependent` | app/page.tsx:25-36 | changing only the price never changes `tons` |
| `Estimator.NonNegative` | app/page.tsx:25-37 | with every input non-negative, neither `tons` nor `totalCost` is negative |
| `Estimator.ProductMonotone` | app/page.tsx:25-31 | over non-negative factors, length × width × thickness × density does not decrease when any factor grows |
| `Estimator.TonsMonotone` | app/page.tsx:25-36 | increasing any of length, width, thickness or density (all non-negative) never decreases `tons`, whatever the prices |
| `Estimator.WorkedExample` | app/page.tsx:25-37 | with the placeholders 50 ft × 20 ft, the default 3 in, 145 lb/ft³ and $80 per ton: 250 ft³ and 36250 lb make 18.125 tons, shown as 18.13 tons and $1450 |
| `Estimator.DenseSlabExample` | app/page.tsx:25-37 | 100 ft × 10 ft × 4 in at 150 lb/ft³ and $90 per ton weighs exactly 50000 lb, shown as 25 tons and $2250 |
| `Estimator.BlankFieldGivesZero` | app/page.tsx:18-37 | a blank or NaN length, width or thickness field gives 0 tons and $0, without failing |
| `Calculator.AsphaltCalculator.constructor` | app/page.tsx:6-14 | the initial state: length, width and price blank, thickness 3, density 145; after the first recomputation, 0 tons and $0, consistent with the inputs |
| `Calculator.AsphaltCalculator.Recompute` | app/page.tsx:17-38 | whatever the previous results, afterwards `tons` and `totalCost` equal the estimate of the current inputs; only the two results change |
| `Calculator.AsphaltCalculator.SetLength` | app/page.tsx:63-69 | the length field takes the new number, the other inputs keep their values, and the results equal the estimate of the new snapshot |
| `Calculator.AsphaltCalculator.SetWidth` | app/page.tsx:73-79 | the width field takes the new number, the other inputs keep their values, and the results equal the estimate of the new snapshot |
| `Calculator.AsphaltCalculator.SetThickness` | app/page.tsx:87-101 | either thickness control sets the field to the new number, with no slider bounds enforced; the other inputs keep their values, and the results equal the estimate of the new snapshot |
| `Calculator.AsphaltCalculator.SetPrice` | app/page.tsx:111-117 | the price field takes the new number, the other inputs keep their values, and the results equal the estimate of the new snapshot; if the results were consistent before, `tons` is unchanged |
| `Calculator.AsphaltCalculator.SetDensity` | app/page.tsx:10 | the density takes the new value, the four fields keep theirs, and the results equal the estimate of the new snapshot |
| `Calculator.PlaceholderSession` | app/page.tsx:63-117 | typing the placeholders in turn: 0 tons after the length alone, 18.13 tons after the width, then 18.13 tons and $1450 after the price |

## Left out

- IEEE-754 doubles. Inputs and results are exact reals, so binary
  representation effects on decimal ties are not modelled, and neither are
  infinities (for example `Number("1e400")`) or the sign of zero.
- The text of `toFixed` and `parseFloat`. `ToFixed2` returns the decimal
  value that the round trip through text produces. From 10^21 upward it
  returns its argument: a double that large is already an integer, which a
  real need not be.
- Reading the inputs. `Number(e.target.value)` in each `onChange` handler
  is not modelled. The setters receive the number that conversion produced.
  The text controls are number inputs (and the thickness also a range
  input), whose value is the empty string whenever the text is not a valid
  number, so a cleared field and unparsable text both arrive as 0. The
  setters still accept NaN, a case `Number(x) || 0` absorbs anyway.
- React's scheduling. The effect runs after the render that follows a state
  update. The model runs it synchronously at the end of each setter.
  React skips the effect when a setter stores an equal value; the model
  recomputes anyway, with the same results.
- Presentation: the JSX layout, styling and explanatory text
  (app/page.tsx:40-170). This includes the rule that the cost is shown only
  when positive, its `toLocaleString` grouping, and the slider's
  `min`/`max`/`step`, which the browser enforces and the computation does
  not.
- The density never comes from a form field. `SetDensity` models the setter
  that the page's state provides, which is reachable only through code.
