# BMI evaluator of IMC-APP, modelled in Dafny

IMC-APP is a one-page React form ("Calculadora IMC Gestacional"). The user types a weight
in kilograms and a height in centimetres and presses "Calcular IMC". The component then
parses both fields, converts the height to metres, and rejects the input silently when a
number is NaN or the height is not positive. Otherwise it stores the BMI
`weight / (height * height)` together with one of six Spanish category labels, and draws
the label in a colour chosen from the label.

The model has four modules:

- `Classification` (classification.dfy): the six-way if/else-if chain as `Classify`. It has
  the exclusive upper bounds 18.5, 24.9, 29.9, 35 and 40 and the labels 'Bajo peso',
  'Peso normal', 'Sobrepeso', 'Obesidad grado I', 'Obesidad grado II' and
  'Obesidad grado III'. `BandIndex` is an independent reference definition: it counts the
  thresholds a value has reached. The lemmas tie the chain to that count, to half-open
  intervals (both directions) and to monotonicity.
- `CategoryColors` (colors.dfy): `getCategoryColor` as `CategoryColor`, a total lookup with
  the default 'text-sky-800'. Lemmas prove the six colours distinct, the default returned
  exactly off the labels, and a classified value never drawn in the default colour.
- `Evaluation` (evaluation.dfy): the guard and the formula as functions on exact reals.
  `Evaluate` returns `None` exactly for a NaN weight, a NaN height or a height <= 0. It
  returns the unique value `b` with `b * height_cm² = 10000 * weight` otherwise. Lemmas cover
  the closed formula, the acceptance of zero and negative weights, and monotonicity in
  weight and in height.
- `App` (app.dfy): the component's result state as the class `BmiEvaluator`. Its fields are
  `bmi: Option<real>` (null is `None`) and `category: string`. `CalculateBmi` is the button
  handler, a method that `modifies this`. The object invariant `Valid()` says that
  `category` is '' while no value is stored and is `Classify(bmi)` afterwards. The
  constructor establishes it and `CalculateBmi` preserves it. On rejected input nothing
  changes. The method `Session` is a click sequence checked against these contracts: an
  invalid click keeps the initial state, a valid click stores a result, and a later
  invalid click keeps that result.

`Evaluation.Square` stands for the source's `heightNum * heightNum`. The arithmetic helper
lemmas beside it (`SquarePositive`, `SquareMonotone`, `SquareScale`, `QuotientAntitone`,
`ProductOrder`, `ProductCancel`) state facts of real arithmetic only and have no row.

Numbers are Dafny `real`s. A result of `parseFloat` is an `Option<real>`, with `None` for
NaN, and the two parsed inputs are the parameters of `CalculateBmi`.

The category labels are the Spanish strings of the code.
The page's reference-range text (src/App.tsx:111-116) lists "Normal: 18.5 - 24.9" and
"Sobrepeso: 25 - 29.9". The executable chain starts 'Sobrepeso' at 24.9 and
'Obesidad grado I' at 29.9. The model follows the chain. `DisplayedRangesDisagree` shows
24.9 and 29.9, the tops of the shown ranges, landing in the next band, and 24.95 and
29.95, which fall between the shown ranges, landing in the higher band.

## Model

| member | source | states |
|---|---|---|
| `Classification.Classify` | src/App.tsx:22-34 | The chain always yields one of the six labels. |
| `Classification.ThresholdsAscending` | src/App.tsx:22-31 | The five bounds the chain tests are strictly increasing, so every band is a non-empty interval. |
| `Classification.LabelsDistinct` | src/App.tsx:23-33 | The six labels the chain stores are pairwise different strings. |
| `Classification.ClassifyInBand` | src/App.tsx:22-34 | Every value lies in the interval of band `BandIndex(bmi)`, and the chain returns exactly that band's label. First match wins, which amounts to counting the thresholds reached. |
| `Classification.ClassifyBands` | src/App.tsx:22-34 | For each band k, `Classify(bmi)` is label k if and only if bmi is in [bound k-1, bound k). Band 0 has no lower bound and band 5 no upper bound, so the bands are half-open with exclusive upper bounds. |
| `Classification.ClassifyMonotone` | src/App.tsx:22-34 | If b1 <= b2 then the band of b1 comes no later than the band of b2, in the order the chain tests them. |
| `Classification.ClassifyOnto` | src/App.tsx:22-34 | Each of the six labels is produced for some BMI value: no branch of the chain is dead. |
| `Classification.DisplayedRangesDisagree` | src/App.tsx:24-29 | 24.9 and 29.9 are classified 'Sobrepeso' and 'Obesidad grado I', although the page's text (lines 112-113) lists them as the tops of Normal and Sobrepeso. 24.95 and 29.95, which fall between the text's ranges, also go to the higher band. |
| `CategoryColors.CategoryColor` | src/App.tsx:37-53 | Label k maps to colour k (yellow-600, green-600, orange-600, red-500, red-600, red-700). Every string that is not a label, '' included, maps to 'text-sky-800'. |
| `CategoryColors.ColorsDistinct` | src/App.tsx:39-52 | The six colour classes are pairwise distinct and none is the default. |
| `CategoryColors.CategoryColorDefaultIff` | src/App.tsx:37-53 | `getCategoryColor` returns the default exactly when its argument is not one of the six labels. |
| `CategoryColors.CategoryColorInjective` | src/App.tsx:37-53 | Two labels drawn in the same colour are the same label. |
| `CategoryColors.ClassifiedColor` | src/App.tsx:22-53 | The composite `getCategoryColor(classify(b))` is the colour of b's band and never the default 'text-sky-800'. |
| `Evaluation.CentimetresToMetres` | src/App.tsx:12 | `parseFloat(height) / 100` is NaN exactly when the parse is NaN, and otherwise is the value that times 100 gives the centimetres. |
| `Evaluation.BmiOf` | src/App.tsx:18 | For a positive height the BMI is the value that, multiplied by the squared height, gives back the weight. |
| `Evaluation.Evaluate` | src/App.tsx:11-18 | The guard gives no result exactly when the weight is NaN, the height is NaN or the height in cm is <= 0. The weight is not range-checked. An accepted result satisfies bmi * cm² = 10000 * weight. |
| `Evaluation.EvaluateFormula` | src/App.tsx:11-18 | For an accepted height the stored value is weight / (cm/100)², which equals 10000 * weight / cm². |
| `Evaluation.NonPositiveWeightAccepted` | src/App.tsx:11-23 | A zero or negative weight with a positive height passes the guard. It yields a BMI <= 0, which is classified 'Bajo peso'. |
| `Evaluation.HeavierNeverLowerBand` | src/App.tsx:18-34 | At a fixed height, a heavier weight gives a BMI no lower and a band no earlier. |
| `Evaluation.TallerNeverHigherBmi` | src/App.tsx:12-18 | For a non-negative weight, a greater height gives a BMI no higher. |
| `Evaluation.WorkedExamples` | src/App.tsx:18-34 | 50 kg at 180 cm gives 50/3.24, classified 'Bajo peso'. 65, 80, 95, 115 and 130 kg at 170 cm give w/2.89, classified in the five other bands in order. |
| `Evaluation.RejectedExamples` | src/App.tsx:11-16 | An empty weight (NaN) or a height of 0 produces no result, whatever the other field holds. |
| `App.BmiEvaluator.constructor` | src/App.tsx:7-8 | The initial state is bmi = null and category = '', and it satisfies the invariant. |
| `App.BmiEvaluator.CalculateBmi` | src/App.tsx:10-35 | Rejected input leaves both bmi and category exactly as they were. Accepted input stores the evaluated value and its classification together. The invariant "no value and category '', or category = classify(bmi)" is preserved. |
| `App.BmiEvaluator.ResultColor` | src/App.tsx:99-105 | When a result is shown, the category line's colour is the colour of the stored value's band, one of the six and never the default. |

## Left out

- Rendering: the JSX layout, Tailwind classes, lucide icons, header, footer and the
  reference-range list (src/App.tsx:56-129) are presentation. `ResultColor` keeps only the
  `bmi !== null` condition and the colour lookup.
- React's `useState` machinery and the `onChange` setters of the two inputs
  (src/App.tsx:5-6, 74, 85): the input strings are not state in the model. Batching of
  `setBmi` and `setCategory` into one render is modelled as the two fields being assigned
  in the same call.
- `parseFloat`'s text semantics (prefix parsing such as "12abc", whitespace, exponents,
  "Infinity"): the model takes its result as an `Option<real>`. Infinite weights or heights
  are not representable.
- IEEE-754 doubles: the division is exact. Rounding is not modelled. Nor are these:
  - Overflow of `weight / (height * height)` gives +Infinity for a large positive weight,
    classified 'Obesidad grado III', and -Infinity for a large negative weight, classified
    'Bajo peso'.
  - Underflow of a tiny `height * height` to 0 gives +Infinity for a positive weight
    ('Obesidad grado III') and -Infinity for a negative weight ('Bajo peso'). For a zero
    weight it gives NaN, also 'Obesidad grado III' because every comparison with NaN is
    false.
  - `parseFloat(height) / 100` itself underflows to 0 for a tiny positive height such as
    "5e-324". The guard then rejects the input (src/App.tsx:12-14), while `Evaluate`
    accepts every height above 0.
  - The `toFixed(2)` display (src/App.tsx:103).
