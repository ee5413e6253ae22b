# Blood-pressure checker: a Dafny model

This project models the two pieces of logic in the blood-pressure web application:

- **The vital-sign evaluation** of the `BloodPressureChecker` component (module `BloodPressureChecker`).
  Systolic pressure, diastolic pressure and heart rate are each classified Low, Normal or High.
  The references are 120, 80 and 70, and a value is Normal on the closed band reference ± 10.
  The BMI is weight / (height in metres)², rounded to one decimal as `toFixed(1)` rounds.
  The rounded BMI is classified Underweight, Normal or Overweight against the closed range [18.5, 24.9].
  The general conclusion folds the three vital signs only: High wins over Low, and Low wins over Normal.
  The display colours and arrows, the summary text, the result dialog's status and the dispatch to the store are modelled too.
- **The `bloodPressure` Redux slice** (module `BloodPressureSlice`).
  It holds an eight-field record with an initial value.
  Its one reducer, `updateBloodPressureData`, overwrites all eight fields from the payload.
  It is modelled twice: as a class `Store` whose method updates the fields in place, and as a pure function `Reduce` on record values.
  `Replay` folds `Reduce` over a history of dispatches, which is how the store evolves.

Measurements are `real`, because the form's number inputs accept decimals.
`Optional.dfy` holds the `Option` type that stands for JavaScript's `null`.

`checkBloodPressure` is imperative: it declares conclusion variables and assigns them through if-else chains.
`Assess` mirrors that method statement by statement.
It is proved equal to the pure specification `Evaluate`, and the properties are proved about `Evaluate` and its parts.
The reducer mutates its draft state field by field, so `Store.UpdateBloodPressureData` assigns the eight fields of a class.

## Model

| member | source | states |
|---|---|---|
| `BloodPressureChecker.ClassifyVital` | src/Components/BloodPressureChecker.jsx:78-102 | exactly one class per value: Low iff value < reference − 10, High iff value > reference + 10, Normal iff on the closed band |
| `BloodPressureChecker.ClassifyVitalMonotone` | src/Components/BloodPressureChecker.jsx:78-102 | a greater value never gets a lower class in the order Low < Normal < High |
| `BloodPressureChecker.BandEdgesAreNormal` | src/Components/BloodPressureChecker.jsx:78-102 | the band's edges (110 and 130, 70 and 90, 60 and 80) are Normal; 109.9 is Low and 130.1 High |
| `BloodPressureChecker.ToFixedTenths` | src/Components/BloodPressureChecker.jsx:55 | `toFixed(1)` picks the tenth nearest to x, the larger one on a tie (further from zero for negative x) |
| `BloodPressureChecker.CalculateBmi` | src/Components/BloodPressureChecker.jsx:54-56 | the BMI is within 0.05 of weight / (height/100)² and has one decimal |
| `BloodPressureChecker.ClassifyBmi` | src/Components/BloodPressureChecker.jsx:104-111 | Underweight iff bmi < 18.5, Overweight iff bmi > 24.9, Normal iff 18.5 ≤ bmi ≤ 24.9 |
| `BloodPressureChecker.ClassifyBmiOfQuotient` | src/Components/BloodPressureChecker.jsx:59-111 | because the rounded value is classified, the class is Underweight iff the exact quotient < 18.45, and Overweight iff it is ≥ 24.95 |
| `BloodPressureChecker.BmiOfReferenceAdult` | src/Components/BloodPressureChecker.jsx:54-111 | 70 kg at 180 cm gives BMI 21.6, Normal |
| `BloodPressureChecker.BmiOfLightAdult` | src/Components/BloodPressureChecker.jsx:54-111 | 50 kg at 180 cm gives BMI 15.4, Underweight |
| `BloodPressureChecker.RoundedBmiDecides` | src/Components/BloodPressureChecker.jsx:59-111 | a quotient above 24.9 (24.93…) is still Normal, since it is shown and classified as 24.9 |
| `BloodPressureChecker.Overall` | src/Components/BloodPressureChecker.jsx:114-130 | High iff some sign is High; Low iff none is High and some is Low; Normal iff all three are Normal |
| `BloodPressureChecker.OverallIsStrongest` | src/Components/BloodPressureChecker.jsx:114-130 | the conclusion is one of the three signs and the strongest of them (High > Low > Normal), so their order does not matter |
| `BloodPressureChecker.Evaluate` | src/Components/BloodPressureChecker.jsx:58-130 | each sign classified against 120, 80, 70; the conclusion is High iff systolic > 130 or diastolic > 90 or heart rate > 80, and Low iff none of those and systolic < 110 or diastolic < 70 or heart rate < 60 |
| `BloodPressureChecker.OverallIgnoresBmi` | src/Components/BloodPressureChecker.jsx:104-130 | changing weight or height changes neither the conclusion nor any vital-sign class |
| `BloodPressureChecker.ReferenceReadings` | src/Components/BloodPressureChecker.jsx:58-130 | 120/80/70 at 70 kg, 180 cm is Normal throughout with BMI 21.6; systolic 140 makes the conclusion High; heart rate 55 alone makes it Low |
| `BloodPressureChecker.Assess` | src/Components/BloodPressureChecker.jsx:58-130 | the step-by-step assignments compute exactly `Evaluate`; the conclusion is Normal iff all three signs are |
| `BloodPressureChecker.ConclusionText` | src/Components/BloodPressureChecker.jsx:133-135 | the summary text opens with "Systolic Pressure: " and the systolic class, and closes with ", BMI: " and the BMI class |
| `BloodPressureChecker.ConclusionTextDeterminesClasses` | src/Components/BloodPressureChecker.jsx:133-135 | the summary text determines all four sub-classifications: equal texts come from equal classes |
| `BloodPressureChecker.Payload` | src/Components/BloodPressureChecker.jsx:142-153 | the six measurements dispatched are the inputs, the BMI is the rounded one, and the conclusion is the name of the overall class (so one of "Low", "Normal", "High") |
| `BloodPressureChecker.CheckBloodPressure` | src/Components/BloodPressureChecker.jsx:58-157 | returns `Evaluate` of the reading and its summary text; afterwards the store holds the reading, the BMI and the name of the overall class, which is "High" iff some sign is High |
| `BloodPressureChecker.GetColor` | src/Components/BloodPressureChecker.jsx:159-167 | green ("#3f8600") iff on the closed band normal ± diff, red ("#cf1322") otherwise; with diff 10, green iff the classifier says Normal |
| `BloodPressureChecker.GetIcon` | src/Components/BloodPressureChecker.jsx:169-177 | down arrow iff below the band, up arrow iff above it; with diff 10: none iff Normal, down iff Low, up iff High; no icon iff the colour is green |
| `BloodPressureChecker.DashboardAgreesWithAssessment` | src/Components/BloodPressureChecker.jsx:284-316 | at the three call sites the colour is red iff the sign is not Normal, the down arrow shows iff Low and the up arrow iff High |
| `BloodPressureChecker.BmiColour` | src/Components/BloodPressureChecker.jsx:270-277 | the BMI is shown green ("#3f8600") iff its class is Normal |
| `BloodPressureChecker.BmiIconAsWritten` | src/Components/BloodPressureChecker.jsx:278 | an arrow shows iff the BMI is not Normal, and it is never the down arrow |
| `BloodPressureChecker.BmiIconAsWrittenPointsUpWhenUnderweight` | src/Components/BloodPressureChecker.jsx:278 | an underweight BMI of 15.4 gets the up arrow, while a low heart rate gets the down arrow |
| `BloodPressureChecker.BmiIcon` | src/Components/BloodPressureChecker.jsx:278 | corrected prefix: down arrow iff Underweight, up arrow iff Overweight, none iff the BMI is shown green |
| `BloodPressureChecker.BmiStatistic` | src/Components/BloodPressureChecker.jsx:266-279 | the BMI statistic as drawn: red iff it carries an arrow, an arrow iff the BMI is not Normal, and never the down arrow |
| `BloodPressureChecker.BmiStatisticCorrected` | src/Components/BloodPressureChecker.jsx:266-279 | corrected statistic: red iff it carries an arrow, down arrow iff Underweight, up arrow iff Overweight |
| `BloodPressureChecker.ConclusionColour` | src/Components/BloodPressureChecker.jsx:253-258 | the general-conclusion line is green iff the conclusion is "Normal" |
| `BloodPressureChecker.ResultStatus` | src/Components/BloodPressureChecker.jsx:336-343 | the dialog shows success for "Normal", error for "High", a warning for "Low"; success iff the conclusion line is green |
| `BloodPressureChecker.ConclusionDisplayAgreesWithAssessment` | src/Components/BloodPressureChecker.jsx:253-258 | for the conclusion a check stores, the line is green iff all three signs are Normal, and the dialog shows success, a warning or an error exactly when the reading is Normal, Low or High |
| `BloodPressureSlice.Reduce` | src/Redux/bloodPressureSlice.js:18-28 | the new state is the payload, field for field |
| `BloodPressureSlice.ReduceIgnoresPriorState` | src/Redux/bloodPressureSlice.js:20-27 | the new state does not depend on the prior state |
| `BloodPressureSlice.ReduceIdempotent` | src/Redux/bloodPressureSlice.js:18-28 | dispatching a payload twice gives the state dispatching it once gives |
| `BloodPressureSlice.ReplayKeepsOnlyLast` | src/Redux/bloodPressureSlice.js:14-28 | after any non-empty history of dispatches the store holds exactly the last payload |
| `BloodPressureSlice.Store.constructor` | src/Redux/bloodPressureSlice.js:3-12 | the seven measurement fields start null and the conclusion starts "Normal" |
| `BloodPressureSlice.Store.UpdateBloodPressureData` | src/Redux/bloodPressureSlice.js:18-28 | each of the eight fields equals the payload's field of the same name; the store changes nothing else |
| `BloodPressureSlice.UpdateTwice` | src/Redux/bloodPressureSlice.js:18-28 | two dispatches of one payload leave the store holding that payload, as one dispatch does |

## Left out

- CalculateBmi: rounds the exact real quotient, not the IEEE-754 double the division produces (floating point is not modelled), so the few quotients within a rounding error of a tie (such as x.x5) may round the other way in the browser.
- `CalculateBmi`, `Evaluate`, `Assess` and `CheckBloodPressure` require a positive height. The form's inputs have a minimum of 1, and a zero height (BMI "Infinity" or "NaN") is not modelled.
- `null` and `undefined` inputs, and the `|| null` and `|| "Normal"` defaults when the component loads saved data: missing values are not modelled.
- The BMI is a string in the component (the result of `toFixed(1)`) and is compared with numbers by coercion. The model keeps the number that string denotes; the store's `bmi` field holds that number.
- The store's fields hold whatever the payload holds in JavaScript. The model types them: numbers for the measurements, a string for `generalConclusion`.
- React state hooks, `useEffect`, the setters `setBmi`, `setResult` and `setIsModalVisible`, modal visibility, and the JSX itself: rendering only. `CheckBloodPressure` returns what it hands to `setConclusion`.
- The `result` text (lines 137-139) only prints the three constant references, and the dialog's title only repeats the conclusion.
- The absolute differences shown for systolic and diastolic pressure (lines 298 and 309): display arithmetic with no rule behind it.
- `getIcon` returns React elements; the model returns which arrow it is.
- Store wiring (`createSlice`, `dispatch`, `useSelector`), routing and the install prompt in `src/App.jsx`, and the build configuration in `vite.config.js`: library plumbing, browser I/O and declarative data.

## Findings

| source | as written | input that shows it | evidently intended | confidence | as-written member | corrected member |
|---|---|---|---|---|---|---|
| src/Components/BloodPressureChecker.jsx:278 | the BMI statistic's prefix is the up arrow whenever the BMI is below 18.5 or above 24.9 | BMI 15.4 (50 kg at 180 cm) is Underweight and is shown with an up arrow | a down arrow below 18.5, as `getIcon` shows for every low vital sign | medium, not executed | `BloodPressureChecker.BmiIconAsWritten`, `BloodPressureChecker.BmiIconAsWrittenPointsUpWhenUnderweight` | `BloodPressureChecker.BmiIcon`, `BloodPressureChecker.BmiStatisticCorrected` |
