# Carbon Auditor: the emissions calculator and its decision rules

Carbon Auditor is a browser dashboard that turns a day of activity into kilograms of CO₂. The activity covers transport, energy, food and lifestyle. This project models the dashboard's logic in Dafny and proves properties of it.

The model covers:

- **The daily calculator.** Each category yields a user part and a fixed metabolic baseline. Both parts are scaled by the chosen policy, and a disabled category contributes no user part. The calculator also produces the totals and a ±15 % confidence band.
- **The projection chart.** Each view scale has a fixed table of day offsets. Each chart point holds the daily figures times the number of days, rounded as the dashboard rounds them.
- **The two input records.** These are the user's own day and a test scenario. The handlers edit whichever record is active.
- **The numeric field validator.** It decides what value, if any, reaches the calculator. The form's per-field bounds and visibility rules sit on top of it.
- **The panels.** The planet panel's stability index, pollution factor, cloud opacity and status label, and the persona panel's nearest archetype, gap and proximity bar, are computed from the annual load: the user's daily total × 365. The advice panel works from the breakdown itself. It picks the heaviest category, writes the request's figures, and decides which tips are shown at each stage where the request can fail. The equivalents panel (trees, charges, kilometres, cylinders, ocean uptake, saturation index) is handed the headline figure instead. That is the daily total × the hovered day while the chart is hovered, and the annual load otherwise.

The arithmetic is done over exact reals.

`Number(x.toFixed(d))` is modelled exactly, as `Rounding.ToFixed`. It rounds to the nearest multiple of 10^-d, a tie goes away from zero, and the sign is kept. Section 21.1.3.3 of ECMAScript defines this rounding.

Because of this, the model can prove two facts about the rounding:

- Every scaled baseline is exact.
- The rounded totals equal the sums of the rounded parts.

A chart point's "rate × days" is written as an n-fold sum, `Chart.OverDays`. `Chart.OverDaysIsProduct` proves that this sum is the product.

`parseFloat` is not modelled character by character. Each typed entry carries the reading the browser gives it: NaN, a finite number or an infinity.

Modules, one per source file or component:

| module | file |
|---|---|
| `Types` | types.ts |
| `Constants` | constants.ts |
| `Rounding` | `toFixed` |
| `Breakdown` | `calculateBreakdown` in App.tsx |
| `Chart` | `chartData` and the headline figures in App.tsx |
| `Workspace` | the input records and their handlers in App.tsx |
| `NumericInput` | components/NumericInput.tsx |
| `InputSection` | components/InputSection.tsx |
| `Earth` | components/EarthVisualizer.tsx |
| `Forensic` | components/ForensicBreakdown.tsx |
| `ActionCenter` | components/ActionCenter.tsx |
| `Equivalents` | components/EquivalentsSection.tsx |
| `Dashboard` | how App.tsx feeds the panels |

## Model

| member | source | states |
|---|---|---|
| `Constants.TransportFactor` | constants.ts:4-11 | Every transport factor is nonnegative, and it is exactly 0 for Bicycle and Walking and for no other mode. |
| `Constants.DietFactor` | constants.ts:14-20 | Every diet factor lies between the vegan 2.9 and the high-meat 7.2. |
| `Constants.DietFactorsStrictlyDecrease` | constants.ts:14-20 | The diet factors strictly decrease from HighMeat through MediumMeat, LowMeat and Vegetarian to Vegan. |
| `Constants.FactorsNonnegative` | constants.ts:3-33 | Every emission factor and every metabolic baseline is nonnegative. |
| `Constants.MetabolicBaseline` | constants.ts:28-33 | The four baselines lie between 0.8 and 4.2 kg per day. |
| `Constants.PolicyModifier` | constants.ts:56-61 | Every policy modifier is positive, between 0.70 and 1.25; the lookup is total over the four scenarios. |
| `Constants.ThresholdsOrdered` | constants.ts:44-48 | The thresholds are ordered: 0 < Paris maximum 2500 < world average 4700 < high intensity 15000. |
| `Constants.ArchetypesWellFormed` | constants.ts:50-54 | There are three archetypes, so the seedless `reduce` over them has something to start from, and each has a positive annual figure. |
| `Breakdown.UserFormulaNonnegative` | App.tsx:40-62 | Nonnegative inputs give a nonnegative user formula in every category. |
| `Breakdown.GetComp` | App.tsx:35-38 | A disabled category's user part is 0. An enabled one's is within half a millionth of value × modifier, and nonnegative when that product is. A baseline already on the millionth grid comes out exact. Both parts lie on the grid. |
| `Breakdown.CategoryComp` | App.tsx:40-62 | A category's component is zero-user when disabled. Otherwise its user part tracks that category's linear formula times the modifier. |
| `Breakdown.CategoryBaseline` | App.tsx:35-62 | A category's baseline is exactly its metabolic baseline times the modifier, whatever the flag or the inputs. |
| `Breakdown.CategoryUserNonnegative` | App.tsx:35-62 | Nonnegative inputs give a nonnegative user part in every category. |
| `Breakdown.CalculateBreakdown` | App.tsx:31-77 | The four components are those of each category, and `totalUser` and `totalBaseline` are exactly the sums of the four parts. `total = totalUser + totalBaseline`, and the band is [0.85·total, 1.15·total]. |
| `Breakdown.TotalsExact` | App.tsx:64-74 | When all parts lie on the millionth grid, rounding the three sums to six decimals changes nothing. |
| `Breakdown.BreakdownNonnegative` | App.tsx:31-77 | Nonnegative inputs give nonnegative parts and totals, and a band with lo ≤ total ≤ hi. |
| `Breakdown.NothingEnabledLeavesBaseline` | App.tsx:35-66 | With every category off, `totalUser` is 0 and `totalBaseline = total = 9.7 × modifier`. |
| `Breakdown.InitialInputsBreakdown` | App.tsx:18-29 | The record the dashboard opens with has `totalUser` 0 and `total` 9.7 × modifier. |
| `Breakdown.DigitalTermSilent` | App.tsx:58-62 | With digital hours 0, the lifestyle formula is water and waste alone. |
| `Chart.StepsShape` | App.tsx:93-98 | The daily, weekly, monthly, yearly and decade scales have 7, 5, 12, 4 and 4 columns, at the listed day offsets, which are positive and strictly increasing. |
| `Chart.EvenSteps` | App.tsx:94-96 | A table whose i-th column falls on day (i+1)·k, for k ≥ 1, is strictly increasing. |
| `Chart.MakePoint` | App.tsx:100-118 | A point keeps its column's day and caption, and carries a simulated figure exactly in simulation mode. |
| `Chart.ChartData` | App.tsx:92-120 | One point per column of the scale, at that column's day offset, each with a simulated figure exactly in simulation mode. The i-th point is the point of the scale's i-th column, so every figure lemma about `MakePoint` applies to it. |
| `Chart.NatToString` | App.tsx:94-96 | A caption's numeral is a non-empty string of decimal digits. |
| `Chart.NatToStringNoLeadingZero` | App.tsx:94-96 | A numeral starts with 0 only when it is the numeral of 0. |
| `Chart.NatToStringRoundTrip` | App.tsx:94-96 | Reading a caption's numeral back as a decimal number gives the column number that was printed. |
| `Chart.OverDaysIsProduct` | App.tsx:101-117 | The rate accumulated over n days is rate × n. |
| `Chart.OverDaysMonotone` | App.tsx:110-111 | Accumulating keeps the order of daily rates. |
| `Chart.OverDaysAdd` | App.tsx:113-117 | Accumulating a sum of five rates gives the sum of the five accumulations. |
| `Chart.PointTracksDailyRate` | App.tsx:106-109 | `current`, `currentBaseline`, `currentUser` and, in simulation mode, `simulated` are each within half a cent of the daily figure accumulated over the point's days. |
| `Chart.RoundedTracksRate` | App.tsx:106-117 | A daily rate times n days, rounded to d decimals, is within half a unit of the last place of the exact product. |
| `Chart.LayersAddUpToCurrent` | App.tsx:106-117 | For a calculated breakdown, the five stacked layers add up to the point's `current` within the rounding of six figures: 5 × 0.00005 + 0.005. |
| `Chart.LayerSum` | App.tsx:113-117 | Five figures rounded to four decimals sum to within 5 × 0.00005 + 0.005 of their total rounded to two. |
| `Chart.BandContainsCurrent` | App.tsx:106-111 | For a calculated breakdown with a nonnegative total, `minRange ≤ current ≤ maxRange` at every point. |
| `Chart.DisplayFigure` | App.tsx:122-128 | The headline figure is the daily rate times the hovered day. With no hovered day, or a hovered day of 0, it is the daily rate times 365. |
| `Chart.HoveredHeadlineMatchesPoint` | App.tsx:106-128 | With a column of day ≥ 1 hovered, the headline figure is within half a cent of that column's `current`. |
| `Chart.HoveredColumnHeadline` | components/AccumulationChart.tsx:92-94 | The chart reports a hovered column's own day as the scrubbed day. The headline then agrees with that point of `chartData` to within half a cent. |
| `Workspace.ApplyEdit` | App.tsx:130-133 | An edit sets exactly the named field, or the named select, and leaves every other field and the category flags unchanged. |
| `Workspace.ApplyEditIdempotent` | App.tsx:130-133 | Applying the same edit twice equals applying it once. |
| `Workspace.FlipFlag` | App.tsx:135-138 | Flipping a category negates that one flag and leaves the other three alone. |
| `Workspace.ToggleInputs` | App.tsx:135-138 | A toggle flips exactly one flag; every number and both selects stay unchanged. |
| `Workspace.ToggleTwice` | App.tsx:135-138 | Toggling the same category twice restores the record. |
| `Workspace.HandleInputChange` | App.tsx:130-133 | The edit lands on the active record; the other record and the mode are unchanged. |
| `Workspace.HandleToggleCategory` | App.tsx:135-138 | The toggle lands on the active record; the other record and the mode are unchanged. |
| `Workspace.SwitchRecord` | App.tsx:177-181 | The two buttons choose which record the form edits and change neither record. |
| `Workspace.EditsStayInActiveRecord` | App.tsx:130-138 | In simulation mode the user's own record never changes; outside it the scenario never changes. |
| `NumericInput.HandleChange` | components/NumericInput.tsx:30-52 | A value reaches the calculator iff the error is cleared iff the text is blank or an in-range number. A blank text passes 0. NaN, below-minimum and above-maximum each set their own error and pass nothing. A non-blank accepted text passes exactly its number. |
| `NumericInput.PropagatedInRange` | components/NumericInput.tsx:30-52 | Whatever reaches the calculator is 0 or lies within [min, max]. |
| `NumericInput.HandleBlur` | components/NumericInput.tsx:59-66 | Blur keeps the text and never clears an error. It changes the error only for NaN or out-of-range readings, and then always sets one: "Calculation paused" for NaN, the range message for an out-of-range number. |
| `NumericInput.ChangeKeepsConsistent` | components/NumericInput.tsx:30-52 | After any keystroke the field shows an error exactly when its text would be refused. |
| `NumericInput.UntouchedFieldConsistent` | components/NumericInput.tsx:16-19 | The field as first rendered for 0 (empty text, no error) shows an error exactly when its text would be refused. |
| `NumericInput.BlurFlagsBlankField` | components/NumericInput.tsx:59-62 | Blurring the untouched blank field, which the keystroke rule accepts as 0, sets "calculation paused" and leaves the field inconsistent. |
| `NumericInput.HandleBlurCorrected` | components/NumericInput.tsx:34-38 | Corrected blur: a blank text is left alone; any other text is treated as the original blur treats it. |
| `NumericInput.BlurCorrectedKeepsConsistent` | components/NumericInput.tsx:30-66 | The corrected blur keeps a consistent field consistent and keeps whether it shows an error. |
| `NumericInput.RunFieldConsistent` | components/NumericInput.tsx:30-66 | From a consistent field, any run of keystrokes and corrected blurs leaves it consistent. |
| `InputSection.FieldBoundsTable` | components/InputSection.tsx:37-157 | Every control has minimum 0. The maxima are transport 1500, electricity 400, AC hours 24, food waste 50, water 3000 and waste 100. Digital hours has no control. |
| `InputSection.FormStep` | components/InputSection.tsx:35-157 | An event changes only the active record. A typed entry on a hidden field changes nothing. On a shown field the entry reaches the record exactly when the validator passes a value on. |
| `InputSection.InitialAdmissible` | App.tsx:18-29 | Both records the dashboard opens with have every field within its control's range and digital hours 0. |
| `InputSection.EditKeepsAdmissible` | components/InputSection.tsx:37-157 | An in-range numeric edit keeps a record admissible. |
| `InputSection.StepKeepsAdmissible` | components/InputSection.tsx:35-157 | Every form event keeps both records admissible. |
| `InputSection.RunKeepsAdmissible` | components/InputSection.tsx:35-157 | Any run of form events keeps both records admissible. |
| `InputSection.AdmissibleIsNonnegative` | components/InputSection.tsx:37-157 | An admissible record has nonnegative inputs and digital hours 0. |
| `InputSection.ReachableRecordsAdmissible` | components/InputSection.tsx:129-161 | Whatever the user does from the opening state, both records stay within the form's ranges with nonnegative inputs, and digital hours stays 0. |
| `Earth.Stability` | components/EarthVisualizer.tsx:25 | The index is ≥ 0, and ≤ 100 for a nonnegative load. It is 100 at no load and 0 from 15000 up. Below that it is 100 − load/150. |
| `Earth.StabilityAntitone` | components/EarthVisualizer.tsx:25 | A heavier load never raises the index. |
| `Earth.Pollution` | components/EarthVisualizer.tsx:30-34 | The factor lies in [0, 1]. It is 0 up to 2500 and 1 from 15000. In between it is (load − 2500)/12500. |
| `Earth.PollutionMonotone` | components/EarthVisualizer.tsx:30-34 | The factor never decreases as the load grows. |
| `Earth.HealthyExcludesCritical` | components/EarthVisualizer.tsx:26-27 | No load is both healthy and critical; a healthy load has no pollution. |
| `Earth.StatusOf` | components/EarthVisualizer.tsx:324-325 | Equilibrium iff load ≤ 2500; Emergency iff load > 4700; Strain iff 2500 < load ≤ 4700. |
| `Earth.StatusMonotone` | components/EarthVisualizer.tsx:324-325 | A heavier load never moves the label back towards Equilibrium. |
| `Earth.CloudOpacity` | components/EarthVisualizer.tsx:257 | Opacity stays within [0.45, 0.8]. It is 0.8 up to 2500 and 0.45 from 15000. |
| `Earth.CloudOpacityAntitone` | components/EarthVisualizer.tsx:257 | A heavier load never thickens the clouds. |
| `Forensic.AnnualLoad` | components/ForensicBreakdown.tsx:13 | The annual load is the daily total accumulated over 365 days. It is the headline figure when no day is hovered (App.tsx:122, 126). It is at least the daily total when that is nonnegative, and at most it otherwise. |
| `Forensic.FoldNearestIsFirstClosest` | components/ForensicBreakdown.tsx:20-22 | The `reduce` settles on an archetype no other is strictly closer to. Every earlier one is strictly farther, so a tie keeps the earlier. |
| `Forensic.NearestIndex` | components/ForensicBreakdown.tsx:20-22 | Over any non-empty list, the chosen index is a closest one, and the first closest. |
| `Forensic.NearestArchetype` | components/ForensicBreakdown.tsx:20-22 | The chosen archetype is one of the three, and none is strictly closer to the load. |
| `Forensic.NearestByRange` | components/ForensicBreakdown.tsx:20-22 | A load ≤ 3400 shows Aligned Persona. A load strictly between 3400 and 6600 shows Global Average. A load ≥ 6600 shows Urban Professional. |
| `Forensic.Delta` | components/ForensicBreakdown.tsx:71 | The gap is nonnegative, no larger than the distance to any archetype, and equal to the distance to one of them. |
| `Forensic.ProximityWidth` | components/ForensicBreakdown.tsx:88 | The bar width is at most 100 and nonnegative for a nonnegative load. It is exactly 100 iff the load reaches the chosen archetype's figure. |
| `ActionCenter.FoldHeaviestIsLastHeaviest` | components/ActionCenter.tsx:67-73 | The `reduce` settles on a heaviest category. Every later one is strictly lighter, so a tie goes to the later. |
| `ActionCenter.HighestCategory` | components/ActionCenter.tsx:65-74 | No category's user + baseline exceeds the chosen one's. Every category after it in the order transport, energy, food, lifestyle is strictly lighter. |
| `ActionCenter.AllDisabledPicksFood` | components/ActionCenter.tsx:65-74 | With every category off, food is chosen under every policy. |
| `ActionCenter.PromptFigure` | components/ActionCenter.tsx:28-31 | The per-category figure in the request is within half a cent of user + baseline, and nonnegative when that is. |
| `ActionCenter.PromptAnnual` | components/ActionCenter.tsx:33 | The annual figure in the request is a whole number within 0.5 of total × 365. |
| `ActionCenter.Attempt` | components/ActionCenter.tsx:23-49 | The request ends in the `try` block's success exactly when every stage goes through: the client is built, the request resolves, the reply has text, and the text parses. Only then does it carry the parsed tips. |
| `ActionCenter.AdviceTips` | components/ActionCenter.tsx:23-54 | Each failing stage on its own leaves the three fallback tips on screen: no client, a rejected request, a missing `text`, or unparsable text. A full success shows the parsed tips. Nothing else is ever shown. |
| `Equivalents.TreeCount` | components/EquivalentsSection.tsx:11 | The tree count is the least whole number of 21 kg tree-years covering the load. |
| `Equivalents.SmartphoneCharges` | components/EquivalentsSection.tsx:12 | The charge count is the greatest whole number of 0.008 kg charges the load covers. |
| `Equivalents.DrivingKm` | components/EquivalentsSection.tsx:13 | The kilometre count is the greatest whole number of 0.17 kg kilometres the load covers. |
| `Equivalents.CountsNonnegative` | components/EquivalentsSection.tsx:11-13 | For a nonnegative load, all three counts are nonnegative. |
| `Equivalents.CountsMonotone` | components/EquivalentsSection.tsx:11-13 | A heavier load never lowers a count. |
| `Equivalents.LpgCylinders` | components/EquivalentsSection.tsx:14 | The cylinder figure is within 0.05 of load / 43.5. |
| `Equivalents.OceanAbsorption` | components/EquivalentsSection.tsx:15 | The ocean figure is within 0.05 of load × 0.25. |
| `Equivalents.SaturationIndex` | components/EquivalentsSection.tsx:16 | The saturation index is within 0.00005 of load × 0.014. |
| `Equivalents.RoundedFiguresMonotone` | components/EquivalentsSection.tsx:14-16 | The three rounded figures keep the order of loads. |
| `Equivalents.RoundedFiguresNonnegative` | components/EquivalentsSection.tsx:14-16 | For a nonnegative load, the three rounded figures are nonnegative. |
| `Dashboard.ReachableAnnualNonnegative` | App.tsx:285-289 | Both records the form can reach, from the opening record through any sequence of edits, have a nonnegative annual load. |
| `Dashboard.AnnualPanelsInRange` | App.tsx:285-289 | For a nonnegative daily total, the stability index and the proximity bar lie in [0, 100]. The request's annual figure is a nonnegative whole number within 0.5 of the annual load. |
| `Dashboard.HeadlineEquivalentsNonnegative` | App.tsx:288 | For a nonnegative daily total and a hovered day that is a column's day (at least 1), the headline figure `displayTotal` (line 126) handed to the equivalents panel is nonnegative, and so are its three counts. |
| `Dashboard.ReachablePanelsInRange` | App.tsx:283-289 | For every reachable user record, the panels receive figures within those ranges. |
| `Dashboard.YearColumnIsAnnual` | App.tsx:97-122 | The yearly view's last column shows the annual load to within half a cent. |
| `Rounding.ToFixedNear` | App.tsx:36-37 | `toFixed(d)` moves a value by at most half a unit of the d-th decimal. |
| `Rounding.ToFixedSign` | App.tsx:36-37 | `toFixed(d)` keeps the sign. |
| `Rounding.ToFixedOnGridResult` | App.tsx:36-37 | `toFixed(d)` lands on the grid of 10^-d. |
| `Rounding.ToFixedOnGrid` | App.tsx:72-74 | `toFixed(d)` leaves a value already on the grid unchanged. |
| `Rounding.ToFixedMonotone` | App.tsx:106-111 | `toFixed(d)` keeps the order of values. |

## Left out

- The Three.js scene and its shaders, animation loop, resize handling and random star field are rendering code and are nondeterministic.
- Every call to the external language model is left out: the chat assistant, the science search and the advice request. They are network I/O with opaque replies. For the advice request, what each stage returns is a parameter (`ActionCenter.AdviceRun`), and so is what `JSON.parse` makes of the reply. The panel's response to those outcomes is modelled. `setTips` accepts whatever the parse returns, and the model takes it to be a list of tips.
- The accumulation chart's drawing and the temporal impact tracker are not part of this model. The tracker uses a logarithm over floating point, and the chart is a plotting wrapper. Only the chart's hover callback is modelled. It reports the hovered column's day as the scrubbed day, and a null day when the mouse leaves.
- The model audit panel is a static display of constants.
- `dominantCategory` in components/ForensicBreakdown.tsx:15-18 is left out. It compares objects through JavaScript coercion and is not a stated rule.
- Numbers are exact reals, not IEEE doubles. A figure such as 0.17 is exact here, but the browser holds it rounded.
- `toFixed` is modelled for 0 to 6 fraction digits and magnitudes below 10^21; the exponent form it uses beyond that is not.
- `toLocaleString` and string formatting of figures are left out. So are the error messages' wording (one constructor per message) and the stability index's one-decimal display.
- `parseFloat`'s prefix reading is left out. A typed entry carries the number the browser reads from it.
- The `useEffect` that re-syncs a field's text with its value is left out, and so are React state, memoisation and loading flags.
- `handleInputChange` is only ever called with numeric keys and the two select keys. The form never passes `enabledCategories` through it, so `Workspace.Edit` has no such case.
- `Chart.PointTracksDailyRate`: compares each figure with the accumulated rate `OverDays`. The comparison with the product `rate × days` is carried by `Chart.OverDaysIsProduct` and `Chart.RoundedTracksRate`, which keeps each proof linear.
- `Breakdown.CategoryComp`: states the user part to within half a millionth of the formula times the modifier rather than exactly, because the source rounds it to six decimals.

## Findings

| source | as written | input that shows it | evidently intended | confidence | as-written member | corrected member |
|---|---|---|---|---|---|---|
| components/NumericInput.tsx:59-62 | On blur, a text `parseFloat` reads as NaN gets "Calculation paused", and this includes a blank text. | Focus and leave a field showing an empty text, which is how a value of 0 is first shown. The keystroke rule accepts the blank text and passes 0, but blur then flags it. | A blank text is accepted as 0 on blur as it is on change, so the field shows no error. | not executed | `NumericInput.HandleBlur`, `NumericInput.BlurFlagsBlankField` | `NumericInput.HandleBlurCorrected`, `NumericInput.RunFieldConsistent` |
