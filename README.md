# Freight-rate engine: a Dafny model

This project models the rate-calculation engine of the freight-rate
application, `server/src/services/freightCalculator.js`. A shipper asks for
the price of one container between two ports. The engine computes it in
five steps:

1. It resolves each port code to a trade region (`getPortRegionById`). A
   fixed table of port codes is tried first. Otherwise the ports store's
   region is normalised by case-insensitive substring tests. Otherwise the
   answer is `"Unknown"`.
2. It looks up a base rate for the normalised container type
   (`getBaseRate`). The lookup walks a three-level fallback chain over the
   caller's rate table and ends at the constant 2000.
3. It aggregates a weighted index of market indices
   (`calculateWeightedIndex`). This is the renormalised weighted mean of
   current/baseline ratios over the usable entries, and 1.0 when no entry
   is usable.
4. It asks the seasonality provider for a seasonal factor. A rejection
   falls back to factor 1.0 with confidence 0.
5. It applies `max(0, round(base · (1 + (wi − 1) · s) · factor))`.

Every step appends a record to one shared log. The log is handed back only
in debug mode. A critical failure yields the rate −1.

Modules, one file each:

- `Wrappers` (`wrappers.dfy`): `Option`.
- `Text` (`text.dfy`): ASCII case mapping and substring search, standing in
  for JavaScript's `toUpperCase`, `toLowerCase` and `includes`.
- `Trace` (`trace.dfy`): the log records, and the `DebugLog` class that
  the steps push onto.
- `Regions` (`regions.dfy`): `getPortRegionById`.
- `BaseRates` (`base_rates.dfy`): `getBaseRate`.
- `WeightedIndex` (`weighted_index.dfy`): `calculateWeightedIndex`.
- `Formula` (`final_rate.dfy`): the final-rate expression.
- `Engine` (`engine.dfy`): `calculateFreightRate`.

Two things come from outside the engine. The ports store's answer for a
port is a `StoreAnswer` input: found with a region, no row, or a failed
query. The seasonality provider's answer is a `SeasonalityAnswer` input:
resolved with a factor, resolved with nothing, or rejected with a message.
The current month and the elapsed time are inputs too. With these as
inputs, each operation is a specification function. The imperative source
steps (`getBaseRate`, `calculateWeightedIndex` with its loop, and
`calculateFreightRate`) are methods pushing onto a `DebugLog` object. Each
method is proved equal to its specification function, both in what it
returns and in what it appends to the log.

Numbers are exact reals. `Math.round(x)` is `⌊x + 0.5⌋`. A JavaScript
object visited by `for…in` is a sequence of (name, entry) pairs in
visiting order. `null` and `undefined` are `None`.

Where the code and its description differ, the model follows the code:

- The engine is described as raising the rate strictly with the
  sensitivity when the index is above 1. Rounding defeats this: sensitivity
  0.5 and 0.5001 both give 2615 in the commented example
  (`Formula.RoundingMasksSensitivity`). What holds is the non-strict
  version (`Formula.FinalRateMonotoneInSensitivity`).
- The comments at lines 251-253 say the index adjustment is above or below
  1 as the index is. That holds only for a positive sensitivity. A negative
  one reverses it, and zero makes it 1 (`Formula.IndexAdjustment`).
- Only one path reaches the −1 result: the provider resolving to `null`.
  Reading `seasonalityFactor.factor` at line 247 then throws, and the outer
  handler catches it. Every other error is caught inside its own step. The
  handler at lines 197-203 cannot be reached, and neither can the one at
  lines 261-267: nothing inside them throws for numeric inputs.
- The log is written in every mode and discarded outside debug mode. The
  base-rate, index, seasonality and final-rate records are pushed whatever
  the mode. Only the opening, regions, closing and critical-error records
  depend on debug mode. `Engine.Log` models the log in both modes. The
  method returns it as a ghost output, because the source discards it
  outside debug mode.
- At index 1 the sensitivity makes no difference: both directions of
  `Formula.FinalRateMonotoneInSensitivity` apply, so the rate is equal.

## Model

| member | source | states |
|---|---|---|
| Regions.ResolveRegion | server/src/services/freightCalculator.js:40-91 | Never empty. A port in the fixed table gets its region without the store being consulted. Otherwise a non-empty store region is normalised. A missing row, an empty region or a failed query gives "Unknown". |
| Regions.NormaliseStoreRegion | server/src/services/freightCalculator.js:71-82 | The result is a standard region name, or the store's string unchanged. |
| Regions.NormaliseIsFirstMatch | server/src/services/freightCalculator.js:73-82 | The first test in priority order that the lower-cased region passes decides the name. No match passes the string through. |
| Regions.ResolvedRegionIsClosed | server/src/services/freightCalculator.js:62-90 | A resolved region is a standard name, "Unknown", or a store string that passes no test. |
| Regions.ExamplePorts | server/src/services/freightCalculator.js:45-48 | CNSHA resolves to Asia and NLRTM to Europe, whatever the store says. |
| Regions.UnlistedPort | server/src/services/freightCalculator.js:43-62 | INNSA is not in the fixed table. |
| Regions.StoreRegionIgnoresCase | server/src/services/freightCalculator.js:73 | The store region "South CHINA" for an unlisted port gives Asia. |
| Regions.StoreRegionPassesThrough | server/src/services/freightCalculator.js:82 | The store region "Gulf" for an unlisted port is returned verbatim. |
| Regions.StoreMissGivesUnknown | server/src/services/freightCalculator.js:69-90 | An empty store region, a missing row and a failed query all give "Unknown". |
| BaseRates.NormaliseContainer | server/src/services/freightCalculator.js:98-102 | Total: every container type maps to one of 20DV, 40HC, 40DV or Unknown. |
| BaseRates.NormaliseContainerFirstMatch | server/src/services/freightCalculator.js:98-102 | Each class is chosen exactly when its test is the first to pass on the upper-cased input. Unknown means neither "20" nor "40" occurs. |
| BaseRates.NormaliseContainerIgnoresCase | server/src/services/freightCalculator.js:98 | Lower-casing or upper-casing the input first does not change the class. |
| BaseRates.Lookup | server/src/services/freightCalculator.js:106 | The optional-chained lookup is defined exactly when all three keys exist, and is then the stored price. |
| BaseRates.ChainRateIsFirstDefined | server/src/services/freightCalculator.js:106-125 | The rate comes from the first route of exact, origin default and global default that has a price. No earlier route has one. The rate is 2000 when none has. |
| BaseRates.EarlierLevelWins | server/src/services/freightCalculator.js:109-125 | A level with a price shadows every later level. |
| BaseRates.ChainRateFromTable | server/src/services/freightCalculator.js:106-125 | The base rate is a price in the table or the absolute fallback 2000. |
| BaseRates.EmptyTableFallsBack | server/src/services/freightCalculator.js:121-123 | An empty table gives 2000 from the absolute fallback. |
| BaseRates.RequestedBaseRate | server/src/services/freightCalculator.js:94-138 | A container type that is not a string, or a missing table, makes the lookup throw and gives 2000. Otherwise the rate is the chain's rate for the normalised class. |
| BaseRates.BaseRateRecord | server/src/services/freightCalculator.js:95-136 | The record is Success with the returned rate on the normal path. It is Error with the fault when the lookup threw. |
| BaseRates.GetBaseRate | server/src/services/freightCalculator.js:94-139 | Returns the requested base rate. Appends exactly that record to the log and leaves the earlier records unchanged. |
| BaseRates.TwentyFootExample | server/src/services/freightCalculator.js:99 | "20GP" is 20DV. |
| BaseRates.HighCubeExamples | server/src/services/freightCalculator.js:98-100 | "40HC", "40hc" and "40 HQ" are 40HC. |
| BaseRates.FortyFootDryExamples | server/src/services/freightCalculator.js:100-101 | "40HQ" without the space is 40DV, not a high cube. "40ft" is 40DV. |
| BaseRates.UnknownContainerExample | server/src/services/freightCalculator.js:102 | "reefer" is Unknown. |
| WeightedIndex.TotalWeight | server/src/services/freightCalculator.js:172 | The weight used is never negative. |
| WeightedIndex.Outcomes | server/src/services/freightCalculator.js:154-179 | There is one recorded input per entry, in visiting order and under its name. It is marked used exactly when the entry is usable. |
| WeightedIndex.RequestedIndex | server/src/services/freightCalculator.js:147-195 | A missing configuration, or one with no usable entry, gives 1.0 with no sources. Otherwise the sources are the usable names. |
| WeightedIndex.IndexRecord | server/src/services/freightCalculator.js:147-194 | The record carries the returned value. Its status is Success exactly when some source was used, and Warning otherwise. |
| WeightedIndex.WeightedIndexPositiveIffSources | server/src/services/freightCalculator.js:169-182 | Some weight is used exactly when some entry is usable. |
| WeightedIndex.SourcesAreUsableNames | server/src/services/freightCalculator.js:158-175 | A name is a source exactly when some entry with that name is usable: positive weight, both values present, positive baseline. |
| WeightedIndex.AggregationSplits | server/src/services/freightCalculator.js:154-180 | The loop is a left fold. Sum, weight and sources of a split configuration combine part by part, in order. |
| WeightedIndex.IndexValueBetween | server/src/services/freightCalculator.js:182-185 | With some source, the index lies between the smallest and the largest ratio used, so it is a weighted mean. |
| WeightedIndex.IndicesAtBaselineAreNeutral | server/src/services/freightCalculator.js:170-189 | If every usable index stands at its baseline, the index is 1.0. |
| WeightedIndex.ScaledSums | server/src/services/freightCalculator.js:165-172 | Scaling every weight by k > 0 scales the weighted sum and the weight used by k, and keeps the sources. |
| WeightedIndex.WeightsNeedNotSumToHundred | server/src/services/freightCalculator.js:182-185 | Renormalisation: scaling all weights by k > 0 changes neither the index nor its sources. |
| WeightedIndex.ExampleIndex | server/src/services/freightCalculator.js:340-343 | SCFI 1100/1000 and FBX 1300/1200 at 50 % each give 0.5·1.1 + 0.5·1300/1200 = 131/120, from both indices. |
| WeightedIndex.PrefixStep | server/src/services/freightCalculator.js:154-180 | One more loop iteration adds that entry's share to each aggregate. |
| WeightedIndex.AggregateIndices | server/src/services/freightCalculator.js:154-180 | The loop, with its skip checks at lines 158 and 169, computes the weighted sum, the weight used, the sources and the recorded inputs of the whole configuration. |
| WeightedIndex.CalculateWeightedIndex | server/src/services/freightCalculator.js:142-195 | Returns the requested index. Appends exactly its record to the log and leaves the earlier records unchanged. |
| Formula.IndexAdjustment | server/src/services/freightCalculator.js:250-254 | The adjustment is 1 at index 1 or sensitivity 0. With s > 0 it is above (below) 1 exactly when the index is. With s < 0 the direction reverses. |
| Formula.Round | server/src/services/freightCalculator.js:256 | `Math.round` gives the integer within half a unit, with halves rounded up. |
| Formula.FinalRate | server/src/services/freightCalculator.js:254-256 | A non-negative integer. It is zero exactly when the raw rate is below 0.5, and otherwise the nearest integer to the raw rate. |
| Formula.RoundMonotone | server/src/services/freightCalculator.js:256 | Rounding preserves order. |
| Formula.RawRateFactors | server/src/services/freightCalculator.js:254-255 | The raw rate is base · factor times the adjustment. |
| Formula.NeutralIndexKeepsSeasonalBase | server/src/services/freightCalculator.js:251-256 | A neutral index (or sensitivity 0) leaves round(base · factor), clamped at 0. |
| Formula.FinalRateMonotoneInSensitivity | server/src/services/freightCalculator.js:251-256 | For base · factor ≥ 0, a larger sensitivity never lowers the rate when the index is at least 1, and never raises it when the index is at most 1. |
| Formula.RoundingMasksSensitivity | server/src/services/freightCalculator.js:254-256 | The commented example gives 2615 at sensitivity 0.5 and also at 0.5001. |
| Engine.SeasonalityRecord | server/src/services/freightCalculator.js:232-244 | The seasonality record carries the month. It is Success with the provider's value when the provider resolves. It is Error with the default 1.0/0 and the message when the provider rejects. |
| Engine.FreightRate | server/src/services/freightCalculator.js:207-310 | The rate is −1, with a critical failure, exactly when the provider resolves to nothing. Otherwise the result is calculated with a non-negative rate. The log is present exactly in debug mode. |
| Engine.CoreStageOrder | server/src/services/freightCalculator.js:225-244 | The three records written in every mode come in the order base rate, weighted index, seasonality. |
| Engine.OpeningStageOrder | server/src/services/freightCalculator.js:212-244 | Debug mode puts the start and regions records before those three. |
| Engine.TraceStageOrder | server/src/services/freightCalculator.js:212-302 | Every log holds base rate, weighted index and seasonality in that order, then the final rate unless the calculation failed. Debug mode adds start and regions in front and the end record (or the critical-error record) last. |
| Engine.ResultAgreesWithTrace | server/src/services/freightCalculator.js:259-292 | In debug mode the returned log is the whole log. The last record's status is the overall outcome. The base rate, index, seasonal factor and final rate of a calculated result are the ones the records carry. |
| Engine.DebugModeOnlyAddsTheLog | server/src/services/freightCalculator.js:278-308 | Debug mode changes nothing but the presence of the log. |
| Engine.RejectedSeasonalityUsesDefault | server/src/services/freightCalculator.js:231-244 | A rejected provider does not stop the calculation. The result uses factor 1.0 and confidence 0, and the seasonality record is Error with the provider's message. |
| Engine.GetSeasonality | server/src/services/freightCalculator.js:231-244 | Returns nothing exactly when the provider resolves to nothing, and otherwise the factor in use. Appends exactly the seasonality record. |
| Engine.ApplyFinalRate | server/src/services/freightCalculator.js:246-268 | Returns the final rate of the formula. Appends exactly the final-rate record with its index adjustment. |
| Engine.CalculateFreightRate | server/src/services/freightCalculator.js:207-310 | The step-by-step pipeline returns the result of `Engine.FreightRate`, and its shared log is `Engine.Log`, in both modes. |
| Engine.CommentedExample | server/src/services/freightCalculator.js:334-346 | Shanghai to Rotterdam, 40HC, base 2500, both indices, sensitivity 0.5 and a neutral (or rejected) seasonal factor give 2615 from the sources SCFI and FBX. |

## Left out

- The ports store query (lines 29-35, 66-68) is not modelled. Its outcome is the `StoreAnswer` input, and an error in the query is `QueryFailed`.
- `fetchSeasonalityFactor` (line 236) is an external provider. Its outcome is the `SeasonalityAnswer` input.
- A provider answer whose factor field is missing or not a number is not modelled. Such an answer would make the rate `NaN`.
- The scraper imports (lines 8-16) are never called in this file.
- `saveRequestToHistory` (lines 317-330) is a database insert that swallows its errors.
- The controller in `server/src/controllers/freightController.js` is request and database plumbing. Its one rule, that history is saved only when the rate is not −1, is not modelled.
- `Date.now`, the ISO timestamps and the month computation (lines 210, 232, 271-272, 299-300) are not modelled. The month and the duration are inputs.
- `console` output is left out.
- The free-text `details` strings and the `toFixed` formatting (lines 110-123, 174, 187, 258) are left out. The base-rate record stores which chain level supplied the rate, and the index-adjustment field stores the exact real.
- The `reason` texts and raw field values recorded for skipped indices are left out. Each entry is recorded only as skipped or used with its ratio.
- JavaScript floating point, `NaN` and `parseFloat` are not modelled; values are exact reals. A value that is absent or does not parse is `None`. An entry with a present, positive weight but a value that does not parse is skipped, as at line 169.
- Exception messages and stack traces produced by the runtime are not recorded, including the critical-error record's `error` and `stack` and the base-rate record's `error`. `getBaseRate`'s failures are recorded as a fault kind instead.
- Region and container matching covers ASCII case mapping only. Unicode case rules are left out.
- Objects are not modelled as JavaScript objects. `for…in` puts integer-like keys first, and prototype keys such as `"constructor"` would be found in `regionMap`; the model keeps the caller's order and has only the listed ports.
- A store region that is not a string is left out. `toLowerCase` on it would throw, and the catch would give "Unknown".
- A base-rate table value that is not a number is left out.
- `weight` is only recorded in the opening record, as at line 213; the engine never uses it in the rate.
- The `async`/`await` sequencing is left out. Each call completes before the next starts, so the model is sequential.
- The handlers at lines 197-203 and 261-267 are left out. Nothing inside their `try` blocks throws for the modelled inputs.
