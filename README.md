# Currency monitor core, modelled in Dafny

A model of the logic inside `CurrencyMonitor` (`app.js`), a browser dashboard that
tracks whether converting a fixed USD amount to EUR today beats the rate recorded on
a sale date, after a percentage commission. The model covers:

- the financial figures: commission multiplier, base price, delta of a candidate
  rate against the commission-free base price, sale-day delta ("commission impact"),
  delta percentage, the "Safe to convert" verdict and the breakeven rate
  (module `Calculator`, exact `real` arithmetic);
- the settings record: restoring it from the stored record over the defaults,
  what saving writes, and the validation of user input (module `SettingsStore`);
- the chart series built by `updateCharts`: the sale-date rate, the historical
  rates and today's rate merged by date, sorted as strings and paired with
  their deltas (modules `ChartSeries` and `LexicalOrder`, the latter giving the
  string order of the default `sort()` and an insertion sort);
- the object itself (module `Monitor`, class `CurrencyMonitor`): its `settings`
  and storage slot, `updateSettings` with its exact write order, and the
  read-only `updateCurrentData`, `updateCharts` and `getBreakevenRate`, with every
  fetched value passed in as a parameter (`None` for a fetch that threw).

`None` stands for JavaScript's `null`, and for a `parseFloat` result that is NaN.
Where a settings number is `null` inside arithmetic, the model coerces it to 0 as
JavaScript does (`Monitor.NumberOf`), so a stored `commission: null` gives a
multiplier of 1.

## Model

| member | source | states |
|---|---|---|
| `Calculator.CommissionMultiplier` | app.js:57-59 | for a commission in [0, 100] the multiplier lies in [0, 1]; it is zero exactly at 100%, and below 1 for any positive commission |
| `Calculator.BasePrice` | app.js:151 | the commission-free EUR value is positive for a positive amount and rate, and non-zero whenever both are non-zero |
| `Calculator.Delta` | app.js:130-136 | below a 100% commission the delta equals amount × multiplier × (rate − breakeven rate): it is zero at the breakeven rate and has the sign of the rate's distance from it for a positive amount |
| `Calculator.SaleDayDelta` | app.js:151-152 | the sale-day delta is exactly the commission fee on the base price, negated |
| `Calculator.DeltaPercentage` | app.js:154 | the percentage times the base price is 100 times the delta; for a positive base price it has the delta's sign |
| `Calculator.BreakevenRate` | app.js:221-223 | there is no breakeven rate exactly when the commission is 100%; otherwise the breakeven rate times the multiplier is the sale-date rate |
| `Calculator.CurrentFigures` | app.js:151-164 | the figures shown: the base price is amount × sale-date rate, today's delta is the delta at the current rate, the sale-day delta equals the delta at the sale-date rate, the percentage times the base price is 100 × today's delta, and "Safe to convert" is `todayDelta >= 0`, which holds iff the current rate reaches the breakeven rate (positive amount, commission below 100%) |
| `Calculator.SaleDayDeltaIsDeltaAtSaleRate` | app.js:130-152 | the sale-day delta is `calculateDelta` of the sale-date rate |
| `Calculator.SaleDayDeltaSign` | app.js:151-152 | for a positive amount and rate and a non-negative commission the sale-day delta is at most 0, and below 0 once the commission is positive |
| `Calculator.DeltaZeroAtBreakeven` | app.js:221-223 | below 100% commission, the delta at the breakeven rate is exactly 0 |
| `Calculator.SafeIffAtLeastBreakeven` | app.js:164-171 | for a positive amount and a commission below 100%, `todayDelta >= 0` iff the rate is at least the breakeven rate (both directions) |
| `Calculator.DeltaStrictlyIncreasing` | app.js:130-136 | for a positive amount and a commission below 100%, a higher rate gives a strictly larger delta |
| `Calculator.WorkedExample` | app.js:151-164 | 1000 USD at 0.92 with 2%: base price 920, sale-day delta −18.4; at 0.95 the delta is 11 and the verdict is "Safe to convert" |
| `SettingsStore.LoadSettings` | app.js:39-48 | with nothing stored the defaults are used; otherwise each key takes the saved value when the saved record has it and the default otherwise, commission defaulting to 2 |
| `SettingsStore.Save` | app.js:50-54 | saving writes every key of the settings, `null` ones included |
| `SettingsStore.SaveLoadRoundTrip` | app.js:39-54 | loading a saved record gives back the settings that were saved |
| `SettingsStore.EmptyRecordLoadsDefaults` | app.js:47 | a stored record without keys loads the same settings as no record |
| `SettingsStore.ValidateInput` | app.js:66-74 | input is accepted iff the date is non-empty, the amount is a number above 0 and the commission a number in [0, 100]; the date/amount check comes first and decides the first alert |
| `SettingsStore.AcceptedMultiplierInUnitInterval` | app.js:57-74 | every accepted commission gives a multiplier in [0, 1] |
| `SettingsStore.FullCommissionAccepted` | app.js:71 | a 100% commission passes validation, while its multiplier is 0 and no breakeven rate exists for any sale-date rate |
| `SettingsStore.AcceptedBelowFullHasBreakeven` | app.js:221-223 | every accepted commission below 100% has a breakeven rate at which the delta is 0 |
| `LexicalOrder.BelowIrreflexive` | app.js:207 | no string sorts before itself |
| `LexicalOrder.BelowAsymmetric` | app.js:207 | two strings never sort before each other both ways |
| `LexicalOrder.BelowTransitive` | app.js:207 | the sort order is transitive |
| `LexicalOrder.BelowTotal` | app.js:207 | any two different strings are ordered one way or the other |
| `LexicalOrder.BelowAfterPrefix` | app.js:207 | a common prefix does not change how two strings compare |
| `LexicalOrder.Insert` | app.js:207 | inserting a new string into an ascending sequence keeps it ascending and adds exactly that string |
| `LexicalOrder.Sort` | app.js:207 | sorting distinct strings yields an ascending permutation of them |
| `LexicalOrder.AscendingUnique` | app.js:207 | two ascending sequences with the same elements are equal |
| `LexicalOrder.LeastComesFirst` | app.js:207 | in an ascending sequence the least element comes first |
| `ChartSeries.ObjectKeys` | app.js:207 | `Object.keys` lists every key of the object exactly once |
| `ChartSeries.ChartDataRates` | app.js:201-205 | the merged object holds exactly the sale date, the historical dates and today; a historical rate wins over the seeded sale-date rate, and today's rate is used only for a date absent from both |
| `ChartSeries.ToPoints` | app.js:208-212 | each point carries its date in order, the merged rate for that date and `calculateDelta` of that rate |
| `ChartSeries.AssembleSeries` | app.js:201-212 | the series has strictly ascending dates (so no date twice), its dates are exactly {sale date} ∪ historical dates ∪ {today}, one point per date, each with its charted rate and that rate's delta |
| `ChartSeries.SeriesDetermined` | app.js:201-212 | any two series meeting that description for the same inputs are equal: assembly is deterministic |
| `ChartSeries.SaleDateFirst` | app.js:196-207 | when no historical date and not today sorts before the sale date, the series starts at the sale date |
| `ChartSeries.ExampleDatesAscending` | app.js:207 | 2024-01-01, 2024-01-02, 2024-01-03 are in ascending string order |
| `ChartSeries.ExampleSeries` | app.js:201-212 | sale on 2024-01-01, one historical rate on 2024-01-02, today 2024-01-03: the series dates are those three, in order |
| `Monitor.CurrencyMonitor.constructor` | app.js:2-5 | the settings are those loaded from the storage slot |
| `Monitor.CurrencyMonitor.UpdateSettings` | app.js:61-93 | rejected input changes neither settings nor storage and reports the failing check; accepted input writes date, amount and commission; a failed rate fetch then leaves the old sale-date rate and the old stored record; a successful one records the rate and saves a record that loads back to the settings |
| `Monitor.CurrencyMonitor.UpdateCurrentData` | app.js:138-164 | figures are produced iff the settings pass the truthiness guard and the rate fetch succeeded; they are the calculator's figures for the settings, and "Safe to convert" holds iff the current rate reaches the breakeven rate |
| `Monitor.CurrencyMonitor.UpdateCharts` | app.js:185-212 | a series is produced iff the guard passes and both fetches succeed, and it is the assembled series for the settings and fetched data |
| `Monitor.CurrencyMonitor.GetBreakevenRate` | app.js:221-223 | the result is the breakeven rate of the stored sale-date rate and commission, whatever the amount: none iff the stored commission is 100%, otherwise the rate whose product with the multiplier is the sale-date rate, and the delta there is 0 |

## Findings

| source | as written | input that shows it | evidently intended | confidence | as-written member | corrected member |
|---|---|---|---|---|---|---|
| app.js:71 | the commission check rejects only values above 100, so 100 is accepted; the multiplier is then 0 and `getBreakevenRate` (app.js:222) divides the sale-date rate by 0, giving `Infinity` on the rate chart | commission 100 with sale date 2024-01-01 and amount 1000 | a 100% commission has no breakeven rate and must be reported as such (or rejected) | not executed | `SettingsStore.FullCommissionAccepted` | `Calculator.BreakevenRate` |

`SettingsStore.ValidateInput` and `Monitor.CurrencyMonitor.UpdateSettings` keep the
validation as written, so a 100% commission can be stored; the breakeven rate is
then `None` in `Calculator.BreakevenRate` and `Monitor.CurrencyMonitor.GetBreakevenRate`
instead of a division by zero.

## Left out

- Fetching rates over HTTP (`getCurrentRate`, `getHistoricalRate`, `getHistoricalRates`): network I/O; the fetched values are parameters, `None` when the fetch threw. A response without an `EUR` field (an `undefined` rate) is not modelled.
- DOM access, `toFixed` text formatting, CSS class switching, `alert` and `showSuccess`: presentation; the rejection reason and the figures are returned instead.
- Chart.js rendering and `getChartOptions`: calls into a foreign library and styling; the model stops at the series handed to it.
- The five-minute `setInterval` refresh and the interleaving of overlapping asynchronous updates: timer- and concurrency-driven; each operation is modelled as running alone.
- `loadInitialData`: it only runs the guard (modelled as `Configured`) and then the two update operations, which are modelled.
- Monitor.CurrencyMonitor.UpdateSettings: does not include the `updateCurrentData` and `updateCharts` calls awaited after saving, because they change no settings and are modelled as their own methods.
- `localStorage` and `JSON.parse`/`JSON.stringify`: the storage slot is a field holding the parsed record; malformed text and keys holding a different JSON type than the app writes are not modelled.
- IEEE-754 rounding: all arithmetic is exact over `real`, so floating-point results are approximations of the modelled ones; division by zero yielding `Infinity` is not modelled.
- `parseFloat` results of `Infinity` or `-Infinity`: only finite numbers and NaN are modelled.
- LexicalOrder.Below: compares Dafny characters (Unicode scalar values) where JavaScript compares UTF-16 code units; the two orders differ only between characters above U+FFFF and those in U+E000–U+FFFF, which never occur in ISO dates.
- Monitor.CurrencyMonitor.GetBreakevenRate: returns `None` for a 100% commission instead of the source's `Infinity` (see Findings).
