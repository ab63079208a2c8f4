# Nettelhorst AQI dashboard — display logic model

The Nettelhorst AQI Monitor is a single React page that polls an air-quality
history API for a 24-hour and a 7-day series of sensor samples and charts one
selected metric. This project models the page's display logic in Dafny:

- the fixed, ordered **metric catalog** (`catalog.dfy`, module `Catalog`);
- the **sample → chart point transform** used for both series, including the
  Celsius→Fahrenheit conversion for `atmp` and the spread of raw readings that
  overrides computed fields (`chart_data.dfy`, module `ChartData`);
- the **render rules**: error-panel gating and message precedence, the Y-axis
  domain with its CO2 floor of 375, the selector buttons, the loading spinner
  and the "Last updated" footer (`view.dfy`, module `View`);
- the **selected-metric state cell** as a class whose only mutator is the
  button click, keeping the selection a catalog key (`home.dfy`, module `Home`);
- JavaScript values: `undefined` as `Option.None`, the chart-point field values
  (`Num`, `Str`, `Undefined`, `NaN`) and the truthiness of `||` on strings
  (`js_values.dfy`, module `JsValues`).

A chart point is a JavaScript object, modelled as a `map<string, JsValue>`; the
object literal's trailing `...item.measure_data` is map union, so a raw reading
named `time`, `fullTime` or `value` replaces the computed field. Metric readings
are `real`. `parseISO(t).getTime()` is the parameter `parse: string -> int`,
and `new Date().toISOString()` is the parameter `now`.

Two points are worth stating on their own terms. The footer shows the *last*
sample of a series, which is the most recent one only if the API returns the
samples in time order; nothing on the page sorts them. The CO2 floor is the
Y domain `[375, 'dataMax']` that the page hands to the chart library; the model
states that domain, not the axis the library then draws.

## Model

| member | source | states |
|---|---|---|
| `Catalog.Find` | app/page.js:85 | an object-property lookup succeeds exactly when some entry has the key, and then yields an entry with that key |
| `Catalog.Lookup` | app/page.js:85-88 | `metrics[key]` is defined exactly for catalog keys and yields the catalog entry with that key |
| `Catalog.KeysDistinct` | app/page.js:11-18 | the six catalog keys are pairwise distinct |
| `Catalog.LookupEntry` | app/page.js:11-18 | looking up any catalog entry's key yields that entry (display label and description) |
| `Catalog.DefaultIsKey` | app/page.js:21 | the initial selection `rco2_corrected` and the converted metric `atmp` are catalog keys |
| `JsValues.Or` | app/page.js:64 | `a \|\| b` yields `a` when it is a non-empty string, else `b`; the result is truthy iff either operand is |
| `ChartData.SelectedValue` | app/page.js:44-46 | the computed `value` is a number exactly when the sample has the selected reading; for `atmp` that number converts back to the Celsius reading, for any other metric it is the reading itself; a missing `atmp` reading gives NaN and any other missing reading undefined |
| `ChartData.ToFahrenheit` | app/page.js:45 | `c*9/5+32` is inverted by `(f-32)*5/9`, so the conversion loses nothing |
| `ChartData.RawFields` | app/page.js:47 | the spread copies every raw reading, and only those, as a number field |
| `ChartData.ToPoint` | app/page.js:41-48 | a point has exactly the keys `time`, `fullTime`, `value` plus the raw keys; every raw key carries its raw value; each computed field survives only when no raw key of that name overrides it |
| `ChartData.MapPoints` | app/page.js:41-48 | one point per sample, the `i`th point built from the `i`th sample |
| `ChartData.Series` | app/page.js:50-57 | an absent series yields `[]`; a present one yields one point per sample in order (the same transform serves both series) |
| `ChartData.MapPointsAppend` | app/page.js:41 | the transform distributes over concatenation, so it keeps the samples' order |
| `ChartData.EmptySeries` | app/page.js:48 | both an absent and an empty series yield no points |
| `ChartData.PointValue` | app/page.js:44-46 | `value` is the `atmp` reading times 9/5 plus 32 (NaN if missing) for `atmp`, and the raw reading unchanged (undefined if missing) for every other metric |
| `ChartData.PointTime` | app/page.js:42-43 | `time` is the parsed `measure_time` and `fullTime` the verbatim string, unless a raw reading of that name overrides them |
| `ChartData.PointChangesOnlyValue` | app/page.js:41-47 | for one sample, changing the selected metric keeps the point's keys and every field other than `value` |
| `ChartData.MetricChangesOnlyValue` | app/page.js:41-57 | changing the selected metric keeps the number of points, their keys, `time`, `fullTime` and every raw field; only `value` may change |
| `View.YAxisDomain` | app/page.js:130 | the lower bound is the constant 375 exactly when the metric is `rco2_corrected`, else the data minimum; the upper bound is always the data maximum |
| `View.MessageOf` | app/page.js:64 | `e?.message` is defined exactly when there is an error, and is then its message |
| `View.ErrorMessage` | app/page.js:64 | the 24-hour error's message when it is non-empty, otherwise the 7-day error's message, otherwise undefined; undefined under an error only when the 24-hour message is empty and there is no 7-day error |
| `View.LastUpdated` | app/page.js:200-206 | the footer is present iff a series has samples; it shows the last 24-hour sample's time, else the last 7-day sample's time (the ternary chain at :203-205 is the helper `FooterTime`, specified through this row and the next) |
| `View.FallbackUnreachable` | app/page.js:205 | the footer does not depend on the current-time fallback |
| `View.FooterPrefers24Hours` | app/page.js:203-204 | a 24-hour series ending 10:00 wins over a 7-day series ending 09:00 and over one ending 11:00; empty series give no footer |
| `View.FooterShowsLastNotLatest` | app/page.js:203 | with samples out of time order the footer shows the last one, not the latest |
| `View.Buttons` | app/page.js:93-104 | one button per catalog entry in catalog order, labelled with its display text, highlighted iff its key is the selection |
| `View.OneActiveButton` | app/page.js:97-101 | at most one button is highlighted, it is the selection's, and a catalog-key selection has one |
| `View.ChartPanel` | app/page.js:110-151 | a chart panel is the spinner exactly while its series loads, otherwise the transform of its series (one point per sample) with the metric's Y domain and the given tooltip label |
| `View.Render` | app/page.js:59-212 | the error panel replaces the whole view iff either series has an error and shows the preferred message; otherwise a lookup fails iff the selection is not a catalog key, and the page shows the selected entry's display label and description |
| `View.PageCharts` | app/page.js:85-198 | with no error and a catalog key selected the page renders with the selector buttons, and each chart shows the spinner exactly while its series loads, otherwise the shared transform of its series with the shared Y domain and the title as tooltip label; the footer is chosen from both series |
| `Home.Dashboard.constructor` | app/page.js:21 | the selection starts as `rco2_corrected`, a catalog key |
| `Home.Dashboard.ClickMetric` | app/page.js:93-96 | a button click sets the selection to that button's catalog key and keeps it a catalog key |
| `Home.Dashboard.Show` | app/page.js:59-88 | a render shows the error panel iff a fetch failed and the page otherwise, never failing a catalog lookup, with the selected entry's title and description |
| `Home.SwitchToTvoc` | app/page.js:41-57 | switching from CO2 to TVOC keeps each series' point count, keys, `time` and `fullTime`, and sets `value` to the raw `tvoc` reading unless a raw `value` reading overrides it |

## Left out

- Polling and fetching (the axios fetcher, the two SWR hooks with their 5-minute refresh, the environment-configured URLs): network I/O and timing. Each series enters the model as a `FetchState` value (data, error, loading flag).
- date-fns `parseISO` and `format`: foreign calls. Parsing is the parameter `parse`; tick, tooltip and footer string formatting is not modelled, so the footer is the raw `measure_time` it would format.
- Invalid timestamps: `parseISO` of a malformed string gives an invalid date (`NaN` time, and `format` throws); `parse` is total and returns an integer.
- Recharts rendering: layout, styling, the tooltip's label formatter, the X-axis domain `['dataMin', 'dataMax']`, and how the chart library turns the Y domain into a drawn axis (it may widen a fixed bound to fit data below 375). The model states the domain the page hands to the chart, not the drawn range.
- Floating point: `c*9/5+32` is computed over exact reals, not IEEE-754 doubles.
- `new Date().toISOString()`: nondeterministic; it is the parameter `now`, shown to be irrelevant.
- JSON details: readings are numbers (`real`); `null` or string readings and non-array responses are not modelled; a point's key order is not modelled (a map has none).
- Inherited object properties: a lookup of a non-catalog key such as `toString` is modelled as failing (`LookupFailed`), whereas JavaScript would find the prototype member. The selection is always a catalog key, so this never arises.
