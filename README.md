# ntop-widgets core, modelled in Dafny

ntop-widgets are web components that fetch aggregated network-monitoring
data from an ntopng REST endpoint and draw it with Chart.js. This project
models the parts of the widgets that turn data into what is shown and that
drive the chart's lifecycle:

- `Js` (js.dfy): the JavaScript outcomes the source relies on. `undefined`
  is `Maybe.Undefined`. A thrown error is `Result.Throw` or
  `Outcome.Failed`. A number that may be NaN is `Num`.
- `Types` (types.dfy): the REST request and response shapes, the series
  payload that the second-generation formatters read, and the Chart.js
  handle. The handle is a class with `datasets` and `labels` fields.
- `Utils` (utils.dfy): the colour palette, `formatInt` and `formatLabel`.
  `formatInt` is the `\B(?=(\d{3})+(?!\d))` replace; the model proves it
  equal to grouping the digits in threes from the right.
- `Series` (series.dfy): the unseeded `reduce` that totals a series, and the
  rescale to percentages. Percentages are ideal reals.
- `LegacyPie` (legacy_pie.dfy): the first-generation pie formatter. It
  merges labels in first-seen order, builds one dataset per payload with
  hash colours, and has an update and a click rule.
- `Widget` (widget.dfy): the `<ntop-widget>` controller. It serialises the
  datasources, selects the formatter named by `transformation`, and drives
  the formatter's lifecycle: `init` until it first returns, then `update` on
  every render with data. It also arms the polling timer and chooses the
  loading view.
- `PieChart`, `StackedBar`, `MixedChart` (pie_chart.dfy, stacked_bar.dfy,
  mixed_chart.dfy): the second-generation formatters, with their dataset
  builders, update guards, legend, tooltips and ticks.
  `formatDataByDisplay` rescales an array of datasets in place. The mixed
  chart's `Object.assign` writes into the datasource's style object, which
  the model holds as a class.

Parameters stand in for the outside world. `hash` is `ColorHash.hex`.
`fixed2` is `Number.prototype.toFixed(2)` on a finite number. The fetched
response and the `<ntop-datasource>` elements are passed in as arguments.

Behaviour of the code worth noting:
- Slices are never grouped into an "Other" bucket.
- A zero total gives the text `NaN` (or `Infinity`), not 0%.
- An `rc` of -51 gets no special handling.
- There is no `forceUpdate`.
- `init` is not guarded against a second call; each call builds a new chart.
- An `init` that throws leaves the widget's flag clear, so no `update` runs
  on that render and the next render with data calls `init` again.
- A `transformation` that names no constructor makes `componentWillLoad`
  throw before the fetch: no data is stored and no timer is armed. The key
  `constructor`, which the formatter table inherits from `Object.prototype`,
  does not throw there. It selects the options object, which has no `init`
  or `staticRender`, so the first render with data throws and so does every
  `init` call. The other inherited keys are not constructors and throw.
- An attribute `params-__proto__` sets nothing: assigning a string to
  `__proto__` of an object literal is ignored, so that key never reaches the
  request.
- The timer is armed whenever `update >= 0`, even after a failed first fetch.
- In the first-generation pie, an update before init fails with a TypeError
  on the missing chart, not with an explicit error. The fetched data is
  recorded before that failure.

The second-generation formatters read widget fields that the
`ntop-widget.tsx` in this model does not declare: `_fetchedData.rsp`,
`displayFormatter` and `_containedDatasources`. These are passed as
parameters. In the stacked-bar and mixed tooltips the guard
`value !== NaN` is always true, so the model always appends the suffix.

## Model

| member | source | states |
|---|---|---|
| Utils.ColorPalette | src/utils/utils.ts:8 | the palette has exactly twelve colours, each `#` followed by six characters |
| Utils.NatToString | src/utils/utils.ts:12 | the decimal rendering is a non-empty run of digits with no leading zero |
| Utils.NatToStringRoundTrip | src/utils/utils.ts:12 | reading the rendered digits back gives the number |
| Utils.FormatInt | src/utils/utils.ts:10-13 | `formatInt(undefined)` is `-` |
| Utils.InsertSeparatorsIsGroup | src/utils/utils.ts:12 | the global regex replace on a digit string equals grouping its digits in threes from the right |
| Utils.FormatIntIsGrouped | src/utils/utils.ts:10-13 | `formatInt(n)` is the sign of n followed by the right-to-left grouping of its digits |
| Utils.FormatIntStripsToDecimal | src/utils/utils.ts:12 | removing the commas from `formatInt(n)` gives exactly the decimal rendering of n |
| Utils.FormatIntShape | src/utils/utils.ts:12 | after an optional `-`, commas sit only between digits, the first group has one to three digits and every later group three |
| Utils.FormatIntComma | src/utils/utils.ts:12 | `formatInt(n)` contains a comma exactly when abs(n) >= 1000 |
| Utils.PercentText | src/utils/utils.ts:24 | with a positive total the text renders a percentage p with p * total = part * 100, and p lies between 0 and 100 when the part is at most the total |
| Utils.FormatLabel | src/utils/utils.ts:19-28 | NONE gives the empty string; RAW gives `: ` and digits whose value is the current value; PERCENTAGE gives `: ` ... `%` |
| Utils.FormatLabelRawIgnoresTotal | src/utils/utils.ts:25-26 | under RAW the label is `: ` plus the value, whatever the total |
| Series.Total | src/formatters/charts/StackedBarWidgetFormatter.tsx:55 | the unseeded `reduce` throws exactly on an empty series |
| Series.FirstEmpty | src/formatters/charts/StackedBarWidgetFormatter.tsx:54-55 | the position where the map throws: the first empty series, every earlier one non-empty |
| Series.PercentagesSumTo100 | src/formatters/charts/StackedBarWidgetFormatter.tsx:57-58 | with a positive total, the percentages are the values times 100 / total and sum to 100 |
| Series.PercentagesAreFixedPoint | src/formatters/charts/StackedBarWidgetFormatter.tsx:165-166 | rescaling a series of percentages leaves it unchanged, including the all-NaN series of an all-zero input |
| Series.RescaleOfRawIsPercentage | src/formatters/charts/StackedBarWidgetFormatter.tsx:165-166 | the in-place rescale of raw values gives the percentages that `buildDatasets` computes |
| Series.ElementAtMostSum | src/formatters/charts/PieWidgetFormatter.tsx:130-131 | every value of a series is at most the series total |
| Series.ZeroTotalMeansZeros | src/formatters/charts/StackedBarWidgetFormatter.tsx:166 | non-negative data with a zero total is all zeros, so 0 / 0 is the only division by zero |
| LegacyPie.BuildDatasets | src/formatters/pie.tsx:44-68 | labels are the first-seen deduplication of all keys; one dataset per payload, in order, dataset i with payload i's values, its datasource type and the hashes of the labels seen up to payload i |
| LegacyPie.LabelsAreFirstSeenKeys | src/formatters/pie.tsx:54-57 | the labels have no duplicates, hold exactly the keys of all points, and are ordered by first occurrence |
| LegacyPie.DatasetColors | src/formatters/pie.tsx:60 | dataset i has one colour per distinct label seen in payloads 0..i, colour j being the hash of label j |
| LegacyPie.SinglePayloadColors | src/formatters/pie.tsx:60-63 | for one payload with distinct keys, every point is coloured by the hash of its own key |
| LegacyPie.TooltipIsPercentageLabel | src/formatters/pie.tsx:129-141 | the tooltip is the slice label followed by the PERCENTAGE `formatLabel` of its value and the dataset total |
| LegacyPie.DataLabelMatchesTooltip | src/formatters/pie.tsx:100-108 | the data label shows the tooltip's share in parentheses |
| LegacyPie.ClickTarget | src/formatters/pie.tsx:111-122 | a click navigates exactly when it hit an existing point with a defined url, and to that url; no hit means no navigation |
| LegacyPie.PieWidgetFormatter.constructor | src/formatters/pie.tsx:25-27 | a new formatter has no chart and no data |
| LegacyPie.PieWidgetFormatter.Init | src/formatters/pie.tsx:29-42 | records the data and creates a chart holding the built labels and datasets |
| LegacyPie.PieWidgetFormatter.Update | src/formatters/pie.tsx:70-78 | records the data; fails exactly when there is no chart; otherwise the chart holds the fresh labels and datasets |
| LegacyPie.PieWidgetFormatter.OnClick | src/formatters/pie.tsx:111-122 | sets the location to the click target's url when there is one, leaves it unchanged otherwise, and fails when the hit point does not exist |
| Widget.ParamKeyStripsPrefix | src/components/ntop-widget/ntop-widget.tsx:86-87 | a `params-` attribute's key is its name without the prefix |
| Widget.ParamsOfMeaning | src/components/ntop-widget/ntop-widget.tsx:82-90 | a key is a parameter exactly when it is not `__proto__` and some attribute is named `params-` plus the key, with the value of the last such attribute |
| Widget.ProtoParamIgnored | src/components/ntop-widget/ntop-widget.tsx:86-88 | an attribute `params-__proto__` leaves the parameters unchanged |
| Widget.SerializeDatasources | src/components/ntop-widget/ntop-widget.tsx:76-96 | one `{ds_type, params}` per datasource child, in document order |
| Widget.BuildRequest | src/components/ntop-widget/ntop-widget.tsx:104 | the request carries the serialised datasources and the transformation, and no csrf token |
| Widget.DidRenderStep | src/components/ntop-widget/ntop-widget.tsx:47-57 | a render without data changes nothing; once initialised a render with data only calls `update`; before that it calls `init`, and then either sets the flag and calls `update`, or, when `init` throws, leaves the flag clear and calls nothing more |
| Widget.FailedInitIsRetried | src/components/ntop-widget/ntop-widget.tsx:49-52 | after a render whose `init` threw, the next render with data calls `init` again |
| Widget.RenderAllLifecycle | src/components/ntop-widget/ntop-widget.tsx:47-57 | over any renders from a fresh widget: every call before an `init` is an `init` that threw, so at most one `init` returns; every `update` follows an `init` that returned; the flag is set exactly when some `init` returned, exactly when some render had data and a returning `init`; each render with data makes one `update` or one throwing `init` |
| Widget.LookupFormatter | src/components/ntop-widget/ntop-widget.tsx:61 | a found formatter is the one whose `FormatterMap` key is the transformation; the options object comes only from the inherited key `constructor`; any other key throws because what it reads is not a constructor |
| Widget.LookupFormatterKey | src/formatters/formatter-map.ts:12-15 | each formatter is found under its own key, `constructor` gives the options object, and the lookup throws exactly on every other key |
| Widget.ViewFor | src/components/ntop-widget/ntop-widget.tsx:131 | the loading placeholder shows exactly while there is no data |
| Widget.NtopWidget.constructor | src/components/ntop-widget/ntop-widget.tsx:30-45 | a new widget has its props, no formatter, no data, a clear flag, no timer and no formatter calls |
| Widget.NtopWidget.ComponentDidRender | src/components/ntop-widget/ntop-widget.tsx:47-57 | the flag and the formatter calls advance by one render step with the current data and the outcome of `init`; `init` throws when the selected value is no formatter; a throwing `init` stops the method |
| Widget.NtopWidget.ComponentWillLoad | src/components/ntop-widget/ntop-widget.tsx:59-70 | throws exactly when the lookup throws, and then stores nothing and arms no timer; otherwise selects the looked-up value (a formatter or, for `constructor`, the options object), stores the first response and arms the timer exactly when `update >= 0` |
| Widget.NtopWidget.OnTimer | src/components/ntop-widget/ntop-widget.tsx:66-68 | each tick replaces the data with the new response |
| Widget.NtopWidget.Render | src/components/ntop-widget/ntop-widget.tsx:123-135 | throws exactly when there is data and the selected value is no formatter; otherwise the loading placeholder shows exactly while there is no data |
| PieChart.BuildDatasets | src/formatters/charts/PieWidgetFormatter.tsx:49-62 | throws exactly when there is no payload; otherwise one dataset from the first payload (its values, its label, the palette) and its keys as labels |
| PieChart.BuildDatasetsFirstOnly | src/formatters/charts/PieWidgetFormatter.tsx:51-59 | payloads after the first have no influence |
| PieChart.LegendEntryShows | src/formatters/charts/PieWidgetFormatter.tsx:141-159 | for each of the first min(5, number of labels) labels, legend pieces 3i+1 to 3i+3 are `<li>`, a dot in colour i followed by label i and its suffix, `</li>`; the suffix is empty under NONE and ` (<b>v</b>)` under RAW |
| PieChart.LegendShape | src/formatters/charts/PieWidgetFormatter.tsx:127-161 | with a non-empty series the legend is the list tags around exactly min(5, number of labels) entries |
| PieChart.LegendPercentInRange | src/formatters/charts/PieWidgetFormatter.tsx:149-150 | under PERCENTAGE a legend entry shows `(<b>`, its slice's share of the total as a percentage between 0 and 100, and `%</b>)` |
| PieChart.LegendTruncates | src/formatters/charts/PieWidgetFormatter.tsx:127-141 | labels past the fifth have no influence on the legend |
| PieChart.LegendCallback | src/formatters/charts/PieWidgetFormatter.tsx:125-164 | throws exactly for an empty series; otherwise returns the joined legend pieces |
| PieChart.TooltipIsFormatLabel | src/formatters/charts/PieWidgetFormatter.tsx:167-193 | the tooltip is the slice label followed by `formatLabel` of its value and the series total; just the label under NONE |
| PieChart.PieWidgetFormatter.RefreshLegend | src/formatters/charts/PieWidgetFormatter.tsx:45-46 | the legend container holds the generated legend, or is left unchanged when generating it throws |
| PieChart.PieWidgetFormatter.Init | src/formatters/charts/PieWidgetFormatter.tsx:28-47 | with a payload, creates a chart holding the built dataset and labels, then fills the legend; without one, throws and changes nothing; an empty series makes the legend throw and leaves the legend unchanged |
| PieChart.PieWidgetFormatter.Update | src/formatters/charts/PieWidgetFormatter.tsx:64-79 | before init it throws and changes nothing; otherwise the chart holds a fresh build and the legend is regenerated; whenever it throws the legend is unchanged |
| StackedBar.BuildDatasets | src/formatters/charts/StackedBarWidgetFormatter.tsx:47-65 | the result of the counting loop equals the specification `BarDatasets` |
| StackedBar.BarDatasetsMeaning | src/formatters/charts/StackedBarWidgetFormatter.tsx:52-62 | one dataset per payload with its label and palette colour i, undefined from the thirteenth; data are the raw values outside PERCENTAGE; under PERCENTAGE they sum to 100 |
| StackedBar.FormatDataByDisplay | src/formatters/charts/StackedBarWidgetFormatter.tsx:155-174 | returns its argument; throws at the first empty dataset, after rescaling the earlier ones; rescales every dataset under PERCENTAGE; keeps lengths, labels and colours; leaves the data alone otherwise |
| StackedBar.FormatBuiltIsIdentity | src/formatters/charts/StackedBarWidgetFormatter.tsx:81-84 | formatting freshly built datasets changes nothing, so init's second rescale shows what update shows |
| StackedBar.BuiltNonNegative | src/formatters/charts/StackedBarWidgetFormatter.tsx:54-61 | built data are non-negative or NaN |
| StackedBar.TickTextMeaning | src/formatters/charts/StackedBarWidgetFormatter.tsx:131-143 | under PERCENTAGE the tick is the decimal value and `%`; otherwise removing its commas gives the value, with a comma exactly when abs(value) >= 1000 |
| StackedBar.SeriesTooltipRaw | src/formatters/charts/StackedBarWidgetFormatter.tsx:105-121 | outside PERCENTAGE the tooltip of a count n is the label, `: (`, n with separators and `)` |
| StackedBar.SeriesTooltipPercentage | src/formatters/charts/StackedBarWidgetFormatter.tsx:111-114 | under PERCENTAGE the tooltip starts with the label and ends with `%)` |
| StackedBar.StackedBarWidgetFormatter.Init | src/formatters/charts/StackedBarWidgetFormatter.tsx:30-45 | fails exactly when the build throws; otherwise creates a chart holding the built datasets and labels |
| StackedBar.StackedBarWidgetFormatter.Update | src/formatters/charts/StackedBarWidgetFormatter.tsx:67-79 | before init it throws; on a failed build the chart is unchanged; otherwise the chart holds a fresh build |
| MixedChart.MergedMeaning | src/formatters/charts/MixedChartWidgetFormatter.tsx:69-87 | the merged object has the style keys plus label, type, data and one colour key: `borderColor` when `fill` is falsy but defined, `backgroundColor` otherwise; other style keys and `fill` keep their values |
| MixedChart.MergedIdempotent | src/formatters/charts/MixedChartWidgetFormatter.tsx:80-87 | merging the same payload into the already merged style object changes nothing |
| MixedChart.BuildResultOk | src/formatters/charts/MixedChartWidgetFormatter.tsx:55-91 | the build succeeds exactly when there is a payload, every payload has values and every payload has its datasource element |
| MixedChart.AssignDataset | src/formatters/charts/MixedChartWidgetFormatter.tsx:87 | `Object.assign` leaves the style object equal to the merge |
| MixedChart.BuildDatasets | src/formatters/charts/MixedChartWidgetFormatter.tsx:55-91 | returns the specified result; style objects before the stopping position are merged, the others are untouched |
| MixedChart.MixedChartWidgetFormatter.Init | src/formatters/charts/MixedChartWidgetFormatter.tsx:22-35 | fails exactly when the build throws; otherwise creates a chart whose datasets are the merged style objects |
| MixedChart.MixedChartWidgetFormatter.Update | src/formatters/charts/MixedChartWidgetFormatter.tsx:37-49 | before init it throws and touches nothing; otherwise rebuilds onto the style objects and, on success, the chart holds the fresh build |

## Left out

- The d3 pie component (src/components/formatters/pie.tsx): it is SVG drawing with trigonometry and tweening, not data logic.
- `getWidgetData`: the fetch, URL resolution, JSON parsing and `window.__NTOPNG_ORIGIN__` are I/O. Its result reaches the model as a `Maybe<WidgetDataResponse>` argument; `Undefined` is the caught-failure path.
- `setInterval` timing and the asynchronous refetch are event-loop concerns. The model has an armed flag and an `OnTimer` step.
- Chart.js and Stencil plumbing: canvas and DOM queries, sizing styles, chart options, animation, `chart.update`, `staticRender` and `renderLoading` markup. `generateLegend` and `innerHTML` are modelled only as the legend string.
- `ColorHash` internals are the `hash` parameter. The digits that `toFixed(2)` prints are the `fixed2` parameter.
- Utils.FormatInt: models integer arguments only, because `Math.round` of a non-integer is floating point.
- StackedBar.TickText: also takes integer tick values only.
- StackedBar.SeriesTooltipRaw: reads the tooltip value as a number rather than parsing text, and ignores exponent notation in `parseInt`.
- Values are non-negative integers, as the REST data are counts. Negative values, floating-point rounding and overflow are not modelled, and percentages are ideal reals.
- StackedBar.FormatDataByDisplay: requires non-negative data. This is what its caller passes; on such data a zero total occurs only with all-zero data, where 0 / 0 is NaN. Dividing a positive value by zero (Infinity) is not modelled.
- MixedChart.BuildDatasets: requires distinct style objects, one per `<ntop-datasource>` element. Two elements sharing one style object are not modelled.
- Widget.NtopWidget.ComponentWillLoad: requires that no timer is armed yet, because Stencil calls it once per component.
- Widget.NtopWidget.ComponentWillLoad: `new URL` in `getWidgetData` throws outside the `try` on an invalid origin. The origin is the environment, so this failure is not modelled.
- Widget.NtopWidget.ComponentDidRender: whether the formatter's `init` returns is a parameter, since the formatter is code outside the widget. An `update` that throws changes no widget state and is not recorded.
- The `displayFormatter` value is one of NONE, PERCENTAGE and RAW. An unset display mode, which would print `undefined`, is not modelled.
- The first-generation pie's `onClick` is modelled. The commented-out click handler of the second-generation pie does nothing and is not modelled.
- src/formatters/donut.tsx only changes the chart type and is not modelled. The table in src/formatters/formatter-map.ts, which maps `pie` and `donut` to the first-generation formatters, is modelled as `Widget.LookupFormatter`. The other table, src/formatters/FormatterMap.ts, maps the second-generation formatters and is not used by this widget.
- The first-generation pie's colour list is positional per dataset: with several payloads, Chart.js pairs dataset i's colour j with its j-th value. The model records the colours as built and does not judge that pairing.
