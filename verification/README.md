# StreetMap: a verified model of the street-safety map component

This project models the logic inside the `StreetMap` React component
(`frontend/src/components/StreetMap.js`). The component fetches a GeoJSON
collection of street segments and a collection of district boundaries. It
normalises each street's name (`cleaned_block`) and derives three D3 charts
and a Leaflet overlay from the result:

- a scatter plot of a selectable metric per street;
- a heatmap of each street's most frequent crime hour;
- a line chart of the crime count per street;
- red or green polylines for every street part.

The model is split into one module per concern:

| module | file | what it holds |
|---|---|---|
| `Wrappers` | `wrappers.dfy` | `Option` and `Result` |
| `JsValues` | `js_values.dfy` | JavaScript property values, truthiness, `ToNumber`, `>` |
| `StreetNames` | `street_names.dfy` | `normalizeStreetName`: ASCII case mapping, `split(' ')`, `join(' ')`, capitalisation |
| `Features` | `features.dfy` | GeoJSON features and the normalisation step run on a street response |
| `Grouping` | `grouping.dfy` | `d3.group` followed by "keep the first record of each group" |
| `Scales` | `scales.dfy` | `d3.max` over admissible values, linear y-domains, band domains, `d3.range` |
| `Charts` | `charts.dfy` | the three chart projections and the data each chart draws |
| `MapOverlay` | `map_overlay.dfy` | MultiLineString parts turned into coloured polylines |
| `StreetMapView` | `street_map.dfy` | the component's three state slots, its chart effect and SVG contents, as a class |
| `Scenarios` | `scenarios.dfy` | worked cases of the behaviour above |

Pure code (the name normaliser, the grouping, the domains and the overlay)
is modelled with functions and lemmas. The component's state is modelled
by the class `StreetMapView.StreetMap`:

- its fields are the state slots `streetData`, `boundaryData` and `selectedMetric`, plus the contents of the three SVGs;
- each method sets the slots as the corresponding callback does;
- each method says whether the charts redraw;
- the draw methods clear an SVG and rebuild it.

The invariant `Valid` holds after every method. It says:

- the selected metric is one of the selector's options;
- the held street names are already normalised;
- each SVG shows exactly the chart of the current data and metric, and all are empty before street data arrives.

Two behaviours of the code worth stating:

- When no grouped value is numeric, `d3.max` returns `undefined`, so the code passes `[0, undefined]` to the linear scale, which stores it as `[0, NaN]`. `Scales.YDomain` returns `hi == None` in that case.
- The map overlay reads `streetData` (lines 275-289), which holds the normalised features. So it shows normalised names, not the raw ones.

## Model

| member | source | states |
|---|---|---|
| JsValues.Get | frontend/src/components/StreetMap.js:30 | reading a property that is absent gives `undefined`; a present one gives its value |
| JsValues.Truthy | frontend/src/components/StreetMap.js:13 | `!name` is true exactly for the six falsy values: `undefined`, `null`, `false`, `0`, NaN and `''` |
| JsValues.GreaterThan | frontend/src/components/StreetMap.js:285 | `v > bound` compares the converted value: a number compares as itself, `null` as 0, booleans as 1 or 0, and `undefined` or NaN is never greater |
| JsValues.ToNumber | frontend/src/components/StreetMap.js:139 | unary `+` always yields a number or NaN; numbers are kept, `undefined` and NaN give NaN, `null` gives 0, booleans give 1 or 0 |
| StreetNames.ToLowerChar | frontend/src/components/StreetMap.js:15 | lower-casing maps `A`-`Z` to `a`-`z` (code point + 32), leaves every other character alone, and never produces an upper-case letter |
| StreetNames.ToUpperChar | frontend/src/components/StreetMap.js:17 | upper-casing maps `a`-`z` to `A`-`Z` (code point − 32), leaves every other character alone, and never produces a lower-case letter |
| StreetNames.ToLower | frontend/src/components/StreetMap.js:15 | `toLowerCase` keeps the length and lower-cases each character |
| StreetNames.FirstSpace | frontend/src/components/StreetMap.js:16 | the index where `split(' ')` cuts: a space with no space before it |
| StreetNames.Split | frontend/src/components/StreetMap.js:16 | `split(' ')` yields at least one piece and no piece contains a space |
| StreetNames.Join | frontend/src/components/StreetMap.js:18 | `join(' ')` starts with the first piece, puts a space right after it when there are more pieces, and its length is the pieces' total plus one per separator; `Split` undoes it (see `JoinSplit`, `SplitJoin`) |
| StreetNames.Capitalize | frontend/src/components/StreetMap.js:17 | `charAt(0).toUpperCase() + slice(1)` keeps the length, upper-cases the first character and keeps the rest; an empty word stays empty |
| StreetNames.CapitalizeAll | frontend/src/components/StreetMap.js:17 | the `map` applies the capitalisation to every piece, one for one |
| StreetNames.JoinSplit | frontend/src/components/StreetMap.js:16-18 | `join(' ')` after `split(' ')` gives back the original string, empty pieces included |
| StreetNames.SplitJoin | frontend/src/components/StreetMap.js:16-18 | `split(' ')` after `join(' ')` of at least one space-free piece gives back the pieces |
| StreetNames.CapitalizePiecesAt | frontend/src/components/StreetMap.js:16-18 | split, capitalise and join keeps the length; it upper-cases exactly the characters that start a piece (index 0 or after a space) and keeps all others |
| StreetNames.NormalizeText | frontend/src/components/StreetMap.js:14-18 | the normalised string has the same length, and each character equals the reference title-casing `TitleCaseAt`: lower-cased, and upper-cased too when it starts a piece |
| StreetNames.NormalizeStreetName | frontend/src/components/StreetMap.js:12-19 | a falsy name (`undefined`, `null`, `''`, `0`, `false`, NaN) gives `''`; a string name gives its normalisation `NormalizeText`, of the same length; it throws (`Err`) exactly when the name is truthy but not a string |
| StreetNames.SpacesKept | frontend/src/components/StreetMap.js:14-18 | spaces stay where they were: a normalised character is a space iff the original one is |
| StreetNames.PiecesTitleCased | frontend/src/components/StreetMap.js:15-17 | in the result, a character that starts a piece is not lower-case and every other character is not upper-case |
| StreetNames.NormalizeTextIdempotent | frontend/src/components/StreetMap.js:14-18 | normalising a normalised name changes nothing |
| StreetNames.NormalizeStreetNameIdempotent | frontend/src/components/StreetMap.js:12-19 | normalising the result of a successful normalisation gives that same result |
| Features.StreetOf | frontend/src/components/StreetMap.js:30 | reading `properties.cleaned_block` gives its value, or `undefined` when the property is absent (the same read is at lines 70, 138 and 210) |
| Features.NormalizeFeature | frontend/src/components/StreetMap.js:27-32 | one feature succeeds iff its name normalises, and fails with that name's error otherwise; the geometry is kept; the keys are the old keys plus `cleaned_block`; every other property is unchanged; the name becomes the normalised text |
| Features.NormalizeFeatures | frontend/src/components/StreetMap.js:27-33 | the step succeeds iff every feature normalises; then it returns one feature per input, in order, each being that feature's normalisation; a failure carries the error of some failing feature |
| Features.NormalizeCollection | frontend/src/components/StreetMap.js:25-34 | the collection succeeds iff its features do; all other top-level members are kept, and `features` is replaced by the normalised list |
| Features.NormalizeFeaturesKeepsAllButName | frontend/src/components/StreetMap.js:25-34 | after a successful step, every feature keeps its geometry and every property except `cleaned_block`, which now holds a string |
| Features.NormalizeFeaturesIdempotent | frontend/src/components/StreetMap.js:25-34 | running the normalisation step again on its own output changes nothing |
| Features.NormalizedCollectionIsNormal | frontend/src/components/StreetMap.js:25-36 | the data stored by the street callback holds only names that are strings and already normalised |
| Grouping.Streets | frontend/src/components/StreetMap.js:79 | `filteredData.map(d => d.street)` lists each record's street, in order |
| Grouping.FirstIndex | frontend/src/components/StreetMap.js:67-75 | the position of the first record of a street: that record has the street, and no earlier one does |
| Grouping.StreetSetSnoc | frontend/src/components/StreetMap.js:67-75 | appending a record adds exactly its street to the set of streets |
| Grouping.GroupFirst | frontend/src/components/StreetMap.js:67-75 | group-and-keep-first yields distinct streets, exactly the input's set of streets, and no more records than the input |
| Grouping.FirstIndexOfPrefix | frontend/src/components/StreetMap.js:67-75 | a street seen in a prefix has the same first position in the whole input |
| Grouping.FirstIndexOfNewLast | frontend/src/components/StreetMap.js:67-75 | a last record whose street is new is that street's first record |
| Grouping.GroupFirstKeepsFirst | frontend/src/components/StreetMap.js:75 | every output record is the first input record of its street, so later duplicates are dropped, never merged |
| Grouping.GroupFirstInFirstSeenOrder | frontend/src/components/StreetMap.js:68-74 | output streets appear in the order of their first appearance in the input |
| Grouping.GroupFirstOfDistinct | frontend/src/components/StreetMap.js:67-75 | input whose streets are already distinct is returned unchanged |
| Grouping.GroupFirstIdempotent | frontend/src/components/StreetMap.js:67-75 | grouping a grouped list returns it unchanged |
| Grouping.GroupFirstIsFirstGrouping | frontend/src/components/StreetMap.js:67-75 | the grouping meets the reference definition `IsFirstGrouping`: distinct streets, the same street set, first records, first-seen order |
| Grouping.StreetSetTail | frontend/src/components/StreetMap.js:67-75 | dropping the head of a distinct list removes exactly its street and keeps the rest distinct |
| Grouping.PromiseTail | frontend/src/components/StreetMap.js:67-75 | the first-record and first-seen-order properties survive dropping the head |
| Grouping.HeadFirstSeen | frontend/src/components/StreetMap.js:67-75 | in such a list, the head's street is seen in the input before any other street of the list |
| Grouping.FirstGroupingsAgree | frontend/src/components/StreetMap.js:67-75 | two lists that both meet the reference definition for the same input are equal |
| Grouping.FirstGroupingIsGroupFirst | frontend/src/components/StreetMap.js:67-75 | any list meeting the reference definition is the computed grouping, so the definition fixes the result uniquely |
| Scales.MaxAdmissible | frontend/src/components/StreetMap.js:85 | `d3.max` is undefined iff no value is a number; otherwise it is one of the numbers and at least every number |
| Scales.YDomain | frontend/src/components/StreetMap.js:83-86 | the linear domain starts at 0; its upper bound is absent iff no value is a number, and otherwise it is the largest number |
| Scales.BandDomain | frontend/src/components/StreetMap.js:79 | a band scale's domain (also at lines 147, 153 and 219) has no repeated key, holds exactly the given keys, and is no longer than the list it was given |
| Scales.BandDomainOfDistinct | frontend/src/components/StreetMap.js:77-81 | a band scale's domain drops duplicate keys, so a list of distinct streets is kept as is |
| Scales.Range | frontend/src/components/StreetMap.js:147 | `d3.range(n)` has n entries and entry i is i |
| Scales.HourDomain | frontend/src/components/StreetMap.js:145-149 | the heatmap's hour domain has 24 entries, 0 to 23 in order |
| Charts.ScatterRecords | frontend/src/components/StreetMap.js:69-72 | one record per feature, in order: its street and its value for the selected metric |
| Charts.HeatmapRecords | frontend/src/components/StreetMap.js:137-140 | one record per feature, in order: its street and `+Frequent_Time` |
| Charts.LineRecords | frontend/src/components/StreetMap.js:209-212 | one record per feature, in order: its street and `Crime_Count` |
| Charts.Values | frontend/src/components/StreetMap.js:85 | the values handed to `d3.max`, one per record, in order |
| Charts.ProjectedStreets | frontend/src/components/StreetMap.js:69-72 | the projection's streets are exactly the features' streets |
| Charts.GroupedProjection | frontend/src/components/StreetMap.js:67-81 | a grouped projection meets the reference definition, covers every feature's street, and is its own band domain |
| Charts.DrawScatterPlot | frontend/src/components/StreetMap.js:59-125 | the scatter plot has at most one point per feature and exactly one per street of the data; its x-domain is the points' streets in order; its y-axis is titled with the metric (`ScatterPlotSpec` adds the first-record grouping and the y-domain) |
| Charts.DrawHeatmap | frontend/src/components/StreetMap.js:127-196 | the heatmap has at most one cell per feature and exactly one per street; its y-domain is the cells' streets in order; its x-domain is `d3.range(24)` and its colour domain `[0, 23]` (`HeatmapSpec` adds the first-record grouping) |
| Charts.DrawLineChart | frontend/src/components/StreetMap.js:199-268 | the line chart has at most one point per feature and exactly one per street; its x-domain is the points' streets in order (`LineChartSpec` adds the first-record grouping and the y-domain) |
| Charts.DrawCharts | frontend/src/components/StreetMap.js:51-57 | the three charts drawn by the effect list the same streets in the same order, whatever field each plots |
| Grouping.GroupFirstStreetsOnly | frontend/src/components/StreetMap.js:67-75 | which records survive the grouping depends only on their streets: inputs with the same street sequence group to the same street sequence |
| Charts.ScatterPlotSpec | frontend/src/components/StreetMap.js:67-86 | the scatter points are the first-record grouping of the metric projection, one per street of the data, at most one per feature; the x-domain is their streets; the y-domain is `[0, max]` of their values; the y title is the metric |
| Charts.HeatmapSpec | frontend/src/components/StreetMap.js:135-159 | the cells are the first-record grouping of the hour projection, one per street; the y-domain is their streets; the x-domain is 0..23; the colour domain is `[0, 23]`, whatever the data |
| Charts.LineChartSpec | frontend/src/components/StreetMap.js:207-226 | the line points are the first-record grouping of the crime-count projection, one per street; the x-domain is their streets; the y-domain is `[0, max]` of their values |
| Charts.GroupedRecordsComeFromFirstFeatures | frontend/src/components/StreetMap.js:67-75 | every grouped record is the projection of the first feature carrying its street |
| Charts.ScatterShowsFirstFeatureMetric | frontend/src/components/StreetMap.js:67-75 | each scatter point shows the selected metric of the first feature of its street |
| Charts.HeatmapShowsFirstFeatureHour | frontend/src/components/StreetMap.js:135-143 | each heatmap cell shows `+Frequent_Time` of the first feature of its street |
| Charts.LineShowsFirstFeatureCount | frontend/src/components/StreetMap.js:207-215 | each line point shows `Crime_Count` of the first feature of its street |
| Charts.OnlyScatterDependsOnMetric | frontend/src/components/StreetMap.js:71 | the heatmap and the line chart are the same whatever metric is selected |
| MapOverlay.SwapAll | frontend/src/components/StreetMap.js:284 | each `[lng, lat]` pair becomes `[lat, lng]`; the length is kept |
| MapOverlay.SwapAllInvolution | frontend/src/components/StreetMap.js:284 | swapping twice gives back the original coordinates |
| MapOverlay.LineColor | frontend/src/components/StreetMap.js:285 | a line is red iff `LVI` converts to a number strictly greater than 0.5; otherwise (0.5 itself, missing, NaN) it is green |
| MapOverlay.FeatureSegments | frontend/src/components/StreetMap.js:280-300 | a feature yields one polyline per MultiLineString part, keyed by feature and part index, with swapped coordinates and the feature's colour; other geometries yield none |
| MapOverlay.MapSegments | frontend/src/components/StreetMap.js:275-301 | the overlay has exactly as many polylines as there are MultiLineString parts; each one draws its part; keys `idx-i` are strictly ordered, so none repeats |
| MapOverlay.MapSegmentsComplete | frontend/src/components/StreetMap.js:275-301 | every part of every MultiLineString feature is drawn, including parts of streets seen before (no deduplication) |
| MapOverlay.OnlyMultiLineStringsDraw | frontend/src/components/StreetMap.js:280-300 | features without a MultiLineString geometry draw nothing |
| StreetMapView.StreetMap.constructor | frontend/src/components/StreetMap.js:8-10 | on mount, street data and boundary data are null, the metric is `LVI`, and nothing is drawn |
| StreetMapView.StreetMap.DrawScatterPlotSvg | frontend/src/components/StreetMap.js:59-125 | the scatter SVG is cleared and then holds the scatter plot of the current data and metric |
| StreetMapView.StreetMap.DrawHeatmapSvg | frontend/src/components/StreetMap.js:127-196 | the heatmap SVG is cleared and then holds the heatmap of the current data |
| StreetMapView.StreetMap.DrawLineChartSvg | frontend/src/components/StreetMap.js:199-268 | the line SVG is cleared and then holds the line chart of the current data |
| StreetMapView.StreetMap.ChartEffect | frontend/src/components/StreetMap.js:51-57 | with street data present, all three SVGs are redrawn from the current state; without it, nothing changes |
| StreetMapView.StreetMap.ReceiveStreets | frontend/src/components/StreetMap.js:21-39 | charts redraw iff a response arrived and normalised; then the normalised collection is stored; on a failed request or a throwing name nothing changes; the other slots are untouched; `Valid` is kept |
| StreetMapView.StreetMap.StoreStreets | frontend/src/components/StreetMap.js:36 | storing normalised street data redraws every chart and keeps `Valid` |
| StreetMapView.StreetMap.ReceiveBoundaries | frontend/src/components/StreetMap.js:41-49 | boundary data is stored when it arrives and kept otherwise; charts never redraw for it |
| StreetMapView.StreetMap.SelectMetric | frontend/src/components/StreetMap.js:307-315 | the metric is set; charts redraw iff it changed and street data is present; the heatmap and line SVGs keep their contents; `Valid` is kept |
| StreetMapView.StreetMap.MapLayers | frontend/src/components/StreetMap.js:274-301 | the boundary layer is the boundary data; the polylines are none without street data and otherwise the overlay of the held features |
| Scenarios.GroupingKeepsFirstValue | frontend/src/components/StreetMap.js:67-75 | `[Main St 1, Main St 9, Oak Rd 2]` groups to `[Main St 1, Oak Rd 2]` |
| Scenarios.YDomainSkipsNaN | frontend/src/components/StreetMap.js:85 | values `[3, NaN, 7]` give the domain `[0, 7]` |
| Scenarios.YDomainOfNothing | frontend/src/components/StreetMap.js:85 | `undefined`, `null` and NaN leave the upper bound undefined |
| Scenarios.ColorThresholdIsStrict | frontend/src/components/StreetMap.js:285 | LVI 0.51 is red; LVI 0.5 is green; without an LVI the colour expression gives green too, although the popup's `LVI.toFixed(2)` at line 291 would throw before such a polyline renders |
| Scenarios.NullSafeNormalization | frontend/src/components/StreetMap.js:13 | `undefined`, `null` and `''` normalise to `''` |
| Scenarios.LowerMainStreet | frontend/src/components/StreetMap.js:14-18 | `main street` normalises to `Main Street` |
| Scenarios.TitledMainStreet | frontend/src/components/StreetMap.js:14-18 | `Main Street` is already normal |
| Scenarios.TwoSpellingsNormalize | frontend/src/components/StreetMap.js:25-34 | two features spelled `main street` and `Main Street` both end up named `Main Street`, with everything else unchanged |
| Scenarios.TwoSpellingsScatter | frontend/src/components/StreetMap.js:67-75 | after normalisation, the scatter plot shows the street once, at the first feature's LVI 0.8 |
| Scenarios.TwoSpellingsMap | frontend/src/components/StreetMap.js:275-301 | the overlay still draws both polylines: the first red (LVI 0.8), the second green (LVI 0.3) |

## Left out

- The HTTP requests to `/api/streets` and `/api/boundaries`, and their promises (lines 21-49), are not modelled. A response arrives as a parameter; `None` stands for a request that failed or returned a body that is not JSON. The two requests are independent, so their callbacks are modelled as separate methods that can be called in either order.
- `console.log` and `console.error` (lines 35, 38, 45, 48) have no observable effect on the state, so they are not modelled.
- The SVG drawing itself is not modelled: axes, label rotation, titles, circles, rectangles, the path, and the band and linear scales' pixel ranges, paddings and bandwidths. A chart is modelled as the data it draws (its grouped records) and its scale domains.
- Also not modelled: Leaflet rendering, the tile layer, the boundary layer's style, popups, and `LVI.toFixed(2)` formatting. A popup on a feature whose LVI is not a number would throw; this is not modelled.
- `d3.interpolateReds` (the colour of a heatmap cell) is a floating-point colour ramp and is not modelled. Only the colour domain `[0, 23]` is.
- JsValues.ToNumber: a string converts only when it is empty (0) or made only of the digits 0-9. Signs, decimals, exponents, surrounding whitespace and hexadecimal forms are taken to be NaN rather than parsed.
- Scales.MaxAdmissible: only numeric values count as admissible. `d3.max` would also compare booleans and strings after JavaScript coercion; street properties are numeric, so that case is not modelled.
- Numbers are exact reals. IEEE-754 rounding, infinities and negative zero are not modelled.
- Objects and arrays as property values are not modelled. A name that is an object would throw like any other truthy non-string.
- The shallow copy at lines 28-29 writes the new name into the properties object of the response itself. Nothing else holds that response, so the model normalises features as values.
- Positions are 2-D `[longitude, latitude]` pairs. A third coordinate (altitude) would be dropped by the destructuring at line 284; it is not modelled.
- A response without a `features` array would throw at line 27; the model's collection always has one.
- Every feature has a geometry and a properties map. GeoJSON also allows `null` for both. A `null` properties object would throw at line 30, and the `.catch` at line 38 would drop the whole response. A `null` geometry would throw at line 280 while rendering. Neither case is modelled, because the backend always sets both (backend/flask-server.py:37-41).
- Case mapping is ASCII only. Unicode case changes (`ß` to `SS`, for example) change string length and are not modelled.
- StreetMapView.StreetMap.SelectMetric: a value outside the three options of the `<select>` cannot be chosen, so the method requires one of them.
- Also not part of this model: the Flask backend (`backend/flask-server.py`) and the page shell (`frontend/src/App.js`). The backend only loads files and serves them; the page shell has no logic.
