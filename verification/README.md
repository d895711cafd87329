# litecharts rendering pipeline in Dafny

This project models how litecharts turns an in-memory chart into one
self-contained HTML document (`renderChart` in `src/litecharts/render.py`).
A chart owns panes, a pane owns series, and a series carries its data,
markers, price lines and rectangles. Rendering does the following:

- It splits the chart height across the panes by their ratios
  (`_calculatePaneHeights`).
- It derives each pane's chart options. Width and height are overridden, and
  the time axis is hidden on every pane but the last.
- It writes one `<div>` and one `createChart` call per pane.
- For each series it writes the `addSeries`, `setData`, marker and price-line
  statements (`_renderSeriesJs`). Marker tooltips are stripped first
  (`_stripTooltipFromMarkers`).
- It adds the rectangle primitive script once, and only when some series has
  rectangles.
- With two or more panes it appends the code that keeps their time scales in
  step (`_renderTimeSyncJs`).
- A chart without panes gets a fallback page with a "No data to display"
  notice.

The model has two layers:

- **Structure.** Datatypes record what the document holds and in what order:
  `SeriesStmt`, `SeriesBlock`, `PaneBlock`, `PaneDiv`, `Script`, `Page` and
  `Subscription`. The order, count and inclusion promises are stated on them.
- **Text.** Functions write each structure out, character for character, as
  the source's f-strings do. Lemmas then show that the rendered text contains
  the pieces the structure promises.

The modules follow the source:

- `Json`: values, and Python dictionaries as ordered key/value sequences.
- `Text`: joining, integer formatting and substring containment.
- `ChartModel`: the chart, panes and series, and the collaborators in `Env`.
- `Layout`: pane heights. A pane's share depends only on its ratio, the
  total height and the total ratio, so the model computes every share first
  and then runs the loop that hands them out; this gives the same heights as
  computing each share inside the loop.
- `SeriesJs`: series statements and tooltip stripping.
- `TimeSync`: the time-scale synchronisation code.
- `Render`: pane options, the page structure and the page text.

Code the renderer calls but does not own is a field of `ChartModel.Env`, and
every result holds whatever those fields are:

- `json.dumps`;
- the bundled engine library text (`getLwcJs`);
- the rectangle plugin (`RECTANGLE_PRIMITIVE_JS`, `extractRectangles`,
  `renderRectangleJs`);
- the marker-tooltip plugin (`extractMarkerTooltips`, `renderTooltipJs`).

## Model

| member | source | states |
|---|---|---|
| Json.Put | src/litecharts/render.py:175-176 | After a dictionary assignment the key holds the new value, and every other key looks up exactly as before. |
| Json.PutKeys | src/litecharts/render.py:174-176 | A dictionary assignment leaves the key list unchanged when the key is present and appends the key otherwise. |
| Json.PutKeepsOrder | src/litecharts/render.py:174-176 | A dictionary assignment keeps every existing key at its position (the old key list is a prefix of the new one), and a dictionary without repeated keys stays without them. |
| Text.IntToString | src/litecharts/render.py:163-164 | Integers inside the f-strings are written as a non-empty run of decimal digits, led by a minus sign exactly when the number is negative, and with no leading zero: only zero itself is written starting with `0`. |
| Text.IntToStringRoundTrip | src/litecharts/render.py:163-164 | Reading back `str(n)` gives `n`: the digits of a non-negative number denote it, and for a negative number the digits after the minus sign denote its absolute value. |
| Text.NatToStringRoundTrip | src/litecharts/render.py:163-164 | Reading back the digits written for a natural number gives that number. |
| Text.JoinContainsPart | src/litecharts/render.py:75 | Every part of a `sep.join(parts)` occurs in the joined text. |
| SeriesJs.WithoutKey | src/litecharts/render.py:34 | The dictionary comprehension keeps exactly the pairs whose key is not `tooltip`, in their original order. It leaves that key absent, leaves every other lookup unchanged and keeps keys unique. |
| SeriesJs.StripTooltipFromMarkers | src/litecharts/render.py:23-34 | One marker out per marker in, in the same order. None has a `tooltip` entry, every other entry keeps its value and position, and unique keys stay unique. |
| SeriesJs.StripTooltipIdempotent | src/litecharts/render.py:23-34 | Stripping tooltips from already stripped markers changes nothing. |
| SeriesJs.PriceLineStmts | src/litecharts/render.py:70-73 | Exactly one `createPriceLine` per price line, in list order, and no marker call. |
| SeriesJs.SeriesStmts | src/litecharts/render.py:49-75 | A series is `addSeries`, then `setData`. Then comes one `createSeriesMarkers` with the tooltip-free markers, at position 2 and only when there are markers. Then one `createPriceLine` per price line in order. Every statement is on the series variable. |
| SeriesJs.RenderSeriesJs | src/litecharts/render.py:37-75 | The series code opens with the `addSeries` call on the chart variable. |
| SeriesJs.RenderedSeriesHasEveryPriceLine | src/litecharts/render.py:70-75 | The series code contains the `createPriceLine` statement of each of its price lines. |
| SeriesJs.RenderedSeriesHasMarkers | src/litecharts/render.py:60-68 | A series with markers has, in its code, the `createSeriesMarkers` statement with the tooltip-free markers. |
| Layout.SumRatios | src/litecharts/render.py:88 | The total ratio is positive exactly when there is a pane, and zero otherwise. |
| Layout.Trunc | src/litecharts/render.py:97 | `int(x)` truncates toward zero: the floor for non-negative `x` and the ceiling for negative `x`. |
| Layout.Allot | src/litecharts/render.py:91-99 | The loop hands out one height per remaining pane. Every pane but the last gets its share, and the last gets what remains, so the heights add up to `remaining`. |
| Layout.PaneHeights | src/litecharts/render.py:78-101 | One height per pane. The heights add up to the total height exactly, because the last pane gets the total minus the heights of the others. |
| Layout.PaneHeightsShares | src/litecharts/render.py:92-98 | Every pane but the last gets `int(totalHeight * ratio / totalRatio)`, the truncation of its proportional share of the total. |
| Layout.HeightsWithinTotal | src/litecharts/render.py:92-99 | With a non-negative total, every pane height, the last one included, lies between zero and the total. |
| Layout.ThreeToOneExample | src/litecharts/render.py:88-101 | Two panes weighted 3 and 1 over 800 pixels get 600 and 200. |
| TimeSync.Others | src/litecharts/render.py:118 | The other chart variables of position `i` are all the variables except the one at `i`, in input order. |
| TimeSync.SyncPlan | src/litecharts/render.py:113-125 | Below two charts there is no subscription. Otherwise there is one subscription per chart, in input order, forwarding to the other charts. |
| TimeSync.SyncPlanAllPairs | src/litecharts/render.py:117-125 | Every chart forwards its range to every other chart. With distinct variable names, no chart forwards to itself. |
| TimeSync.SyncText | src/litecharts/render.py:116-127 | The joined sync code is empty exactly when there is no subscription. |
| TimeSync.TimeSyncJsLinksEveryPair | src/litecharts/render.py:117-127 | The sync code contains every chart's subscription line, and chart `i`'s line itself holds the `setVisibleLogicalRange` call of every other chart `j`. |
| TimeSync.TimeSyncJs | src/litecharts/render.py:104-127 | The sync code is empty exactly when there are fewer than two charts. |
| Render.HiddenTimeScale | src/litecharts/render.py:179-185 | The hidden axis is `visible: false` merged over the existing time scale when that is a non-empty mapping, and just `visible: false` when it is missing or falsy. It is a `TypeError` exactly when it is truthy and not a mapping. The merged mapping keeps the existing keys in order and adds `visible` last only when it is new; the fallback holds the single key `visible`; a mapping without repeated keys stays without them. |
| Render.Resize | src/litecharts/render.py:174-176 | Width and height take the chart width and the pane height. Every other option is unchanged. |
| Render.HideTimeAxis | src/litecharts/render.py:179-185 | `timeScale` takes the hidden axis and every other option is unchanged. It fails exactly when the time scale cannot be merged. |
| Render.PaneOptions | src/litecharts/render.py:172-185 | A pane's options override width and height and keep every other chart option. Only panes above the last get the hidden axis. The derivation fails exactly for such a pane when the chart's `timeScale` is truthy and not a mapping. |
| Render.PaneOptionsKeepOrder | src/litecharts/render.py:174-191 | When the time scale allows it, the derivation succeeds. The key order that `json.dumps` writes: a pane's options list the chart options' keys in their order, then `width`, `height` and (above the last pane) `timeScale`, each only when the chart options lack it. Unique keys stay unique. |
| Render.NewKeysAssigned | src/litecharts/render.py:174-185 | Appending those new keys is the same as assigning `width`, `height` and, above the last pane, `timeScale` one after the other. |
| Render.ResizeKeys | src/litecharts/render.py:174-176 | Setting width and height changes the key list as two dictionary assignments do, and keeps keys unique. |
| Render.HideTimeAxisKeys | src/litecharts/render.py:179-185 | Hiding the axis changes the key list as one assignment of `timeScale` does, and keeps keys unique. |
| Render.PaneBlocks | src/litecharts/render.py:172-214 | The loop over the first `n` panes gives one block per pane, in pane order. Block `k` is bound to `chart_` and the pane id, is mounted in `<container>_pane_<k>`, carries the options derived for pane `k` (axis hidden unless it is the last pane) and holds that pane's series in order. The loop fails exactly when it reaches a pane above the last and the chart's `timeScale` is truthy and not a mapping. |
| Render.PageScripts | src/litecharts/render.py:219-253 | The page loads the library first and the chart script last. The rectangle primitive appears once when some series has rectangles and not at all otherwise, and the chart script appears once. |
| Render.BuildPage | src/litecharts/render.py:142-253 | With no panes, the fallback page. Otherwise: one element per pane sized by `PaneHeights`; the library script first; the rectangle primitive exactly once when some series has rectangles and never otherwise; the chart script last and once; sync subscriptions exactly when there are two or more panes. |
| Render.RenderChart | src/litecharts/render.py:130-255 | Apart from the library-loading error, which is not modelled, rendering fails only with the time-scale `TypeError`, and only with two or more panes. Without panes it succeeds with the "No data to display" notice, and for a generated chart id the page has no `<script>` tag. |
| Render.RenderedPageMountsEveryPane | src/litecharts/render.py:161-198 | Whenever the time scale does not make rendering fail, rendering succeeds and the page contains each pane's `<div>` with its computed height, and each pane's `createChart` call bound to `chart_` and the pane id. |
| Render.RenderedPageSyncsPanes | src/litecharts/render.py:216-228 | With two or more panes and a time scale that can be merged, rendering succeeds and the page contains the sync comment followed by the time-sync code of all chart variables. |
| Render.NoDataPageFacts | src/litecharts/render.py:143-155 | The fallback page contains the "No data to display" notice. |
| Render.NoDataPageHasNoScript | src/litecharts/render.py:143-155 | When the chart id is a generated identifier, the fallback page contains no `<script>` tag. |

## Left out

- Reading the bundled engine library from disk (`getLwcJs` in `_js.py`) is I/O. Its text is the parameter `Env.lwcJs`. Its `FileNotFoundError` is not modelled: `Env.lwcJs` assumes the read succeeds. The source makes that call (render.py:140) before the no-panes test, so in the source even a chart without panes can fail this way.
- `json.dumps` and both plugins (`plugins/draw_rectangle.py`, `plugins/marker_tooltips.py`) are not part of this model. They are the opaque `Env` fields, so the tooltip lookup table's contents are not modelled.
- Building the chart (marker groups, input normalisation, `toFragment`, file output) is outside the renderer. A series' `markers` is the already flattened view, and its data, options and price lines are already JSON-shaped.
- Layout.PaneHeights: ratios are exact reals, so neither the total `sum(p.heightRatio for p in panes)` (render.py:88) nor `totalHeight * ratio / totalRatio` (render.py:97) is subject to IEEE double rounding. Rounding in either can make a share in the source one pixel smaller or larger than the exact one: with ratios `1.0` and `1e-17` over a height of 1, the float total rounds to `1.0`, so the source gives `[1, 0]` where the model gives `[0, 1]`. Heights still add up to the total, because the last pane absorbs the rest.
- Render.BuildPage: "the rectangle primitive exactly once" is stated over the page structure and not over the final text, because the opaque library text and plugin output could contain any characters.
- Render.RenderChart: the no-`<script>` promise for the fallback page covers chart ids made of letters, digits, `_` and `-`, which are the ids the library generates. An arbitrary id is pasted into the page unescaped and could contain the tag.
- Chart width and height are unbounded integers. Python `int` is unbounded too, so nothing wraps.
- Apart from the library-loading error above, nothing else is left out of `renderChart`. Note that the marker-tooltip code is written once per pane, after that pane's series (render.py:209-212), not once for the whole chart; the model does the same.
