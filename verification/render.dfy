/** `renderChart`: the whole chart as one HTML document.

    `BuildPage` decides what the document holds (one container per pane, the
    engine library, the rectangle primitive at most once, one chart script
    with a block per pane and the time-sync code); `PageText` writes it out
    exactly as the source's f-strings do. */
module Render {
  import opened Json
  import opened Text
  import opened ChartModel
  import opened Layout
  import opened SeriesJs
  import opened TimeSync

  /** The `TypeError` raised by `{**existingTs, "visible": False}` when the
      chart's `timeScale` option is truthy but not a dictionary. */
  datatype RenderError = TimeScaleNotMapping(found: Value)

  datatype Result<+T> = Ok(value: T) | Err(error: RenderError)

  function ContainerId(chart: Chart): string {
    "container_" + chart.id
  }

  /** The JavaScript variable of a pane's chart: `chart_` and the pane id. */
  function ChartVar(pane: Pane): string {
    "chart_" + pane.id
  }

  /** The element a pane's chart is mounted in. */
  function PaneElementId(containerId: string, i: nat): string {
    containerId + "_pane_" + IntToString(i)
  }

  const HiddenAxis: Value := JObj([("visible", JBool(false))])

  /** The chart options hold a `timeScale` the pane derivation cannot merge. */
  predicate TimeScaleRejected(options: Object) {
    var ts := Lookup(options, "timeScale");
    ts.Some? && Truthy(ts.value) && !ts.value.JObj?
  }

  /** The `timeScale` of every pane but the last: the existing one with
      `visible` forced to false when it is a non-empty mapping, just
      `{"visible": false}` when it is missing or falsy, and a `TypeError` when
      it is truthy but not a mapping. */
  function HiddenTimeScale(existing: Option<Value>): (r: Result<Value>)
    ensures r.Err? <==> existing.Some? && Truthy(existing.value) && !existing.value.JObj?
    ensures r.Ok? ==> r.value.JObj? && Lookup(r.value.fields, "visible") == Some(JBool(false))
    ensures r.Ok? ==> forall k :: k != "visible" ==>
      Lookup(r.value.fields, k) == if existing.Some? && existing.value.JObj? then Lookup(existing.value.fields, k) else None
    ensures r.Ok? && existing.Some? && existing.value.JObj? ==>
      Keys(r.value.fields) == Assigned(Keys(existing.value.fields), "visible")
    ensures r.Ok? && !(existing.Some? && existing.value.JObj?) ==> Keys(r.value.fields) == ["visible"]
    ensures r.Ok? && existing.Some? && existing.value.JObj? && UniqueKeys(existing.value.fields) ==>
      UniqueKeys(r.value.fields)
  {
    match existing
    case Some(ts) =>
      if !Truthy(ts) then Ok(HiddenAxis)
      else if ts.JObj? then
        PutKeys(ts.fields, "visible", JBool(false));
        PutKeepsOrder(ts.fields, "visible", JBool(false));
        Ok(JObj(Put(ts.fields, "visible", JBool(false))))
      else Err(TimeScaleNotMapping(ts))
    case None => Ok(HiddenAxis)
  }

  /** `paneOptions["width"] = width; paneOptions["height"] = height`. */
  function Resize(options: Object, width: int, height: int): (r: Object)
    ensures Lookup(r, "width") == Some(JInt(width))
    ensures Lookup(r, "height") == Some(JInt(height))
    ensures forall k :: k != "width" && k != "height" ==> Lookup(r, k) == Lookup(options, k)
  {
    OptionKeysDistinct();
    var wide := Put(options, "width", JInt(width));
    var r := Put(wide, "height", JInt(height));
    assert Lookup(r, "width") == Lookup(wide, "width");
    r
  }

  lemma OptionKeysDistinct()
    ensures "timeScale" != "width" && "timeScale" != "height" && "width" != "height"
  {
  }

  /** `paneOptions["timeScale"] = {**existingTs, "visible": False}`: the
      time axis of `options` hidden, every other entry untouched. */
  function HideTimeAxis(options: Object): (r: Result<Object>)
    ensures r.Err? <==> TimeScaleRejected(options)
    ensures r.Ok? ==> forall k :: k != "timeScale" ==> Lookup(r.value, k) == Lookup(options, k)
    ensures r.Ok? ==>
      && HiddenTimeScale(Lookup(options, "timeScale")).Ok?
      && Lookup(r.value, "timeScale") == Some(HiddenTimeScale(Lookup(options, "timeScale")).value)
  {
    var hidden := HiddenTimeScale(Lookup(options, "timeScale"));
    if hidden.Err? then Err(hidden.error)
    else Ok(Put(options, "timeScale", hidden.value))
  }

  /** The options of one pane's chart: the chart options with `width` and
      `height` overridden and, on every pane but the last, the time axis
      hidden; every other entry keeps its value. The derivation fails exactly
      when the axis must be hidden but the chart's `timeScale` is truthy and
      not a mapping. */
  function PaneOptions(chartOptions: Object, width: int, height: int, isLast: bool): (r: Result<Object>)
    ensures r.Err? <==> !isLast && TimeScaleRejected(chartOptions)
    ensures r.Ok? ==> Lookup(r.value, "width") == Some(JInt(width))
    ensures r.Ok? ==> Lookup(r.value, "height") == Some(JInt(height))
    ensures r.Ok? ==> forall k :: k != "width" && k != "height" && k != "timeScale" ==>
      Lookup(r.value, k) == Lookup(chartOptions, k)
    ensures r.Ok? && isLast ==> Lookup(r.value, "timeScale") == Lookup(chartOptions, "timeScale")
    ensures r.Ok? && !isLast ==>
      && HiddenTimeScale(Lookup(chartOptions, "timeScale")).Ok?
      && Lookup(r.value, "timeScale") == Some(HiddenTimeScale(Lookup(chartOptions, "timeScale")).value)
  {
    OptionKeysDistinct();
    var sized := Resize(chartOptions, width, height);
    if isLast then Ok(sized) else HideTimeAxis(sized)
  }

  /** The keys a pane's options gain, in the order they are assigned:
      `width`, `height`, then `timeScale` on every pane but the last, each
      only when the chart options do not already have it. */
  function NewKeys(keys: seq<string>, isLast: bool): seq<string> {
    (if "width" in keys then [] else ["width"])
    + (if "height" in keys then [] else ["height"])
    + (if isLast || "timeScale" in keys then [] else ["timeScale"])
  }

  /** Deriving a pane's options moves no key of the chart options and
      appends the new ones in assignment order, so the serialized options
      list the chart's keys first; a dictionary without repeated keys stays
      without them. */
  lemma PaneOptionsKeepOrder(chartOptions: Object, width: int, height: int, isLast: bool)
    requires isLast || !TimeScaleRejected(chartOptions)
    ensures PaneOptions(chartOptions, width, height, isLast).Ok?
    ensures var paneOptions := PaneOptions(chartOptions, width, height, isLast).value;
      && Keys(paneOptions) == Keys(chartOptions) + NewKeys(Keys(chartOptions), isLast)
      && Keys(chartOptions) <= Keys(paneOptions)
      && (UniqueKeys(chartOptions) ==> UniqueKeys(paneOptions))
  {
    var keys := Keys(chartOptions);
    var sized := Resize(chartOptions, width, height);
    ResizeKeys(chartOptions, width, height);
    NewKeysAssigned(keys, isLast);
    if !isLast {
      HideTimeAxisKeys(sized);
    }
  }

  /** `NewKeys` is the assignments of `width`, `height` and, unless last,
      `timeScale`, one after the other. */
  lemma NewKeysAssigned(keys: seq<string>, isLast: bool)
    ensures var sized := Assigned(Assigned(keys, "width"), "height");
      keys + NewKeys(keys, isLast) == if isLast then sized else Assigned(sized, "timeScale")
  {
    OptionKeysDistinct();
    var wide := Assigned(keys, "width");
    assert "height" in wide <==> "height" in keys;
    assert "timeScale" in Assigned(wide, "height") <==> "timeScale" in keys;
  }

  /** `Resize` assigns `width` and then `height`. */
  lemma ResizeKeys(options: Object, width: int, height: int)
    ensures Keys(Resize(options, width, height)) == Assigned(Assigned(Keys(options), "width"), "height")
    ensures UniqueKeys(options) ==> UniqueKeys(Resize(options, width, height))
  {
    var wide := Put(options, "width", JInt(width));
    PutKeys(options, "width", JInt(width));
    PutKeys(wide, "height", JInt(height));
    PutKeepsOrder(options, "width", JInt(width));
    PutKeepsOrder(wide, "height", JInt(height));
  }

  /** Hiding the time axis assigns `timeScale`. */
  lemma HideTimeAxisKeys(options: Object)
    requires HideTimeAxis(options).Ok?
    ensures Keys(HideTimeAxis(options).value) == Assigned(Keys(options), "timeScale")
    ensures UniqueKeys(options) ==> UniqueKeys(HideTimeAxis(options).value)
  {
    var hidden := HiddenTimeScale(Lookup(options, "timeScale"));
    PutKeys(options, "timeScale", hidden.value);
    PutKeepsOrder(options, "timeScale", hidden.value);
  }

  /** One series inside a pane's script: its statements, then the rectangle
      plugin's code when the plugin found rectangles. */
  datatype SeriesBlock = SeriesBlock(series: Series, stmts: seq<SeriesStmt>, rectangles: seq<Value>)

  /** One pane's chart: construction in `container` with `options`, its
      series in order, then the tooltip plugin's code when it found tooltips. */
  datatype PaneBlock = PaneBlock(chartVar: string, container: string, options: Object, series: seq<SeriesBlock>, tooltips: Object)

  datatype PaneDiv = PaneDiv(elementId: string, width: int, height: int)

  datatype Script =
    | LibraryScript
    | RectanglePrimitiveScript
    | ChartScript(panes: seq<PaneBlock>, sync: seq<Subscription>)

  datatype Page =
    | NoDataPage(containerId: string, width: int, height: int)
    | ChartPage(containerId: string, divs: seq<PaneDiv>, scripts: seq<Script>)

  function SeriesBlocks(env: Env, pane: Pane, chartVar: string): (r: seq<SeriesBlock>)
    ensures |r| == |pane.series|
    ensures forall j :: 0 <= j < |r| ==> r[j].stmts == SeriesStmts(pane.series[j], chartVar)
    ensures forall j :: 0 <= j < |r| ==> r[j].series == pane.series[j]
    ensures forall j :: 0 <= j < |r| ==> r[j].rectangles == env.extractRectangles(pane.series[j])
  {
    seq(|pane.series|, j requires 0 <= j < |pane.series| =>
      var s := pane.series[j];
      SeriesBlock(s, SeriesStmts(s, chartVar), env.extractRectangles(s)))
  }

  /** The block of pane `i`, mounted in its own element, with `options`. */
  function MakeBlock(env: Env, chart: Chart, i: nat, options: Object): PaneBlock
    requires i < |chart.panes|
  {
    var pane := chart.panes[i];
    PaneBlock(ChartVar(pane), PaneElementId(ContainerId(chart), i), options,
              SeriesBlocks(env, pane, ChartVar(pane)), env.extractMarkerTooltips(pane))
  }

  /** `b` is the block of pane `i`: built by `MakeBlock` with the options
      derived for that pane, at its height, hiding the time axis unless it is
      the last pane. */
  predicate IsPaneBlock(env: Env, chart: Chart, heights: seq<int>, i: nat, b: PaneBlock)
    requires |heights| == |chart.panes| && i < |chart.panes|
  {
    && PaneOptions(chart.options, chart.width, heights[i], i == |chart.panes| - 1) == Ok(b.options)
    && b == MakeBlock(env, chart, i, b.options)
  }

  /** The loop over the first `n` panes: one block per pane, in pane order,
      failing at the first pane whose options cannot be derived. */
  function PaneBlocks(env: Env, chart: Chart, heights: seq<int>, n: nat): (r: Result<seq<PaneBlock>>)
    requires |heights| == |chart.panes| && n <= |chart.panes|
    ensures r.Err? <==> n > 0 && |chart.panes| >= 2 && TimeScaleRejected(chart.options)
    ensures r.Ok? ==> |r.value| == n
    ensures r.Ok? ==> forall k :: 0 <= k < n ==> IsPaneBlock(env, chart, heights, k, r.value[k])
  {
    if n == 0 then Ok([])
    else
      match PaneBlocks(env, chart, heights, n - 1)
      case Err(e) => Err(e)
      case Ok(front) =>
        match PaneOptions(chart.options, chart.width, heights[n - 1], n - 1 == |chart.panes| - 1)
        case Err(e) => Err(e)
        case Ok(options) =>
          AppendPaneBlock(env, chart, heights, front, options);
          Ok(front + [MakeBlock(env, chart, n - 1, options)])
  }

  /** The blocks of the first panes, followed by the block of the next pane,
      are the blocks of one more pane. */
  lemma AppendPaneBlock(env: Env, chart: Chart, heights: seq<int>, front: seq<PaneBlock>, options: Object)
    requires |heights| == |chart.panes| && |front| < |chart.panes|
    requires forall k :: 0 <= k < |front| ==> IsPaneBlock(env, chart, heights, k, front[k])
    requires PaneOptions(chart.options, chart.width, heights[|front|], |front| == |chart.panes| - 1) == Ok(options)
    ensures forall k :: 0 <= k <= |front| ==>
      IsPaneBlock(env, chart, heights, k, (front + [MakeBlock(env, chart, |front|, options)])[k])
  {
    var blocks := front + [MakeBlock(env, chart, |front|, options)];
    assert forall k :: 0 <= k < |front| ==> blocks[k] == front[k];
  }

  function ChartVars(panes: seq<Pane>): (r: seq<string>)
    ensures |r| == |panes|
    ensures forall i :: 0 <= i < |r| ==> r[i] == ChartVar(panes[i])
  {
    seq(|panes|, i requires 0 <= i < |panes| => ChartVar(panes[i]))
  }

  /** What `renderChart` puts in the document. With no panes: the fallback
      page. Otherwise: one container per pane with its computed height, the
      engine library, the rectangle primitive exactly once when some series
      has rectangles and never otherwise, and last the chart script, whose
      time-sync part is non-empty exactly when there are two or more panes. */
  function BuildPage(env: Env, chart: Chart): (r: Result<Page>)
    ensures |chart.panes| == 0 ==> r == Ok(NoDataPage(ContainerId(chart), chart.width, chart.height))
    ensures r.Err? <==> |chart.panes| >= 2 && TimeScaleRejected(chart.options)
    ensures r.Ok? && |chart.panes| > 0 ==>
      && r.value.ChartPage?
      && r.value.containerId == ContainerId(chart)
      && |r.value.divs| == |chart.panes|
      && (forall i :: 0 <= i < |chart.panes| ==>
            r.value.divs[i] == PaneDiv(PaneElementId(ContainerId(chart), i), chart.width, PaneHeights(chart.panes, chart.height)[i]))
    ensures r.Ok? && |chart.panes| > 0 ==>
      && r.value.ChartPage?
      && |r.value.scripts| == (if HasRectangles(chart.panes) then 3 else 2)
      && r.value.scripts[0] == LibraryScript
      && multiset(r.value.scripts)[RectanglePrimitiveScript] == (if HasRectangles(chart.panes) then 1 else 0)
      && r.value.scripts[|r.value.scripts| - 1].ChartScript?
    ensures r.Ok? && |chart.panes| > 0 ==>
      && r.value.ChartPage? && |r.value.scripts| > 0
      && var cs := r.value.scripts[|r.value.scripts| - 1];
      && cs.ChartScript?
      && multiset(r.value.scripts)[cs] == 1
      && Ok(cs.panes) == PaneBlocks(env, chart, PaneHeights(chart.panes, chart.height), |chart.panes|)
      && (|cs.sync| > 0 <==> |chart.panes| >= 2)
      && cs.sync == SyncPlan(ChartVars(chart.panes))
  {
    var containerId := ContainerId(chart);
    if |chart.panes| == 0 then Ok(NoDataPage(containerId, chart.width, chart.height))
    else
      var heights := PaneHeights(chart.panes, chart.height);
      match PaneBlocks(env, chart, heights, |chart.panes|)
      case Err(e) => Err(e)
      case Ok(blocks) =>
        var chartScript := ChartScript(blocks, SyncPlan(ChartVars(chart.panes)));
        Ok(ChartPage(containerId, PaneDivs(containerId, chart.width, heights),
                     PageScripts(HasRectangles(chart.panes), chartScript)))
  }

  /** One element per pane, numbered in pane order, with the chart width and
      that pane's height. */
  function PaneDivs(containerId: string, width: int, heights: seq<int>): (r: seq<PaneDiv>)
    ensures |r| == |heights|
    ensures forall i :: 0 <= i < |r| ==> r[i] == PaneDiv(PaneElementId(containerId, i), width, heights[i])
  {
    seq(|heights|, i requires 0 <= i < |heights| => PaneDiv(PaneElementId(containerId, i), width, heights[i]))
  }

  /** The scripts of a chart page: the library, the rectangle primitive once
      when it is needed and never otherwise, and the chart script last. */
  function PageScripts(needsRectangles: bool, chartScript: Script): (r: seq<Script>)
    requires chartScript.ChartScript?
    ensures |r| == (if needsRectangles then 3 else 2)
    ensures r[0] == LibraryScript && r[|r| - 1] == chartScript
    ensures multiset(r)[RectanglePrimitiveScript] == (if needsRectangles then 1 else 0)
    ensures multiset(r)[chartScript] == 1
  {
    var rectangleScript := if needsRectangles then [RectanglePrimitiveScript] else [];
    var r := [LibraryScript] + rectangleScript + [chartScript];
    assert multiset(r) == multiset{LibraryScript} + multiset(rectangleScript) + multiset{chartScript};
    r
  }

  // ---- Text -------------------------------------------------------------

  function SeriesBlockLines(env: Env, chartVar: string, b: SeriesBlock): seq<string> {
    [RenderSeriesJs(env.dumps, b.series, chartVar)]
      + (if |b.rectangles| > 0 then [env.renderRectangleJs(chartVar, b.series.id, b.rectangles)] else [])
  }

  function SeriesBlocksLines(env: Env, chartVar: string, blocks: seq<SeriesBlock>): seq<string> {
    if |blocks| == 0 then []
    else SeriesBlockLines(env, chartVar, blocks[0]) + SeriesBlocksLines(env, chartVar, blocks[1..])
  }

  /** The line that binds a pane's chart variable. */
  function CreateChartCall(chartVar: string): string {
    "const " + chartVar + " = LightweightCharts.createChart("
  }

  /** The header of a pane block: the `createChart` call. */
  function CreateChartLines(env: Env, b: PaneBlock): seq<string> {
    [ CreateChartCall(b.chartVar),
      "      document.getElementById('" + b.container + "'),",
      "      " + env.dumps(JObj(b.options)),
      "    );" ]
  }

  function PaneBlockLines(env: Env, b: PaneBlock): seq<string> {
    CreateChartLines(env, b)
      + SeriesBlocksLines(env, b.chartVar, b.series)
      + (if |b.tooltips| > 0 then [env.renderTooltipJs(b.chartVar, b.container, b.tooltips)] else [])
  }

  function PaneBlockText(env: Env, b: PaneBlock): string {
    Join("\n    ", PaneBlockLines(env, b))
  }

  function PaneBlocksText(env: Env, blocks: seq<PaneBlock>): (r: seq<string>)
    ensures |r| == |blocks|
    ensures forall i :: 0 <= i < |r| ==> r[i] == PaneBlockText(env, blocks[i])
  {
    seq(|blocks|, i requires 0 <= i < |blocks| => PaneBlockText(env, blocks[i]))
  }

  const SyncComment: string := "\n\n    // Sync time scales\n    "

  /** `allChartJs`: the pane blocks, then the sync code when it is non-empty. */
  function ChartJsText(env: Env, blocks: seq<PaneBlock>, sync: seq<Subscription>): string {
    var all := Join("\n\n    ", PaneBlocksText(env, blocks));
    var syncJs := SyncText(sync);
    if syncJs != "" then Concat([all, SyncComment + syncJs]) else Concat([all])
  }

  function ScriptText(env: Env, sc: Script): string {
    match sc
    case LibraryScript => "<script>" + env.lwcJs + "</script>"
    case RectanglePrimitiveScript => "\n    <script>" + env.rectanglePrimitiveJs + "</script>"
    case ChartScript(blocks, sync) => Concat(["\n    <script>\n    ", ChartJsText(env, blocks, sync), "\n    </script>"])
  }

  function ScriptsText(env: Env, scripts: seq<Script>): (r: seq<string>)
    ensures |r| == |scripts|
    ensures forall i :: 0 <= i < |r| ==> r[i] == ScriptText(env, scripts[i])
  {
    seq(|scripts|, i requires 0 <= i < |scripts| => ScriptText(env, scripts[i]))
  }

  function PaneDivText(d: PaneDiv): string {
    "<div id=\"" + d.elementId + "\" style=\"width: " + IntToString(d.width)
      + "px; height: " + IntToString(d.height) + "px;\"></div>"
  }

  function PaneDivsText(divs: seq<PaneDiv>): (r: seq<string>)
    ensures |r| == |divs|
    ensures forall i :: 0 <= i < |r| ==> r[i] == PaneDivText(divs[i])
  {
    seq(|divs|, i requires 0 <= i < |divs| => PaneDivText(divs[i]))
  }

  /** Everything before `<body>` of the full document. */
  function HeadText(containerId: string): string {
    Join("\n", [ "<!DOCTYPE html>", "<html>", "<head>", "    <title>Chart</title>", "    <style>",
      "        body {", "            margin: 0;", "            padding: 20px;", "            background: #1e1e1e;", "        }",
      "        #" + containerId + " {", "            display: flex;", "            flex-direction: column;", "        }",
      "    </style>", "</head>", "" ])
  }

  /** The fallback document, piece by piece: tags are written with `Open`. */
  function NoDataPieces(containerId: string, width: int, height: int): seq<string> {
    [ Open("!DOCTYPE html"), "\n",
      Open("html"), "\n",
      Open("head"), "\n    ",
      Open("title"), "Chart", Open("/title"), "\n",
      Open("/head"), "\n",
      Open("body"), "\n    ",
      Open(DivAttributes(containerId, width, height)), "\n        ",
      Open("p"), NoDataNotice, Open("/p"), "\n    ",
      Open("/div"), "\n",
      Open("/body"), "\n",
      Open("/html") ]
  }

  const NoDataNotice: string := "No data to display"

  function DivAttributes(containerId: string, width: int, height: int): string {
    "div id=\"" + containerId + "\" style=\"width: " + IntToString(width)
      + "px; height: " + IntToString(height) + "px;\""
  }

  function PageText(env: Env, page: Page): string {
    match page
    case NoDataPage(containerId, width, height) =>
      Concat(NoDataPieces(containerId, width, height))
    case ChartPage(containerId, divs, scripts) =>
      Concat(ChartPagePieces(env, HeadText(containerId), containerId, divs, scripts))
  }

  /** The full document, piece by piece: the head, the pane elements inside
      the container, then the scripts. */
  function ChartPagePieces(env: Env, head: string, containerId: string, divs: seq<PaneDiv>, scripts: seq<Script>): seq<string> {
    [ head,
      "<body>\n    <div id=\"" + containerId + "\">\n        ",
      Join("\n        ", PaneDivsText(divs)),
      "\n    </div>\n    ",
      Concat(ScriptsText(env, scripts)),
      "\n</body>\n</html>" ]
  }

  /** `renderChart(chart)`. It fails only with the `TypeError` of the pane
      options; with no panes it returns the fallback page, which shows the
      notice and loads no script. */
  function RenderChart(env: Env, chart: Chart): (r: Result<string>)
    ensures r.Err? <==> |chart.panes| >= 2 && TimeScaleRejected(chart.options)
    ensures |chart.panes| == 0 ==> r.Ok? && Contains(r.value, NoDataNotice)
    ensures |chart.panes| == 0 && IsIdentifier(chart.id) ==> !Contains(r.value, "<script>")
  {
    match BuildPage(env, chart)
    case Err(e) => Err(e)
    case Ok(page) =>
      if |chart.panes| == 0 then
        NoDataPageFacts(ContainerId(chart), chart.width, chart.height);
        NoDataPageHasNoScript(chart.id, chart.width, chart.height);
        Ok(PageText(env, page))
      else
        Ok(PageText(env, page))
  }

  /** Every pane gets its own element, sized by `PaneHeights`, and its own
      `createChart` call bound to `chart_` and the pane id. */
  lemma RenderedPageMountsEveryPane(env: Env, chart: Chart, i: nat)
    requires i < |chart.panes|
    requires !(|chart.panes| >= 2 && TimeScaleRejected(chart.options))
    ensures RenderChart(env, chart).Ok?
    ensures Contains(RenderChart(env, chart).value,
                     PaneDivText(PaneDiv(PaneElementId(ContainerId(chart), i), chart.width, PaneHeights(chart.panes, chart.height)[i])))
    ensures Contains(RenderChart(env, chart).value, CreateChartCall(ChartVar(chart.panes[i])))
  {
    var page := BuildPage(env, chart).value;
    ChartPageMountsPane(env, page.containerId, page.divs, page.scripts, i);
  }

  /** With two or more panes the page carries the time-sync code of all of
      their chart variables, after its comment line. */
  lemma RenderedPageSyncsPanes(env: Env, chart: Chart)
    requires |chart.panes| >= 2 && !TimeScaleRejected(chart.options)
    ensures RenderChart(env, chart).Ok?
    ensures Contains(RenderChart(env, chart).value, SyncComment + TimeSyncJs(ChartVars(chart.panes)))
  {
    var page := BuildPage(env, chart).value;
    ChartPageSyncs(env, page.containerId, page.divs, page.scripts);
  }

  /** A chart page holds its `i`-th pane element and, in its chart script,
      the `createChart` call of its `i`-th block. */
  lemma ChartPageMountsPane(env: Env, containerId: string, divs: seq<PaneDiv>, scripts: seq<Script>, i: nat)
    requires i < |divs| && |scripts| > 0 && scripts[|scripts| - 1].ChartScript? && i < |scripts[|scripts| - 1].panes|
    ensures Contains(PageText(env, ChartPage(containerId, divs, scripts)), PaneDivText(divs[i]))
    ensures Contains(PageText(env, ChartPage(containerId, divs, scripts)),
                     CreateChartCall(scripts[|scripts| - 1].panes[i].chartVar))
  {
    var cs := scripts[|scripts| - 1];
    var head := HeadText(containerId);
    PageContainsPaneDiv(env, head, containerId, divs, scripts, i);
    PageContainsLastScript(env, head, containerId, divs, scripts);
    ChartScriptContainsBlock(env, cs.panes, cs.sync, i);
    ContainsTrans(PageText(env, ChartPage(containerId, divs, scripts)), ScriptText(env, cs), CreateChartCall(cs.panes[i].chartVar));
  }

  /** A chart page whose chart script has sync code holds that code after
      its comment. */
  lemma ChartPageSyncs(env: Env, containerId: string, divs: seq<PaneDiv>, scripts: seq<Script>)
    requires |scripts| > 0 && scripts[|scripts| - 1].ChartScript? && SyncText(scripts[|scripts| - 1].sync) != ""
    ensures Contains(PageText(env, ChartPage(containerId, divs, scripts)), SyncComment + SyncText(scripts[|scripts| - 1].sync))
  {
    var cs := scripts[|scripts| - 1];
    PageContainsLastScript(env, HeadText(containerId), containerId, divs, scripts);
    ScriptContainsSync(env, cs.panes, cs.sync);
    ContainsTrans(PageText(env, ChartPage(containerId, divs, scripts)), ScriptText(env, cs), SyncComment + SyncText(cs.sync));
  }

  /** A chart script with non-empty sync code holds it after its comment. */
  lemma ScriptContainsSync(env: Env, blocks: seq<PaneBlock>, sync: seq<Subscription>)
    requires SyncText(sync) != ""
    ensures Contains(ScriptText(env, ChartScript(blocks, sync)), SyncComment + SyncText(sync))
  {
    var all := Join("\n\n    ", PaneBlocksText(env, blocks));
    var chartJs := ChartJsText(env, blocks, sync);
    ConcatContainsPiece([all, SyncComment + SyncText(sync)], 1);
    ScriptContainsChartJs(env, blocks, sync);
    ContainsTrans(ScriptText(env, ChartScript(blocks, sync)), chartJs, SyncComment + SyncText(sync));
  }

  /** A full page holds each of its pane elements. */
  lemma PageContainsPaneDiv(env: Env, head: string, containerId: string, divs: seq<PaneDiv>, scripts: seq<Script>, i: nat)
    requires i < |divs|
    ensures Contains(Concat(ChartPagePieces(env, head, containerId, divs, scripts)), PaneDivText(divs[i]))
  {
    PageContainsDiv(ChartPagePieces(env, head, containerId, divs, scripts), divs, i);
  }

  /** A full page holds, whole, its last script. */
  lemma PageContainsLastScript(env: Env, head: string, containerId: string, divs: seq<PaneDiv>, scripts: seq<Script>)
    requires |scripts| > 0
    ensures Contains(Concat(ChartPagePieces(env, head, containerId, divs, scripts)), ScriptText(env, scripts[|scripts| - 1]))
  {
    PageContainsScript(env, ChartPagePieces(env, head, containerId, divs, scripts), scripts);
  }

  lemma PageContainsDiv(pieces: seq<string>, divs: seq<PaneDiv>, i: nat)
    requires |pieces| > 2 && pieces[2] == Join("\n        ", PaneDivsText(divs)) && i < |divs|
    ensures Contains(Concat(pieces), PaneDivText(divs[i]))
  {
    JoinContainsPart("\n        ", PaneDivsText(divs), i);
    ConcatContainsPiece(pieces, 2);
    ContainsTrans(Concat(pieces), pieces[2], PaneDivText(divs[i]));
  }

  lemma PageContainsScript(env: Env, pieces: seq<string>, scripts: seq<Script>)
    requires |pieces| > 4 && pieces[4] == Concat(ScriptsText(env, scripts)) && |scripts| > 0
    ensures Contains(Concat(pieces), ScriptText(env, scripts[|scripts| - 1]))
  {
    ConcatContainsPiece(pieces, 4);
    ConcatContainsPiece(ScriptsText(env, scripts), |scripts| - 1);
    ContainsTrans(Concat(pieces), pieces[4], ScriptText(env, scripts[|scripts| - 1]));
  }

  lemma ScriptContainsChartJs(env: Env, blocks: seq<PaneBlock>, sync: seq<Subscription>)
    ensures Contains(ScriptText(env, ChartScript(blocks, sync)), ChartJsText(env, blocks, sync))
  {
    ConcatContainsPiece(["\n    <script>\n    ", ChartJsText(env, blocks, sync), "\n    </script>"], 1);
  }

  /** The chart script holds the `createChart` call of each of its blocks. */
  lemma ChartScriptContainsBlock(env: Env, blocks: seq<PaneBlock>, sync: seq<Subscription>, i: nat)
    requires i < |blocks|
    ensures Contains(ScriptText(env, ChartScript(blocks, sync)), CreateChartCall(blocks[i].chartVar))
  {
    var all := Join("\n\n    ", PaneBlocksText(env, blocks));
    var chartJs := ChartJsText(env, blocks, sync);
    var call := CreateChartCall(blocks[i].chartVar);
    if SyncText(sync) != "" {
      ConcatContainsPiece([all, SyncComment + SyncText(sync)], 0);
    } else {
      ConcatContainsPiece([all], 0);
    }
    JoinContainsPart("\n\n    ", PaneBlocksText(env, blocks), i);
    JoinContainsPart("\n    ", PaneBlockLines(env, blocks[i]), 0);
    ContainsTrans(all, PaneBlockText(env, blocks[i]), call);
    ContainsTrans(chartJs, all, call);
    ScriptContainsChartJs(env, blocks, sync);
    ContainsTrans(ScriptText(env, ChartScript(blocks, sync)), chartJs, call);
  }

  lemma NoDataPageFacts(containerId: string, width: int, height: int)
    ensures Contains(Concat(NoDataPieces(containerId, width, height)), NoDataNotice)
  {
    ConcatContainsPiece(NoDataPieces(containerId, width, height), 17);
  }

  /** With a generated chart id the fallback page carries no `<script>` tag. */
  lemma NoDataPageHasNoScript(id: string, width: int, height: int)
    ensures IsIdentifier(id) ==> !Contains(Concat(NoDataPieces("container_" + id, width, height)), "<script>")
  {
    if IsIdentifier(id) {
      var pieces := NoDataPieces("container_" + id, width, height);
      AttributesHaveNoAngle(id, width, height);
      NoDataPiecesOpenNoSTag("container_" + id, width, height);
      ConcatNoSTagOpen(pieces);
      NoSTagOpenHasNoScript(Concat(pieces));
    }
  }

  lemma AttributesHaveNoAngle(id: string, width: int, height: int)
    requires IsIdentifier(id)
    ensures '<' !in DivAttributes("container_" + id, width, height)
  {
    var containerId := "container_" + id;
    assert '<' !in id;
    assert '<' !in containerId;
    assert '<' !in IntToString(width) && '<' !in IntToString(height);
    var a := "div id=\"" + containerId;
    var b := a + "\" style=\"width: " + IntToString(width);
    var c := b + "px; height: " + IntToString(height);
    assert '<' !in a;
    assert '<' !in b;
    assert '<' !in c;
    assert DivAttributes(containerId, width, height) == c + "px;\"";
  }

  lemma NoDataPiecesOpenNoSTag(containerId: string, width: int, height: int)
    requires '<' !in DivAttributes(containerId, width, height)
    ensures forall p :: p in NoDataPieces(containerId, width, height) ==> NoSTagOpen(p)
  {
    OpenNoSTagOpen("!DOCTYPE html");
    OpenNoSTagOpen("html");
    OpenNoSTagOpen("head");
    OpenNoSTagOpen("title");
    OpenNoSTagOpen("/title");
    OpenNoSTagOpen("/head");
    OpenNoSTagOpen("body");
    OpenNoSTagOpen(DivAttributes(containerId, width, height));
    OpenNoSTagOpen("p");
    OpenNoSTagOpen("/p");
    OpenNoSTagOpen("/div");
    OpenNoSTagOpen("/body");
    OpenNoSTagOpen("/html");
    NoAngleNoSTagOpen("\n");
    NoAngleNoSTagOpen("\n    ");
    NoAngleNoSTagOpen("\n        ");
    NoAngleNoSTagOpen("Chart");
    NoAngleNoSTagOpen(NoDataNotice);
  }
}
