/** The in-memory chart the renderer reads: a chart owns panes, a pane owns
    series, and a series carries its data, markers, price lines and
    rectangles. Every collection keeps the caller's order. */
module ChartModel {
  import opened Json

  /** The closed set of series kinds; `KindName` is the tag the engine's
      `LightweightCharts.<Kind>Series` constructor is chosen by. */
  datatype SeriesKind = Candlestick | Line | Area | Bar | Histogram | Baseline

  function KindName(k: SeriesKind): string {
    match k
    case Candlestick => "Candlestick"
    case Line => "Line"
    case Area => "Area"
    case Bar => "Bar"
    case Histogram => "Histogram"
    case Baseline => "Baseline"
  }

  /** A time/price box drawn by the rectangle plugin. */
  datatype Rectangle = Rectangle(startTime: int, endTime: int, startPrice: real, endPrice: real, color: string)

  /** A series: `markers` is the flattened view over all of its marker groups,
      each marker a dictionary that may carry a `tooltip` entry. */
  datatype Series = Series(
    id: string,
    kind: SeriesKind,
    options: Object,
    data: seq<Value>,
    markers: seq<Object>,
    priceLines: seq<Object>,
    rectangles: seq<Rectangle>)

  /** A pane's share of the chart height is a positive weight. */
  type Ratio = r: real | r > 0.0 witness 1.0

  datatype Pane = Pane(id: string, ratio: Ratio, series: seq<Series>)

  datatype Chart = Chart(id: string, width: int, height: int, options: Object, panes: seq<Pane>)

  /** Identifiers the library generates: letters, digits, `_` and `-`. */
  predicate IsIdentifier(s: string) {
    forall i :: 0 <= i < |s| ==> IsIdentChar(s[i])
  }

  predicate IsIdentChar(c: char) {
    'a' <= c <= 'z' || 'A' <= c <= 'Z' || '0' <= c <= '9' || c == '_' || c == '-'
  }

  /** Some series in some pane carries at least one rectangle. */
  predicate HasRectangles(panes: seq<Pane>) {
    exists p, s :: 0 <= p < |panes| && 0 <= s < |panes[p].series| && |panes[p].series[s].rectangles| > 0
  }

  /** The code the renderer calls but does not own: `json.dumps`, the bundled
      engine library text, and the rectangle and marker-tooltip plugins. Each
      is an arbitrary fixed function, so the model holds for every choice. */
  datatype Env = Env(
    dumps: Value -> string,
    lwcJs: string,
    rectanglePrimitiveJs: string,
    extractRectangles: Series -> seq<Value>,
    renderRectangleJs: (string, string, seq<Value>) -> string,
    extractMarkerTooltips: Pane -> Object,
    renderTooltipJs: (string, string, Object) -> string)
}
