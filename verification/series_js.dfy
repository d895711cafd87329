/** The statements emitted for one series (`_renderSeriesJs`) and the
    tooltip stripping applied to its markers first
    (`_stripTooltipFromMarkers`).

    The statements are built as values of `SeriesStmt`, whose order and
    multiplicity are the promises of the source; `StmtText` then writes each
    one as the source's f-string does. */
module SeriesJs {
  import opened Json
  import opened Text
  import opened ChartModel

  const TooltipKey: string := "tooltip"

  /** `a` is `b` with some pairs left out, the rest in their original order. */
  predicate IsSubsequence<T(==)>(a: seq<T>, b: seq<T>) {
    if |a| == 0 then true
    else if |b| == 0 then false
    else if a[0] == b[0] then IsSubsequence(a[1..], b[1..])
    else IsSubsequence(a, b[1..])
  }

  /** `{k: v for k, v in m.items() if k != key}`. */
  function WithoutKey(m: Object, key: string): (r: Object)
    ensures forall p :: p in r <==> p in m && p.0 != key
    ensures !HasKey(r, key)
    ensures forall k :: k != key ==> Lookup(r, k) == Lookup(m, k)
    ensures IsSubsequence(r, m)
    ensures UniqueKeys(m) ==> UniqueKeys(r)
  {
    if |m| == 0 then []
    else
      var rest := WithoutKey(m[1..], key);
      if m[0].0 == key then
        SubsequenceOfTail(rest, m);
        rest
      else
        assert ([m[0]] + rest)[1..] == rest;
        assert UniqueKeys(m) ==> forall p :: p in m[1..] ==> p.0 != m[0].0;
        [m[0]] + rest
  }

  lemma {:induction false} SubsequenceOfTail<T>(a: seq<T>, b: seq<T>)
    requires |b| > 0 && IsSubsequence(a, b[1..])
    ensures IsSubsequence(a, b)
    decreases |b|, 0
  {
    if |a| > 0 && a[0] == b[0] {
      SubsequenceDropHead(a, b[1..]);
    }
  }

  lemma {:induction false} SubsequenceDropHead<T>(a: seq<T>, c: seq<T>)
    requires |a| > 0 && IsSubsequence(a, c)
    ensures IsSubsequence(a[1..], c)
    decreases |c|, 1
  {
    if a[0] == c[0] {
      SubsequenceOfTail(a[1..], c);
    } else {
      SubsequenceDropHead(a, c[1..]);
      SubsequenceOfTail(a[1..], c);
    }
  }

  /** Removing a key that is not there changes nothing. */
  lemma {:induction false} WithoutAbsentKey(m: Object, key: string)
    requires !HasKey(m, key)
    ensures WithoutKey(m, key) == m
  {
    if |m| > 0 {
      assert m[0].0 != key;
      assert !HasKey(m[1..], key);
      WithoutAbsentKey(m[1..], key);
    }
  }

  /** `_stripTooltipFromMarkers`: the same markers in the same order, each
      without its `tooltip` entry and with every other entry kept in place. */
  function StripTooltipFromMarkers(markers: seq<Object>): (r: seq<Object>)
    ensures |r| == |markers|
    ensures forall i :: 0 <= i < |r| ==> !HasKey(r[i], TooltipKey)
    ensures forall i, k :: 0 <= i < |r| && k != TooltipKey ==> Lookup(r[i], k) == Lookup(markers[i], k)
    ensures forall i :: 0 <= i < |r| ==> IsSubsequence(r[i], markers[i])
    ensures forall i :: 0 <= i < |r| && UniqueKeys(markers[i]) ==> UniqueKeys(r[i])
  {
    seq(|markers|, i requires 0 <= i < |markers| => WithoutKey(markers[i], TooltipKey))
  }

  /** Stripping twice is stripping once. */
  lemma StripTooltipIdempotent(markers: seq<Object>)
    ensures StripTooltipFromMarkers(StripTooltipFromMarkers(markers)) == StripTooltipFromMarkers(markers)
  {
    var once := StripTooltipFromMarkers(markers);
    forall i | 0 <= i < |once| ensures WithoutKey(once[i], TooltipKey) == once[i] {
      WithoutAbsentKey(once[i], TooltipKey);
    }
  }

  /** One emitted statement of a series, named by its JavaScript call. */
  datatype SeriesStmt =
    | AddSeries(seriesVar: string, chartVar: string, kind: SeriesKind, options: Object)
    | SetData(seriesVar: string, data: seq<Value>)
    | CreateMarkers(seriesVar: string, markers: seq<Object>)
    | CreatePriceLine(seriesVar: string, priceLine: Object)

  /** The price lines the statements create, in emission order. */
  function PriceLinesOf(stmts: seq<SeriesStmt>): seq<Object> {
    if |stmts| == 0 then []
    else (if stmts[0].CreatePriceLine? then [stmts[0].priceLine] else []) + PriceLinesOf(stmts[1..])
  }

  /** How many marker calls the statements make. */
  function MarkerCalls(stmts: seq<SeriesStmt>): nat {
    if |stmts| == 0 then 0
    else (if stmts[0].CreateMarkers? then 1 else 0) + MarkerCalls(stmts[1..])
  }

  lemma {:induction false} PriceLinesOfAppend(a: seq<SeriesStmt>, b: seq<SeriesStmt>)
    ensures PriceLinesOf(a + b) == PriceLinesOf(a) + PriceLinesOf(b)
    ensures MarkerCalls(a + b) == MarkerCalls(a) + MarkerCalls(b)
  {
    if |a| == 0 {
      assert a + b == b;
    } else {
      assert (a + b)[1..] == a[1..] + b;
      PriceLinesOfAppend(a[1..], b);
    }
  }

  function PriceLineStmts(seriesVar: string, priceLines: seq<Object>): (r: seq<SeriesStmt>)
    ensures |r| == |priceLines|
    ensures forall k :: 0 <= k < |r| ==> r[k] == CreatePriceLine(seriesVar, priceLines[k])
    ensures PriceLinesOf(r) == priceLines
    ensures MarkerCalls(r) == 0
  {
    if |priceLines| == 0 then []
    else
      var rest := PriceLineStmts(seriesVar, priceLines[1..]);
      assert ([CreatePriceLine(seriesVar, priceLines[0])] + rest)[1..] == rest;
      [CreatePriceLine(seriesVar, priceLines[0])] + rest
  }

  /** `_renderSeriesJs` as statements: `addSeries`, then `setData`, then one
      `createSeriesMarkers` with the tooltip-free markers only when there are
      markers, then one `createPriceLine` per price line in list order. */
  function SeriesStmts(s: Series, chartVar: string): (r: seq<SeriesStmt>)
    ensures |r| == 2 + (if |s.markers| > 0 then 1 else 0) + |s.priceLines|
    ensures r[0] == AddSeries(s.id, chartVar, s.kind, s.options)
    ensures r[1] == SetData(s.id, s.data)
    ensures forall i :: 0 <= i < |r| ==> r[i].seriesVar == s.id
    ensures MarkerCalls(r) == if |s.markers| > 0 then 1 else 0
    ensures |s.markers| > 0 ==> r[2] == CreateMarkers(s.id, StripTooltipFromMarkers(s.markers))
    ensures forall i :: 0 <= i < |r| && r[i].CreateMarkers? ==> i == 2
    ensures PriceLinesOf(r) == s.priceLines
    ensures forall k :: 0 <= k < |s.priceLines| ==>
      r[2 + (if |s.markers| > 0 then 1 else 0) + k] == CreatePriceLine(s.id, s.priceLines[k])
  {
    var head := [AddSeries(s.id, chartVar, s.kind, s.options), SetData(s.id, s.data)];
    var markers := if |s.markers| > 0 then [CreateMarkers(s.id, StripTooltipFromMarkers(s.markers))] else [];
    var priceLines := PriceLineStmts(s.id, s.priceLines);
    StmtsCounts(head, markers, priceLines);
    StmtsPlacement(head, markers, priceLines, s.id);
    head + markers + priceLines
  }

  /** The series' statements make as many marker calls as the marker part
      holds and create exactly the price lines of the price-line part. */
  lemma StmtsCounts(head: seq<SeriesStmt>, markers: seq<SeriesStmt>, priceLines: seq<SeriesStmt>)
    requires |head| == 2 && !head[0].CreateMarkers? && !head[0].CreatePriceLine?
    requires !head[1].CreateMarkers? && !head[1].CreatePriceLine?
    requires |markers| <= 1 && forall i :: 0 <= i < |markers| ==> markers[i].CreateMarkers?
    requires MarkerCalls(priceLines) == 0
    ensures MarkerCalls(head + markers + priceLines) == |markers|
    ensures PriceLinesOf(head + markers + priceLines) == PriceLinesOf(priceLines)
  {
    PriceLinesOfAppend(head, markers);
    PriceLinesOfAppend(head + markers, priceLines);
    assert PriceLinesOf(head) == [] && MarkerCalls(head) == 0 by {
      assert head[1..][1..] == [];
    }
    assert PriceLinesOf(markers) == [] && MarkerCalls(markers) == |markers| by {
      if |markers| > 0 {
        assert markers[1..] == [];
      }
    }
  }

  /** Every statement is on the series variable, and a marker call can only
      sit right after the two leading statements. */
  lemma StmtsPlacement(head: seq<SeriesStmt>, markers: seq<SeriesStmt>, priceLines: seq<SeriesStmt>, seriesVar: string)
    requires |head| == 2 && !head[0].CreateMarkers? && !head[1].CreateMarkers?
    requires |markers| <= 1
    requires forall i :: 0 <= i < |priceLines| ==> priceLines[i].CreatePriceLine?
    requires forall i :: 0 <= i < |head| ==> head[i].seriesVar == seriesVar
    requires forall i :: 0 <= i < |markers| ==> markers[i].seriesVar == seriesVar
    requires forall i :: 0 <= i < |priceLines| ==> priceLines[i].seriesVar == seriesVar
    ensures forall i :: 0 <= i < |head + markers + priceLines| ==> (head + markers + priceLines)[i].seriesVar == seriesVar
    ensures forall i :: 0 <= i < |head + markers + priceLines| && (head + markers + priceLines)[i].CreateMarkers? ==> i == 2
  {
  }

  function ObjectValues(objects: seq<Object>): (r: seq<Value>)
    ensures |r| == |objects|
  {
    seq(|objects|, i requires 0 <= i < |objects| => JObj(objects[i]))
  }

  /** One statement as the source writes it, with `json.dumps` as `dumps`. */
  function StmtText(dumps: Value -> string, st: SeriesStmt): string {
    match st
    case AddSeries(sv, cv, kind, options) =>
      "const " + sv + " = " + cv + ".addSeries(LightweightCharts." + KindName(kind) + "Series, " + dumps(JObj(options)) + ");"
    case SetData(sv, data) =>
      sv + ".setData(" + dumps(JArr(data)) + ");"
    case CreateMarkers(sv, markers) =>
      "LightweightCharts.createSeriesMarkers(" + sv + ", " + dumps(JArr(ObjectValues(markers))) + ");"
    case CreatePriceLine(sv, priceLine) =>
      sv + ".createPriceLine(" + dumps(JObj(priceLine)) + ");"
  }

  function StmtsText(dumps: Value -> string, stmts: seq<SeriesStmt>): (r: seq<string>)
    ensures |r| == |stmts|
    ensures forall i :: 0 <= i < |r| ==> r[i] == StmtText(dumps, stmts[i])
  {
    seq(|stmts|, i requires 0 <= i < |stmts| => StmtText(dumps, stmts[i]))
  }

  /** `_renderSeriesJs(series, chartVar)`: the statements, one per line,
      opening with the `addSeries` call. */
  function RenderSeriesJs(dumps: Value -> string, s: Series, chartVar: string): (r: string)
    ensures StmtText(dumps, AddSeries(s.id, chartVar, s.kind, s.options)) <= r
  {
    Join("\n    ", StmtsText(dumps, SeriesStmts(s, chartVar)))
  }

  /** The series code creates every one of its price lines. */
  lemma RenderedSeriesHasEveryPriceLine(dumps: Value -> string, s: Series, chartVar: string, k: nat)
    requires k < |s.priceLines|
    ensures Contains(RenderSeriesJs(dumps, s, chartVar), s.id + ".createPriceLine(" + dumps(JObj(s.priceLines[k])) + ");")
  {
    var stmts := SeriesStmts(s, chartVar);
    var j := 2 + (if |s.markers| > 0 then 1 else 0) + k;
    JoinContainsPart("\n    ", StmtsText(dumps, stmts), j);
  }

  /** A series with markers hands the engine its tooltip-free markers. */
  lemma RenderedSeriesHasMarkers(dumps: Value -> string, s: Series, chartVar: string)
    requires |s.markers| > 0
    ensures Contains(RenderSeriesJs(dumps, s, chartVar),
                     "LightweightCharts.createSeriesMarkers(" + s.id + ", " + dumps(JArr(ObjectValues(StripTooltipFromMarkers(s.markers)))) + ");")
  {
    var stmts := SeriesStmts(s, chartVar);
    JoinContainsPart("\n    ", StmtsText(dumps, stmts), 2);
  }
}
