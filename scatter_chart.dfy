/** ERScatterChart.graph()
    (Sources/er/highcharts/components/chart/ERScatterChart.java): the scatter
    type and the "xy" zoom defaults, the shared series, and the bound overlay
    last. */
module ScatterChart {
  import opened Wrappers
  import opened GraphPaths
  import opened Overlay
  import opened KVCAGraph
  import opened Records
  import opened OptionPaths
  import opened Component

  /** The scatter defaults: one "chart" graph holding the type and the
      zoom type. */
  function ScatterDefaults(): map<string, Value>
  {
    map["chart" := Graph(map["type" := Str("scatter"), "zoomType" := Str("xy")])]
  }

  /** The two default writes on a new graph land in one "chart" graph that
      holds nothing else. */
  lemma ScatterDefaultsSpec()
    ensures PutPath(PutPath(map[], ChartType, Str("scatter")), ChartZoomType, Str("xy")) == ScatterDefaults()
  {
    KeysDotFree();
    NewChartType("scatter");
    var m := PutPath(map[], ChartType, Str("scatter"));
    PutTwoLevel(m, "chart", "zoomType", Str("xy"));
  }

  /** The graph before the overlay: no categories are written. */
  function ScatterBase(b: Bindings): Result<map<string, Value>, Thrown>
  {
    ChartBase(ScatterDefaults(), b, None)
  }

  /** The graph graph() returns, for the overlay keys taken in `order`. */
  function ScatterOptions(b: Bindings, bound: Option<map<string, Value>>, order: seq<string>): Result<map<string, Value>, Thrown>
  {
    var m :- ScatterBase(b);
    Success(ApplyBound(m, bound, order))
  }

  /** graph() fails exactly when series are bound and one of them fails. */
  lemma ScatterFailsOnlyInSeries(b: Bindings, bound: Option<map<string, Value>>, order: seq<string>)
    ensures ScatterOptions(b, bound, order).Failure? <==> b.series.Some? && SeriesList(b, b.series.value).Failure?
  {
    ChartBaseSpec(ScatterDefaults(), b, None);
  }

  /** Overlay keys that do not pass through "chart" leave both defaults. */
  lemma ScatterDefaultsSurvive(b: Bindings, bound: Option<map<string, Value>>, order: seq<string>)
    requires ScatterBase(b).Success? && Enumerates(order, bound) && !TouchesHead(bound, "chart")
    ensures GetPath(ScatterOptions(b, bound, order).value, ChartType) == Str("scatter")
    ensures GetPath(ScatterOptions(b, bound, order).value, ChartZoomType) == Str("xy")
  {
    var d := ScatterDefaults();
    ScatterDefaultsRead();
    assert Head(ChartType) == "chart" && Head(ChartZoomType) == "chart" by {
      TwoLevelSplits();
    }
    DefaultSurvivesOverlay(d, b, None, bound, order, ChartType);
    DefaultSurvivesOverlay(d, b, None, bound, order, ChartZoomType);
  }

  /** The defaults read back as written, and hold neither series nor axis. */
  lemma ScatterDefaultsRead()
    ensures GetPath(ScatterDefaults(), ChartType) == Str("scatter")
    ensures GetPath(ScatterDefaults(), ChartZoomType) == Str("xy")
    ensures "series" !in ScatterDefaults() && "xAxis" !in ScatterDefaults()
  {
    KeysDotFree();
    var chart := map["type" := Str("scatter"), "zoomType" := Str("xy")];
    var d := map["chart" := Graph(chart)];
    GetTwoLevel(d, "chart", "type");
    GetTwoLevel(d, "chart", "zoomType");
    assert Lookup(chart, "type") == Str("scatter") && Lookup(chart, "zoomType") == Str("xy");
  }

  /** A top-level "chart" entry of the overlay, the only overlay key under
      "chart", replaces both defaults: type and zoom read what the overlay
      reads there. */
  lemma ScatterChartReplaced(b: Bindings, supp: map<string, Value>, order: seq<string>)
    requires ScatterBase(b).Success? && IsEnumeration(order, supp.Keys)
    requires "chart" in supp && forall j :: j in supp && j != "chart" ==> Head(j) != "chart"
    ensures var r := ScatterOptions(b, Some(supp), order).value;
      && Lookup(r, "chart") == supp["chart"]
      && GetPath(r, ChartType) == GetPath(supp, ChartType)
      && GetPath(r, ChartZoomType) == GetPath(supp, ChartZoomType)
  {
    var base := ScatterBase(b).value;
    assert ScatterOptions(b, Some(supp), order).value == ApplyBound(base, Some(supp), order);
    TwoLevelSplits();
    OverlayDecidesHead(base, supp, order, ChartType);
    OverlayDecidesHead(base, supp, order, ChartZoomType);
  }

  /** Unless the overlay passes through "series", "series" holds the built
      series list exactly when series are bound. */
  lemma ScatterSeries(b: Bindings, bound: Option<map<string, Value>>, order: seq<string>)
    requires ScatterBase(b).Success? && Enumerates(order, bound) && !TouchesHead(bound, "series")
    ensures var r := ScatterOptions(b, bound, order).value;
      && ("series" in r <==> b.series.Some?)
      && (b.series.Some? ==> r["series"] == List(SeriesList(b, b.series.value).value))
  {
    ChartBaseSpec(ScatterDefaults(), b, None);
    ApplyBoundKeeps(ScatterBase(b).value, bound, order, "series");
  }

  /** No "xAxis.categories" is written: the graph has no "xAxis" unless the
      overlay supplies one. */
  lemma ScatterNoCategories(b: Bindings, bound: Option<map<string, Value>>, order: seq<string>)
    requires ScatterBase(b).Success? && Enumerates(order, bound) && !TouchesHead(bound, "xAxis")
    ensures "xAxis" !in ScatterOptions(b, bound, order).value
  {
    ChartBaseSpec(ScatterDefaults(), b, None);
    ApplyBoundKeeps(ScatterBase(b).value, bound, order, "xAxis");
  }

  /** ERScatterChart.graph(). */
  method ScatterGraph(b: Bindings, bound: KVCAExtensionGraph?) returns (r: Result<KVCAExtensionGraph, Thrown>, ghost order: seq<string>)
    ensures ScatterBase(b).Failure? ==> r == Failure(ScatterBase(b).error) && ScatterOptions(b, BoundNodes(bound), order).Failure?
    ensures ScatterBase(b).Success? ==>
      && Enumerates(order, BoundNodes(bound))
      && r.Success? && fresh(r.value)
      && r.value.nodes == ScatterOptions(b, BoundNodes(bound), order).value
  {
    KeysDotFree();
    var graph := new KVCAExtensionGraph();
    graph.TakeValueForKeyPath(Str("scatter"), Some(ChartType));
    graph.TakeValueForKeyPath(Str("xy"), Some(ChartZoomType));
    ScatterDefaultsSpec();
    var thrown := BuildSeries(graph, b);
    if thrown.Some? {
      return Failure(thrown.value), [];
    }
    order := graph.Apply(bound);
    return Success(graph), order;
  }
}
