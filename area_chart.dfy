/** ERAreaChart.graph() (Sources/er/highcharts/components/chart/ERAreaChart.java):
    the area default, the shared series, and the bound overlay last. */
module AreaChart {
  import opened Wrappers
  import opened GraphPaths
  import opened Overlay
  import opened KVCAGraph
  import opened Records
  import opened OptionPaths
  import opened Component

  /** The area default on a new graph. */
  function AreaDefaults(): map<string, Value>
  {
    PutPath(map[], ChartType, Str("area"))
  }

  /** The graph before the overlay: no categories are written. */
  function AreaBase(b: Bindings): Result<map<string, Value>, Thrown>
  {
    ChartBase(AreaDefaults(), b, None)
  }

  /** The graph graph() returns, for the overlay keys taken in `order`. */
  function AreaOptions(b: Bindings, bound: Option<map<string, Value>>, order: seq<string>): Result<map<string, Value>, Thrown>
  {
    var m :- AreaBase(b);
    Success(ApplyBound(m, bound, order))
  }

  /** graph() fails exactly when series are bound and one of them fails. */
  lemma AreaFailsOnlyInSeries(b: Bindings, bound: Option<map<string, Value>>, order: seq<string>)
    ensures AreaOptions(b, bound, order).Failure? <==> b.series.Some? && SeriesList(b, b.series.value).Failure?
  {
    NewChartType("area");
    ChartBaseSpec(AreaDefaults(), b, None);
  }

  /** Overlay keys that do not pass through "chart" leave "chart.type" as
      "area". */
  lemma AreaTypeDefault(b: Bindings, bound: Option<map<string, Value>>, order: seq<string>)
    requires AreaBase(b).Success? && Enumerates(order, bound) && !TouchesHead(bound, "chart")
    ensures GetPath(AreaOptions(b, bound, order).value, ChartType) == Str("area")
  {
    KeysDotFree();
    NewChartType("area");
    TwoLevelSplits();
    DefaultSurvivesOverlay(AreaDefaults(), b, None, bound, order, ChartType);
    GetTwoLevel(AreaDefaults(), "chart", "type");
  }

  /** A top-level "chart" entry of the overlay, the only overlay key under
      "chart", replaces the default: "chart.type" reads what the overlay
      reads there. */
  lemma AreaChartReplaced(b: Bindings, supp: map<string, Value>, order: seq<string>)
    requires AreaBase(b).Success? && IsEnumeration(order, supp.Keys)
    requires "chart" in supp && forall j :: j in supp && j != "chart" ==> Head(j) != "chart"
    ensures var r := AreaOptions(b, Some(supp), order).value;
      && Lookup(r, "chart") == supp["chart"]
      && GetPath(r, ChartType) == GetPath(supp, ChartType)
  {
    var base := AreaBase(b).value;
    assert AreaOptions(b, Some(supp), order).value == ApplyBound(base, Some(supp), order);
    TwoLevelSplits();
    OverlayDecidesHead(base, supp, order, ChartType);
  }

  /** Unless the overlay passes through "series", "series" holds the built
      series list exactly when series are bound. */
  lemma AreaSeries(b: Bindings, bound: Option<map<string, Value>>, order: seq<string>)
    requires AreaBase(b).Success? && Enumerates(order, bound) && !TouchesHead(bound, "series")
    ensures var r := AreaOptions(b, bound, order).value;
      && ("series" in r <==> b.series.Some?)
      && (b.series.Some? ==> r["series"] == List(SeriesList(b, b.series.value).value))
  {
    NewChartType("area");
    ChartBaseSpec(AreaDefaults(), b, None);
    ApplyBoundKeeps(AreaBase(b).value, bound, order, "series");
  }

  /** The categories binding is never read: the graph has no "xAxis" unless
      the overlay supplies one. */
  lemma AreaNoCategories(b: Bindings, bound: Option<map<string, Value>>, order: seq<string>)
    requires AreaBase(b).Success? && Enumerates(order, bound) && !TouchesHead(bound, "xAxis")
    ensures "xAxis" !in AreaOptions(b, bound, order).value
  {
    NewChartType("area");
    ChartBaseSpec(AreaDefaults(), b, None);
    ApplyBoundKeeps(AreaBase(b).value, bound, order, "xAxis");
  }

  /** ERAreaChart.graph(): a new graph on every call. */
  method AreaGraph(b: Bindings, bound: KVCAExtensionGraph?) returns (r: Result<KVCAExtensionGraph, Thrown>, ghost order: seq<string>)
    ensures AreaBase(b).Failure? ==> r == Failure(AreaBase(b).error) && AreaOptions(b, BoundNodes(bound), order).Failure?
    ensures AreaBase(b).Success? ==>
      && Enumerates(order, BoundNodes(bound))
      && r.Success? && fresh(r.value)
      && r.value.nodes == AreaOptions(b, BoundNodes(bound), order).value
  {
    KeysDotFree();
    var graph := new KVCAExtensionGraph();
    graph.TakeValueForKeyPath(Str("area"), Some(ChartType));
    var thrown := BuildSeries(graph, b);
    if thrown.Some? {
      return Failure(thrown.value), [];
    }
    order := graph.Apply(bound);
    return Success(graph), order;
  }
}
