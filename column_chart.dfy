/** ERColumnChart.graph()
    (Sources/er/highcharts/components/chart/ERColumnChart.java): the column
    default, the shared series, the categories, and the bound overlay last,
    with no default written again after it. */
module ColumnChart {
  import opened Wrappers
  import opened GraphPaths
  import opened Overlay
  import opened KVCAGraph
  import opened Records
  import opened OptionPaths
  import opened Component

  /** The column default on a new graph. */
  function ColumnDefaults(): map<string, Value>
  {
    PutPath(map[], ChartType, Str("column"))
  }

  /** The graph before the overlay. */
  function ColumnBase(b: Bindings): Result<map<string, Value>, Thrown>
  {
    ChartBase(ColumnDefaults(), b, b.categories)
  }

  /** The graph graph() returns, for the overlay keys taken in `order`. */
  function ColumnOptions(b: Bindings, bound: Option<map<string, Value>>, order: seq<string>): Result<map<string, Value>, Thrown>
  {
    var m :- ColumnBase(b);
    Success(ApplyBound(m, bound, order))
  }

  /** graph() fails exactly when series are bound and one of them fails. */
  lemma ColumnFailsOnlyInSeries(b: Bindings, bound: Option<map<string, Value>>, order: seq<string>)
    ensures ColumnOptions(b, bound, order).Failure? <==> b.series.Some? && SeriesList(b, b.series.value).Failure?
  {
    NewChartType("column");
    ChartBaseSpec(ColumnDefaults(), b, b.categories);
  }

  /** An overlay with no key under "chart" leaves "chart.type" as "column". */
  lemma ColumnTypeDefault(b: Bindings, bound: Option<map<string, Value>>, order: seq<string>)
    requires ColumnBase(b).Success? && Enumerates(order, bound) && !TouchesHead(bound, "chart")
    ensures GetPath(ColumnOptions(b, bound, order).value, ChartType) == Str("column")
  {
    KeysDotFree();
    NewChartType("column");
    TwoLevelSplits();
    DefaultSurvivesOverlay(ColumnDefaults(), b, b.categories, bound, order, ChartType);
    GetTwoLevel(ColumnDefaults(), "chart", "type");
  }

  /** A top-level "chart" entry of the overlay, the only overlay key under
      "chart", replaces the default wholesale: "chart.type" reads what the
      overlay reads there, null when its "chart" graph has no type. */
  lemma ColumnChartReplaced(b: Bindings, supp: map<string, Value>, order: seq<string>)
    requires ColumnBase(b).Success? && IsEnumeration(order, supp.Keys)
    requires "chart" in supp && forall j :: j in supp && j != "chart" ==> Head(j) != "chart"
    ensures var r := ColumnOptions(b, Some(supp), order).value;
      && Lookup(r, "chart") == supp["chart"]
      && GetPath(r, ChartType) == GetPath(supp, ChartType)
      && (supp["chart"].Graph? && "type" !in supp["chart"].nodes ==> GetPath(r, ChartType) == Null)
  {
    KeysDotFree();
    var base := ColumnBase(b).value;
    assert ColumnOptions(b, Some(supp), order).value == ApplyBound(base, Some(supp), order);
    TwoLevelSplits();
    OverlayDecidesHead(base, supp, order, ChartType);
    GetTwoLevel(supp, "chart", "type");
  }

  /** An overlay whose "chart.type" names another type makes that the type. */
  lemma ColumnOverlayTypeWins(b: Bindings, t: string, order: seq<string>)
    requires ColumnBase(b).Success?
    requires IsEnumeration(order, PutPath(map[], ChartType, Str(t)).Keys)
    ensures GetPath(ColumnOptions(b, Some(PutPath(map[], ChartType, Str(t))), order).value, ChartType) == Str(t)
  {
    KeysDotFree();
    var supp := PutPath(map[], ChartType, Str(t));
    NewChartType(t);
    ColumnChartReplaced(b, supp, order);
    TwoLevelSplits();
    GetTwoLevel(supp, "chart", "type");
  }

  /** Unless the overlay passes through "xAxis", "xAxis.categories" holds the
      bound categories, and with categories unbound there is no "xAxis". */
  lemma ColumnCategories(b: Bindings, bound: Option<map<string, Value>>, order: seq<string>)
    requires ColumnBase(b).Success? && Enumerates(order, bound) && !TouchesHead(bound, "xAxis")
    ensures var r := ColumnOptions(b, bound, order).value;
      && (b.categories.Some? ==> GetPath(r, XAxisCategories) == List(b.categories.value))
      && (b.categories.None? ==> "xAxis" !in r)
  {
    KeysDotFree();
    NewChartType("column");
    ChartBaseSpec(ColumnDefaults(), b, b.categories);
    ApplyBoundKeeps(ColumnBase(b).value, bound, order, "xAxis");
    TwoLevelSplits();
    GetTwoLevel(ColumnOptions(b, bound, order).value, "xAxis", "categories");
  }

  /** Unless the overlay passes through "series", "series" holds the built
      series list exactly when series are bound. */
  lemma ColumnSeries(b: Bindings, bound: Option<map<string, Value>>, order: seq<string>)
    requires ColumnBase(b).Success? && Enumerates(order, bound) && !TouchesHead(bound, "series")
    ensures var r := ColumnOptions(b, bound, order).value;
      && ("series" in r <==> b.series.Some?)
      && (b.series.Some? ==> r["series"] == List(SeriesList(b, b.series.value).value))
  {
    NewChartType("column");
    ChartBaseSpec(ColumnDefaults(), b, b.categories);
    ApplyBoundKeeps(ColumnBase(b).value, bound, order, "series");
  }

  /** ERColumnChart.graph(): a new graph on every call. */
  method ColumnGraph(b: Bindings, bound: KVCAExtensionGraph?) returns (r: Result<KVCAExtensionGraph, Thrown>, ghost order: seq<string>)
    ensures ColumnBase(b).Failure? ==> r == Failure(ColumnBase(b).error) && ColumnOptions(b, BoundNodes(bound), order).Failure?
    ensures ColumnBase(b).Success? ==>
      && Enumerates(order, BoundNodes(bound))
      && r.Success? && fresh(r.value)
      && r.value.nodes == ColumnOptions(b, BoundNodes(bound), order).value
  {
    KeysDotFree();
    var graph := new KVCAExtensionGraph();
    graph.TakeValueForKeyPath(Str("column"), Some(ChartType));
    var thrown := BuildSeries(graph, b);
    if thrown.Some? {
      return Failure(thrown.value), [];
    }
    TakeCategories(graph, b.categories);
    order := graph.Apply(bound);
    return Success(graph), order;
  }
}
