/** ERBarChart.graph() (Sources/er/highcharts/components/chart/ERBarChart.java):
    the bar default, the shared series, the categories, the bound overlay,
    and then the bar type written once more. */
module BarChart {
  import opened Wrappers
  import opened GraphPaths
  import opened Overlay
  import opened KVCAGraph
  import opened Records
  import opened OptionPaths
  import opened Component

  /** The bar default on a new graph. */
  function BarDefaults(): map<string, Value>
  {
    PutPath(map[], ChartType, Str("bar"))
  }

  /** The graph before the overlay. */
  function BarBase(b: Bindings): Result<map<string, Value>, Thrown>
  {
    ChartBase(BarDefaults(), b, b.categories)
  }

  /** The graph after the overlay, before the final type write. */
  function BarOverlaid(b: Bindings, bound: Option<map<string, Value>>, order: seq<string>): map<string, Value>
    requires BarBase(b).Success?
  {
    ApplyBound(BarBase(b).value, bound, order)
  }

  /** The graph graph() returns, for the overlay keys taken in `order`. */
  function BarOptions(b: Bindings, bound: Option<map<string, Value>>, order: seq<string>): Result<map<string, Value>, Thrown>
  {
    var m :- BarBase(b);
    Success(PutPath(ApplyBound(m, bound, order), ChartType, Str("bar")))
  }

  /** The base keeps the "chart" default and fails exactly as the series do. */
  lemma BarBaseSpec(b: Bindings)
    ensures BarBase(b).Failure? <==> b.series.Some? && SeriesList(b, b.series.value).Failure?
    ensures BarBase(b).Success? ==> Lookup(BarBase(b).value, "chart") == Graph(map["type" := Str("bar")])
  {
    NewChartType("bar");
    ChartBaseSpec(BarDefaults(), b, b.categories);
  }

  /** graph() fails exactly when series are bound and one of them fails. */
  lemma BarFailsOnlyInSeries(b: Bindings, bound: Option<map<string, Value>>, order: seq<string>)
    ensures BarOptions(b, bound, order).Failure? <==> b.series.Some? && SeriesList(b, b.series.value).Failure?
  {
    BarBaseSpec(b);
  }

  /** The final write forces the type: "chart.type" reads "bar" exactly when
      the overlaid "chart" entry is absent, null or a graph, and no entry
      other than "chart" is changed by it. */
  lemma BarTypeForced(b: Bindings, bound: Option<map<string, Value>>, order: seq<string>)
    requires BarBase(b).Success?
    ensures var a := BarOverlaid(b, bound, order);
      var r := BarOptions(b, bound, order).value;
      && (GetPath(r, ChartType) == Str("bar") <==> Lookup(a, "chart").Null? || Lookup(a, "chart").Graph?)
      && (forall k :: k != "chart" ==> (k in r <==> k in a) && Lookup(r, k) == Lookup(a, k))
  {
    var a := BarOverlaid(b, bound, order);
    assert BarOptions(b, bound, order).value == PutPath(a, ChartType, Str("bar"));
    ChartTypeWrite(a, "bar");
  }

  /** An overlay whose "chart.type" asks for another type, through a "chart"
      graph of its own, still ends with a bar chart. */
  lemma BarOverlayTypeIgnored(b: Bindings, t: string, order: seq<string>)
    requires BarBase(b).Success?
    requires IsEnumeration(order, PutPath(map[], ChartType, Str(t)).Keys)
    ensures GetPath(BarOptions(b, Some(PutPath(map[], ChartType, Str(t))), order).value, ChartType) == Str("bar")
  {
    var supp := PutPath(map[], ChartType, Str(t));
    NewChartType(t);
    ApplyBoundReplaces(BarBase(b).value, supp, order, "chart");
    BarTypeForced(b, Some(supp), order);
  }

  /** An overlay that leaves no graph at "chart" (a string, say) makes the
      final write lost: "chart.type" then reads null. */
  lemma BarTypeLostUnderLeaf(b: Bindings, supp: map<string, Value>, order: seq<string>)
    requires BarBase(b).Success? && IsEnumeration(order, supp.Keys)
    requires "chart" in supp && !supp["chart"].Null? && !supp["chart"].Graph?
    requires forall j :: j in supp && j != "chart" ==> Head(j) != "chart"
    ensures GetPath(BarOptions(b, Some(supp), order).value, ChartType) == Null
  {
    KeysDotFree();
    ApplyBoundReplaces(BarBase(b).value, supp, order, "chart");
    BarTypeForced(b, Some(supp), order);
    TwoLevelSplits();
    GetTwoLevel(BarOptions(b, Some(supp), order).value, "chart", "type");
  }

  /** Unless the overlay passes through "xAxis", "xAxis.categories" holds the
      bound categories, and with categories unbound there is no "xAxis". */
  lemma BarCategories(b: Bindings, bound: Option<map<string, Value>>, order: seq<string>)
    requires BarBase(b).Success? && Enumerates(order, bound) && !TouchesHead(bound, "xAxis")
    ensures var r := BarOptions(b, bound, order).value;
      && (b.categories.Some? ==> GetPath(r, XAxisCategories) == List(b.categories.value))
      && (b.categories.None? ==> "xAxis" !in r)
  {
    KeysDotFree();
    NewChartType("bar");
    ChartBaseSpec(BarDefaults(), b, b.categories);
    ApplyBoundKeeps(BarBase(b).value, bound, order, "xAxis");
    BarTypeForced(b, bound, order);
    TwoLevelSplits();
    GetTwoLevel(BarOptions(b, bound, order).value, "xAxis", "categories");
  }

  /** Unless the overlay passes through "series", "series" holds the built
      series list exactly when series are bound. */
  lemma BarSeries(b: Bindings, bound: Option<map<string, Value>>, order: seq<string>)
    requires BarBase(b).Success? && Enumerates(order, bound) && !TouchesHead(bound, "series")
    ensures var r := BarOptions(b, bound, order).value;
      && ("series" in r <==> b.series.Some?)
      && (b.series.Some? ==> r["series"] == List(SeriesList(b, b.series.value).value))
  {
    NewChartType("bar");
    ChartBaseSpec(BarDefaults(), b, b.categories);
    ApplyBoundKeeps(BarBase(b).value, bound, order, "series");
    BarTypeForced(b, bound, order);
  }

  /** ERBarChart.graph(). */
  method BarGraph(b: Bindings, bound: KVCAExtensionGraph?) returns (r: Result<KVCAExtensionGraph, Thrown>, ghost order: seq<string>)
    ensures BarBase(b).Failure? ==> r == Failure(BarBase(b).error) && BarOptions(b, BoundNodes(bound), order).Failure?
    ensures BarBase(b).Success? ==>
      && Enumerates(order, BoundNodes(bound))
      && r.Success? && fresh(r.value)
      && r.value.nodes == BarOptions(b, BoundNodes(bound), order).value
  {
    KeysDotFree();
    var graph := new KVCAExtensionGraph();
    graph.TakeValueForKeyPath(Str("bar"), Some(ChartType));
    var thrown := BuildSeries(graph, b);
    if thrown.Some? {
      return Failure(thrown.value), [];
    }
    TakeCategories(graph, b.categories);
    order := graph.Apply(bound);
    graph.TakeValueForKeyPath(Str("bar"), Some(ChartType));
    return Success(graph), order;
  }
}
