/** ERPieChart.graph() (Sources/er/highcharts/components/chart/ERPieChart.java):
    the pie defaults, one pie series whose data holds a name and a value for
    each bound object, and the bound overlay last. The pie chart builds its
    series itself; it writes no categories and no raw option bindings. */
module PieChart {
  import opened Wrappers
  import opened GraphPaths
  import opened Overlay
  import opened KVCAGraph
  import opened Records
  import opened OptionPaths
  import opened Component

  /** The key path a wedge's name is read from: the "name" mapping, else the
      series-name key-path binding, else "name". */
  function WedgeNamePath(b: Bindings): string
  {
    PathFor("name", b.mappings, b.seriesNameKeyPath)
  }

  /** The key path a wedge's value is read from: the "y" mapping, else the
      series-value key-path binding, else "y". */
  function WedgeValuePath(b: Bindings): string
  {
    PathFor("y", b.mappings, b.seriesValueKeyPath)
  }

  /** The entries of one wedge: its name and its value, both read without a
      guard, so a failure escapes. */
  function Wedge(b: Bindings, obj: Record): Result<map<string, Value>, Thrown>
  {
    var name :- ReadPath(obj, WedgeNamePath(b));
    var y :- ReadPath(obj, WedgeValuePath(b));
    Success(map["name" := name, "y" := y])
  }

  function WedgeFn(b: Bindings): Record -> Result<map<string, Value>, Thrown>
  {
    (obj: Record) => Wedge(b, obj)
  }

  /** The wedges: one graph per object, in input order, until the first
      object that throws. */
  function WedgeList(b: Bindings, objs: seq<Record>): Result<seq<Value>, Thrown>
  {
    EntryList(WedgeFn(b), objs)
  }

  /** A wedge fails exactly when its name or its value lookup fails, the
      first to fail deciding the exception; a built wedge holds exactly the
      name and the value read. */
  lemma WedgeSpec(b: Bindings, obj: Record)
    ensures var r := Wedge(b, obj);
      var name := ReadPath(obj, WedgeNamePath(b));
      var y := ReadPath(obj, WedgeValuePath(b));
      && (r.Failure? <==> name.Failure? || y.Failure?)
      && (name.Failure? ==> r == Failure(name.error))
      && (name.Success? && y.Failure? ==> r == Failure(y.error))
      && (r.Success? ==> r.value.Keys == {"name", "y"} && r.value["name"] == name.value && r.value["y"] == y.value)
  {
  }

  /** The pie defaults: a "chart" graph holding the pie type and a
      "plotOptions.pie" graph allowing point selection. */
  function PieDefaults(): map<string, Value>
  {
    map["chart" := Graph(map["type" := Str("pie")]),
        "plotOptions" := Graph(map["pie" := Graph(map["allowPointSelect" := Bool(true)])])]
  }

  /** The two default writes on a new graph make the defaults and nothing
      else. */
  lemma PieDefaultsShape()
    ensures PutPath(PutPath(map[], ChartType, Str("pie")), PieAllowPointSelect, Bool(true)) == PieDefaults()
  {
    KeysDotFree();
    NewChartType("pie");
    var m := PutPath(map[], ChartType, Str("pie"));
    PutBelowHead(m, "plotOptions", "pie" + "." + "allowPointSelect", Bool(true));
    PutTwoLevel(map[], "pie", "allowPointSelect", Bool(true));
  }

  /** The defaults read back at their own paths. */
  lemma PieDefaultsRead()
    ensures GetPath(PieDefaults(), ChartType) == Str("pie")
    ensures GetPath(PieDefaults(), PieAllowPointSelect) == Bool(true)
  {
    KeysDotFree();
    var pie := map["pie" := Graph(map["allowPointSelect" := Bool(true)])];
    var d := map["chart" := Graph(map["type" := Str("pie")]), "plotOptions" := Graph(pie)];
    GetTwoLevel(d, "chart", "type");
    GetBelowHead(d, "plotOptions", "pie" + "." + "allowPointSelect");
    GetTwoLevel(pie, "pie", "allowPointSelect");
  }

  /** The single pie series over a list of wedges. */
  function PieSeriesGraph(wedges: seq<Value>): Value
  {
    Graph(map["type" := Str("pie"), "data" := List(wedges)])
  }

  /** The series step: with series bound, "series" is set to a list of one
      pie series; unbound, nothing changes. */
  function PieSeriesNodes(b: Bindings, m: map<string, Value>): Result<map<string, Value>, Thrown>
  {
    match b.series
    case None => Success(m)
    case Some(objs) =>
      var wedges :- WedgeList(b, objs);
      Success(m["series" := List([PieSeriesGraph(wedges)])])
  }

  /** The graph before the overlay. */
  function PieBase(b: Bindings): Result<map<string, Value>, Thrown>
  {
    PieSeriesNodes(b, PieDefaults())
  }

  /** The graph graph() returns, for the overlay keys taken in `order`. */
  function PieOptions(b: Bindings, bound: Option<map<string, Value>>, order: seq<string>): Result<map<string, Value>, Thrown>
  {
    var m :- PieBase(b);
    Success(ApplyBound(m, bound, order))
  }

  /** graph() fails exactly when series are bound and some object's wedge
      fails; the exception is that of the first such object. */
  lemma PieFailsOnlyInWedges(b: Bindings, bound: Option<map<string, Value>>, order: seq<string>)
    ensures var r := PieOptions(b, bound, order);
      && (r.Failure? <==> b.series.Some? && exists i :: 0 <= i < |b.series.value| && Wedge(b, b.series.value[i]).Failure?)
      && (r.Failure? ==>
            exists i :: 0 <= i < |b.series.value| && Wedge(b, b.series.value[i]).Failure?
              && r.error == Wedge(b, b.series.value[i]).error
              && forall j :: 0 <= j < i ==> Wedge(b, b.series.value[j]).Success?)
  {
    if b.series.Some? {
      EntryListSpec(WedgeFn(b), b.series.value);
    }
  }

  /** Built wedges: one per object, in order, each holding the name and the
      value read from that object. */
  lemma WedgeListContents(b: Bindings, objs: seq<Record>)
    requires WedgeList(b, objs).Success?
    ensures var wedges := WedgeList(b, objs).value;
      && |wedges| == |objs|
      && forall i :: 0 <= i < |objs| ==>
           && ReadPath(objs[i], WedgeNamePath(b)).Success?
           && ReadPath(objs[i], WedgeValuePath(b)).Success?
           && wedges[i] == Graph(map["name" := ReadPath(objs[i], WedgeNamePath(b)).value,
                                  "y" := ReadPath(objs[i], WedgeValuePath(b)).value])
  {
    EntryListSpec(WedgeFn(b), objs);
    var wedges := WedgeList(b, objs).value;
    forall i | 0 <= i < |objs|
      ensures ReadPath(objs[i], WedgeNamePath(b)).Success? && ReadPath(objs[i], WedgeValuePath(b)).Success?
      ensures wedges[i] == Graph(map["name" := ReadPath(objs[i], WedgeNamePath(b)).value,
                                     "y" := ReadPath(objs[i], WedgeValuePath(b)).value])
    {
      WedgeSpec(b, objs[i]);
    }
  }

  /** Unless the overlay passes through "series", bound series give exactly
      one series, of type "pie", whose data is the wedge list. */
  lemma PieSingleSeries(b: Bindings, bound: Option<map<string, Value>>, order: seq<string>)
    requires PieBase(b).Success? && Enumerates(order, bound) && !TouchesHead(bound, "series")
    requires b.series.Some?
    ensures WedgeList(b, b.series.value).Success?
    ensures Lookup(PieOptions(b, bound, order).value, "series")
         == List([PieSeriesGraph(WedgeList(b, b.series.value).value)])
  {
    var base := PieBase(b).value;
    assert base["series"] == List([PieSeriesGraph(WedgeList(b, b.series.value).value)]);
    ApplyBoundKeeps(base, bound, order, "series");
  }

  /** With series unbound, there is no "series" unless the overlay supplies
      one. */
  lemma PieNoSeries(b: Bindings, bound: Option<map<string, Value>>, order: seq<string>)
    requires b.series.None? && Enumerates(order, bound) && !TouchesHead(bound, "series")
    ensures "series" !in PieOptions(b, bound, order).value
  {
    ApplyBoundKeeps(PieBase(b).value, bound, order, "series");
  }

  /** The defaults survive an overlay that does not pass through their
      heads. */
  lemma PieDefaultsSurvive(b: Bindings, bound: Option<map<string, Value>>, order: seq<string>)
    requires PieBase(b).Success? && Enumerates(order, bound)
    ensures !TouchesHead(bound, "chart") ==> GetPath(PieOptions(b, bound, order).value, ChartType) == Str("pie")
    ensures !TouchesHead(bound, "plotOptions") ==> GetPath(PieOptions(b, bound, order).value, PieAllowPointSelect) == Bool(true)
  {
    var base := PieBase(b).value;
    PieDefaultsRead();
    PieBaseKeepsDefaults(b);
    assert Head(ChartType) == "chart" by {
      TwoLevelSplits();
    }
    assert Head(PieAllowPointSelect) == "plotOptions" by {
      ThreeLevelSplits();
    }
    GetThroughHead(base, PieDefaults(), ChartType);
    GetThroughHead(base, PieDefaults(), PieAllowPointSelect);
    if !TouchesHead(bound, "chart") {
      OverlayKeepsPath(base, bound, order, ChartType);
    }
    if !TouchesHead(bound, "plotOptions") {
      OverlayKeepsPath(base, bound, order, PieAllowPointSelect);
    }
  }

  /** The series step leaves the "chart" and "plotOptions" defaults as they
      are. */
  lemma PieBaseKeepsDefaults(b: Bindings)
    requires PieBase(b).Success?
    ensures Lookup(PieBase(b).value, "chart") == Lookup(PieDefaults(), "chart")
    ensures Lookup(PieBase(b).value, "plotOptions") == Lookup(PieDefaults(), "plotOptions")
  {
    assert "series" != "chart" && "series" != "plotOptions";
  }

  /** A top-level "chart" entry of the overlay, the only overlay key under
      "chart", replaces the default wholesale. */
  lemma PieChartReplaced(b: Bindings, supp: map<string, Value>, order: seq<string>)
    requires PieBase(b).Success? && IsEnumeration(order, supp.Keys)
    requires "chart" in supp && forall j :: j in supp && j != "chart" ==> Head(j) != "chart"
    ensures var r := PieOptions(b, Some(supp), order).value;
      && Lookup(r, "chart") == supp["chart"]
      && GetPath(r, ChartType) == GetPath(supp, ChartType)
  {
    var base := PieBase(b).value;
    assert PieOptions(b, Some(supp), order).value == ApplyBound(base, Some(supp), order);
    TwoLevelSplits();
    OverlayDecidesHead(base, supp, order, ChartType);
  }

  /** The pie graph depends on no binding but the series, the mappings and
      the name and value key paths: not on the data key path, the
      categories or the raw option bindings. */
  lemma PieIgnoresOtherBindings(b: Bindings, c: Bindings, bound: Option<map<string, Value>>, order: seq<string>)
    requires b.series == c.series && b.mappings == c.mappings
    requires b.seriesNameKeyPath == c.seriesNameKeyPath && b.seriesValueKeyPath == c.seriesValueKeyPath
    ensures PieOptions(b, bound, order) == PieOptions(c, bound, order)
  {
    if b.series.Some? {
      EntryListAgree(WedgeFn(b), WedgeFn(c), b.series.value);
    }
  }

  /** One wedge graph, built as the source builds it: a new graph given the
      name, then the value. */
  method BuildWedge(b: Bindings, obj: Record) returns (r: Result<KVCAExtensionGraph, Thrown>)
    ensures Wedge(b, obj).Failure? ==> r == Failure(Wedge(b, obj).error)
    ensures Wedge(b, obj).Success? ==> r.Success? && fresh(r.value) && r.value.nodes == Wedge(b, obj).value
  {
    KeysDotFree();
    var data := new KVCAExtensionGraph();
    var name := ReadPath(obj, WedgeNamePath(b));
    if name.Failure? {
      return Failure(name.error);
    }
    PlainPut(data.nodes, "name", name.value);
    data.TakeValueForKeyPath(name.value, Some("name"));
    var y := ReadPath(obj, WedgeValuePath(b));
    if y.Failure? {
      return Failure(y.error);
    }
    PlainPut(data.nodes, "y", y.value);
    data.TakeValueForKeyPath(y.value, Some("y"));
    return Success(data);
  }

  /** The pie series graph, built as the source builds it: a new graph given
      the pie type, then the data list filled one wedge per object. */
  method BuildPieSeries(b: Bindings, objs: seq<Record>) returns (r: Result<KVCAExtensionGraph, Thrown>)
    ensures WedgeList(b, objs).Failure? ==> r == Failure(WedgeList(b, objs).error)
    ensures WedgeList(b, objs).Success? ==>
      r.Success? && fresh(r.value) && Graph(r.value.nodes) == PieSeriesGraph(WedgeList(b, objs).value)
  {
    KeysDotFree();
    var series := new KVCAExtensionGraph();
    PlainPut(series.nodes, "type", Str("pie"));
    series.TakeValueForKeyPath(Str("pie"), Some("type"));
    var dataList: seq<Value> := [];
    ghost var seriesNodes := series.nodes;
    for i := 0 to |objs|
      invariant WedgeList(b, objs[..i]) == Success(dataList)
      invariant series.nodes == seriesNodes
    {
      var data := BuildWedge(b, objs[i]);
      EntryListStep(WedgeFn(b), objs, i);
      if data.Failure? {
        PrefixFailure(WedgeFn(b), objs, i + 1);
        return Failure(data.error);
      }
      dataList := dataList + [Graph(data.value.nodes)];
    }
    assert objs[..|objs|] == objs;
    PlainPut(series.nodes, "data", List(dataList));
    series.TakeValueForKeyPath(List(dataList), Some("data"));
    return Success(series);
  }

  /** ERPieChart.graph(): a new graph on every call. */
  method PieGraph(b: Bindings, bound: KVCAExtensionGraph?) returns (r: Result<KVCAExtensionGraph, Thrown>, ghost order: seq<string>)
    ensures PieBase(b).Failure? ==> r == Failure(PieBase(b).error) && PieOptions(b, BoundNodes(bound), order).Failure?
    ensures PieBase(b).Success? ==>
      && Enumerates(order, BoundNodes(bound))
      && r.Success? && fresh(r.value)
      && r.value.nodes == PieOptions(b, BoundNodes(bound), order).value
  {
    KeysDotFree();
    var graph := new KVCAExtensionGraph();
    graph.TakeValueForKeyPath(Str("pie"), Some(ChartType));
    graph.TakeValueForKeyPath(Bool(true), Some(PieAllowPointSelect));
    PieDefaultsShape();
    var thrown := TakePieSeries(graph, b);
    if thrown.Some? {
      return Failure(thrown.value), [];
    }
    order := graph.Apply(bound);
    return Success(graph), order;
  }

  /** The series step of graph(): with series bound, "series" is set to the
      list holding the one pie series; a wedge that throws leaves the graph
      as it was. */
  method TakePieSeries(graph: KVCAExtensionGraph, b: Bindings) returns (thrown: Option<Thrown>)
    modifies graph
    ensures PieSeriesNodes(b, old(graph.nodes)).Failure? ==>
      thrown == Some(PieSeriesNodes(b, old(graph.nodes)).error) && graph.nodes == old(graph.nodes)
    ensures PieSeriesNodes(b, old(graph.nodes)).Success? ==>
      thrown == None && graph.nodes == PieSeriesNodes(b, old(graph.nodes)).value
  {
    KeysDotFree();
    if b.series.Some? {
      var series := BuildPieSeries(b, b.series.value);
      if series.Failure? {
        return Some(series.error);
      }
      var seriesList := [Graph(series.value.nodes)];
      PlainPut(graph.nodes, "series", List(seriesList));
      graph.TakeValueForKeyPath(List(seriesList), Some("series"));
    }
    return None;
  }
}
