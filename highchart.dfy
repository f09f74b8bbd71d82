/** ERHighchart (Sources/er/highcharts/components/chart/ERHighchart.java): the
    component that renders a bound graph. It names its HTML container once,
    chooses the container's style, and, before handing the graph to the JSON
    writer, writes the render target and the animation flags into the bound
    graph and fills in the credits flag and the exporting URL only where they
    read null. The JSON writer is a parameter. */
module HighchartComponent {
  import opened Wrappers
  import opened Text
  import opened GraphPaths
  import opened KVCAGraph
  import opened Records
  import opened OptionPaths
  import opened Component

  /** The container identifier for a component with the given hash code. */
  function ChartIdFor(hash: int): string
  {
    "erhighcharts_" + Decimal(hash)
  }

  /** Two components get the same identifier exactly when their hash codes
      are equal. */
  lemma ChartIdsDistinct(h1: int, h2: int)
    ensures ChartIdFor(h1) == ChartIdFor(h2) <==> h1 == h2
  {
    if ChartIdFor(h1) == ChartIdFor(h2) {
      assert Decimal(h1) == ChartIdFor(h1)[13..];
      assert Decimal(h2) == ChartIdFor(h2)[13..];
      DecimalInjective(h1, h2);
    }
  }

  /** chartStyle: the bound style, or "height: 400px;" when it is null or
      empty; never empty. */
  function ChartStyle(style: Option<string>): (s: string)
    ensures s != ""
    ensures NullOrEmpty(style) ==> s == "height: 400px;"
    ensures !NullOrEmpty(style) ==> s == style.value
  {
    if NullOrEmpty(style) then "height: 400px;" else style.value
  }

  /** The two casts chartString applies to values it reads back. */
  datatype Cast = BooleanCast | StringCast

  /** A value the cast accepts: null, or a value of the cast's type. */
  predicate Admits(cast: Cast, v: Value)
  {
    match cast
    case BooleanCast => v.Null? || v.Bool?
    case StringCast => v.Null? || v.Str?
  }

  /** Reads `path` through the cast: a value the cast rejects throws; null
      is replaced by `default`; any other value is kept. */
  function SetIfNull(m: map<string, Value>, path: string, cast: Cast, default: Value): Result<map<string, Value>, Thrown>
  {
    var current := GetPath(m, path);
    if !Admits(cast, current) then Failure(ClassCast(path))
    else if current.Null? then Success(PutPath(m, path, default))
    else Success(m)
  }

  /** The fill-in fails exactly when the cast rejects the value present; an
      existing value is kept as it is; a null at a writable path becomes the
      default; and nothing outside the path's head changes. */
  lemma SetIfNullSpec(m: map<string, Value>, path: string, cast: Cast, default: Value)
    ensures var r := SetIfNull(m, path, cast, default);
      var current := GetPath(m, path);
      && (r.Failure? <==> !Admits(cast, current))
      && (r.Failure? ==> r.error == ClassCast(path))
      && (r.Success? && current != Null ==> r.value == m)
      && (current == Null && Traversable(m, path) ==> GetPath(r.value, path) == default)
      && (r.Success? ==> forall k :: k != Head(path) ==> (k in r.value <==> k in m) && Lookup(r.value, k) == Lookup(m, k))
  {
    if GetPath(m, path) == Null {
      GetAfterPut(m, path, default);
      PutFrame(m, path, default);
    }
  }

  /** The unconditional writes: the render target, the chart animation and
      the series animation. */
  function Targeted(m: map<string, Value>, chartId: string): map<string, Value>
  {
    var m := PutPath(m, ChartRenderTo, Str(chartId));
    var m := PutPath(m, ChartAnimation, Bool(true));
    PutPath(m, SeriesAnimation, Bool(true))
  }

  /** The bound graph as the JSON writer receives it, or as it is left when a
      cast throws first. */
  datatype Prepared = Prepared(nodes: map<string, Value>, thrown: Option<Thrown>)

  /** chartString's writes into the bound graph, in order: the unconditional
      ones, then the credits flag, then the exporting URL. */
  function PrepareGraph(m: map<string, Value>, chartId: string, transcodeUrl: string): Prepared
  {
    var t := Targeted(m, chartId);
    match SetIfNull(t, CreditsEnabled, BooleanCast, Bool(false))
    case Failure(e) => Prepared(t, Some(e))
    case Success(c) =>
      match SetIfNull(c, ExportingUrl, StringCast, Str(transcodeUrl))
      case Failure(e) => Prepared(c, Some(e))
      case Success(u) => Prepared(u, None)
  }

  /** The three unconditional writes touch only "chart" and "plotOptions":
      the credits and exporting entries read as before. */
  lemma TargetedKeepsOthers(m: map<string, Value>, chartId: string, q: string)
    requires Head(q) != "chart" && Head(q) != "plotOptions"
    ensures GetPath(Targeted(m, chartId), q) == GetPath(m, q)
    ensures Traversable(Targeted(m, chartId), q) <==> Traversable(m, q)
  {
    TwoLevelSplits();
    ThreeLevelSplits();
    var m1 := PutPath(m, ChartRenderTo, Str(chartId));
    var m2 := PutPath(m1, ChartAnimation, Bool(true));
    PutOtherHead(m, ChartRenderTo, q, Str(chartId));
    PutOtherHead(m1, ChartAnimation, q, Bool(true));
    PutOtherHead(m2, SeriesAnimation, q, Bool(true));
  }

  /** The first two writes, both under "chart", set the render target and
      the chart animation when "chart" holds nothing or a graph. */
  lemma ChartWritesSet(m: map<string, Value>, chartId: string)
    requires Lookup(m, "chart").Null? || Lookup(m, "chart").Graph?
    ensures var m2 := PutPath(PutPath(m, ChartRenderTo, Str(chartId)), ChartAnimation, Bool(true));
      && GetPath(m2, ChartRenderTo) == Str(chartId)
      && GetPath(m2, ChartAnimation) == Bool(true)
  {
    KeysDotFree();
    var m1 := PutPath(m, ChartRenderTo, Str(chartId));
    TwoLevelRoundTrip(m, "chart", "renderTo", Str(chartId));
    TwoLevelRoundTrip(m1, "chart", "animation", Bool(true));
    TwoLevelSiblingKeeps(m1, "chart", "animation", "renderTo", Bool(true));
  }

  /** The series animation write, under "plotOptions", is untouched by the
      two writes under "chart": wherever "plotOptions.series.animation" can
      be written, it reads true afterwards. */
  lemma SeriesAnimationSet(m: map<string, Value>, chartId: string)
    ensures Traversable(m, SeriesAnimation) ==> GetPath(Targeted(m, chartId), SeriesAnimation) == Bool(true)
  {
    assert Head(ChartRenderTo) == "chart" && Head(ChartAnimation) == "chart" by {
      TwoLevelSplits();
    }
    assert Head(SeriesAnimation) == "plotOptions" by {
      ThreeLevelSplits();
    }
    var m1 := PutPath(m, ChartRenderTo, Str(chartId));
    var m2 := PutPath(m1, ChartAnimation, Bool(true));
    PutOtherHead(m, ChartRenderTo, SeriesAnimation, Str(chartId));
    PutOtherHead(m1, ChartAnimation, SeriesAnimation, Bool(true));
    GetAfterPut(m2, SeriesAnimation, Bool(true));
  }

  /** When "chart" holds nothing or a graph, the unconditional writes set
      the render target and the chart animation; the series animation reads
      true wherever it can be written. */
  lemma TargetedSetsChart(m: map<string, Value>, chartId: string)
    requires Lookup(m, "chart").Null? || Lookup(m, "chart").Graph?
    ensures GetPath(Targeted(m, chartId), ChartRenderTo) == Str(chartId)
    ensures GetPath(Targeted(m, chartId), ChartAnimation) == Bool(true)
    ensures Traversable(m, SeriesAnimation) ==> GetPath(Targeted(m, chartId), SeriesAnimation) == Bool(true)
  {
    SeriesAnimationSet(m, chartId);
    var m2 := PutPath(PutPath(m, ChartRenderTo, Str(chartId)), ChartAnimation, Bool(true));
    ChartWritesSet(m, chartId);
    TwoLevelSplits();
    ThreeLevelSplits();
    assert Head(SeriesAnimation) == "plotOptions";
    assert Head(ChartRenderTo) == "chart" && Head(ChartAnimation) == "chart";
    PutOtherHead(m2, SeriesAnimation, ChartRenderTo, Bool(true));
    PutOtherHead(m2, SeriesAnimation, ChartAnimation, Bool(true));
  }

  /** The fill-ins change at most "credits" and "exporting": every other
      entry is as the unconditional writes left it. */
  lemma FillInsKeepOthers(m: map<string, Value>, chartId: string, transcodeUrl: string, k: string)
    requires k != "credits" && k != "exporting"
    ensures var t := Targeted(m, chartId);
      var p := PrepareGraph(m, chartId, transcodeUrl);
      (k in p.nodes <==> k in t) && Lookup(p.nodes, k) == Lookup(t, k)
  {
    TwoLevelSplits();
    var t := Targeted(m, chartId);
    SetIfNullSpec(t, CreditsEnabled, BooleanCast, Bool(false));
    if SetIfNull(t, CreditsEnabled, BooleanCast, Bool(false)).Success? {
      var c := SetIfNull(t, CreditsEnabled, BooleanCast, Bool(false)).value;
      SetIfNullSpec(c, ExportingUrl, StringCast, Str(transcodeUrl));
    }
  }

  /** When "chart" holds nothing or a graph, the render target and the chart
      animation are set, whatever happens after them; so is the series
      animation wherever it can be written. */
  lemma PrepareSetsTarget(m: map<string, Value>, chartId: string, transcodeUrl: string)
    requires Lookup(m, "chart").Null? || Lookup(m, "chart").Graph?
    ensures var p := PrepareGraph(m, chartId, transcodeUrl);
      && GetPath(p.nodes, ChartRenderTo) == Str(chartId)
      && GetPath(p.nodes, ChartAnimation) == Bool(true)
      && (Traversable(m, SeriesAnimation) ==> GetPath(p.nodes, SeriesAnimation) == Bool(true))
  {
    TwoLevelSplits();
    var p := PrepareGraph(m, chartId, transcodeUrl);
    TargetedSetsChart(m, chartId);
    FillInsKeepOthers(m, chartId, transcodeUrl, "chart");
    GetThroughHead(p.nodes, Targeted(m, chartId), ChartRenderTo);
    GetThroughHead(p.nodes, Targeted(m, chartId), ChartAnimation);
    assert Head(SeriesAnimation) == "plotOptions" by {
      ThreeLevelSplits();
    }
    FillInsKeepOthers(m, chartId, transcodeUrl, "plotOptions");
    GetThroughHead(p.nodes, Targeted(m, chartId), SeriesAnimation);
  }

  /** The credits flag: an existing boolean is preserved, a null at a
      writable path becomes false, and any other value throws. */
  lemma PrepareCredits(m: map<string, Value>, chartId: string, transcodeUrl: string)
    ensures var p := PrepareGraph(m, chartId, transcodeUrl);
      var credits := GetPath(m, CreditsEnabled);
      && (credits.Bool? ==> GetPath(p.nodes, CreditsEnabled) == credits)
      && (credits.Null? && Traversable(m, CreditsEnabled) ==> GetPath(p.nodes, CreditsEnabled) == Bool(false))
      && (!Admits(BooleanCast, credits) ==> p.thrown == Some(ClassCast(CreditsEnabled)))
  {
    TwoLevelSplits();
    var t := Targeted(m, chartId);
    TargetedKeepsOthers(m, chartId, CreditsEnabled);
    SetIfNullSpec(t, CreditsEnabled, BooleanCast, Bool(false));
    if SetIfNull(t, CreditsEnabled, BooleanCast, Bool(false)).Success? {
      var c := SetIfNull(t, CreditsEnabled, BooleanCast, Bool(false)).value;
      SetIfNullSpec(c, ExportingUrl, StringCast, Str(transcodeUrl));
      if SetIfNull(c, ExportingUrl, StringCast, Str(transcodeUrl)).Success? {
        GetThroughHead(PrepareGraph(m, chartId, transcodeUrl).nodes, c, CreditsEnabled);
      }
    }
  }

  /** The exporting URL, once the credits cast has passed: an existing
      string is preserved, a null at a writable path becomes the transcode
      URL, and any other value throws. */
  lemma PrepareUrl(m: map<string, Value>, chartId: string, transcodeUrl: string)
    requires Admits(BooleanCast, GetPath(m, CreditsEnabled))
    ensures var p := PrepareGraph(m, chartId, transcodeUrl);
      var url := GetPath(m, ExportingUrl);
      && (url.Str? ==> p.thrown == None && GetPath(p.nodes, ExportingUrl) == url)
      && (url.Null? && Traversable(m, ExportingUrl) ==> p.thrown == None && GetPath(p.nodes, ExportingUrl) == Str(transcodeUrl))
      && (Admits(StringCast, url) <==> p.thrown == None)
      && (!Admits(StringCast, url) ==> p.thrown == Some(ClassCast(ExportingUrl)))
  {
    TwoLevelSplits();
    var t := Targeted(m, chartId);
    TargetedKeepsOthers(m, chartId, CreditsEnabled);
    TargetedKeepsOthers(m, chartId, ExportingUrl);
    SetIfNullSpec(t, CreditsEnabled, BooleanCast, Bool(false));
    var c := SetIfNull(t, CreditsEnabled, BooleanCast, Bool(false)).value;
    GetThroughHead(c, t, ExportingUrl);
    TraversableThroughHead(c, t, ExportingUrl);
    SetIfNullSpec(c, ExportingUrl, StringCast, Str(transcodeUrl));
  }

  /** chartString throws exactly when the credits flag or the exporting URL
      already holds a value of the wrong type; the credits cast comes first. */
  lemma PrepareThrowsIff(m: map<string, Value>, chartId: string, transcodeUrl: string)
    ensures var p := PrepareGraph(m, chartId, transcodeUrl);
      var credits := GetPath(m, CreditsEnabled);
      var url := GetPath(m, ExportingUrl);
      && (p.thrown.Some? <==> !Admits(BooleanCast, credits) || !Admits(StringCast, url))
      && (!Admits(BooleanCast, credits) ==> p.thrown == Some(ClassCast(CreditsEnabled)))
  {
    PrepareCredits(m, chartId, transcodeUrl);
    if Admits(BooleanCast, GetPath(m, CreditsEnabled)) {
      PrepareUrl(m, chartId, transcodeUrl);
    }
  }

  /** Only "chart", "plotOptions", "credits" and "exporting" can change;
      every other entry of the bound graph is left as it was. */
  lemma PrepareFrame(m: map<string, Value>, chartId: string, transcodeUrl: string, k: string)
    requires k != "chart" && k != "plotOptions" && k != "credits" && k != "exporting"
    ensures var p := PrepareGraph(m, chartId, transcodeUrl);
      (k in p.nodes <==> k in m) && Lookup(p.nodes, k) == Lookup(m, k)
  {
    TargetedFrame(m, chartId, k);
    FillInsKeepOthers(m, chartId, transcodeUrl, k);
  }

  /** The unconditional writes leave every entry but "chart" and
      "plotOptions" as it was. */
  lemma TargetedFrame(m: map<string, Value>, chartId: string, k: string)
    requires k != "chart" && k != "plotOptions"
    ensures (k in Targeted(m, chartId) <==> k in m) && Lookup(Targeted(m, chartId), k) == Lookup(m, k)
  {
    assert Head(ChartRenderTo) == "chart" && Head(ChartAnimation) == "chart" by {
      TwoLevelSplits();
    }
    assert Head(SeriesAnimation) == "plotOptions" by {
      ThreeLevelSplits();
    }
    var m1 := PutPath(m, ChartRenderTo, Str(chartId));
    var m2 := PutPath(m1, ChartAnimation, Bool(true));
    PutFrame(m, ChartRenderTo, Str(chartId));
    PutFrame(m1, ChartAnimation, Bool(true));
    PutFrame(m2, SeriesAnimation, Bool(true));
  }

  /** What chartString returns, or the exception that escapes it. */
  datatype Outcome = Returned(text: string) | Threw(thrown: Thrown)

  /** The result for a prepared graph: a thrown cast escapes; otherwise the
      JSON text, or "ERROR" when the writer fails. */
  function OutcomeOf(p: Prepared, serialize: map<string, Value> -> Option<string>): (o: Outcome)
    ensures o.Threw? <==> p.thrown.Some?
    ensures p.thrown.Some? ==> o.thrown == p.thrown.value
    ensures o.Returned? && serialize(p.nodes).None? ==> o.text == "ERROR"
    ensures o.Returned? && serialize(p.nodes).Some? ==> o.text == serialize(p.nodes).value
  {
    match p.thrown
    case Some(e) => Threw(e)
    case None =>
      match serialize(p.nodes)
      case None => Returned("ERROR")
      case Some(text) => Returned(text)
  }

  /** The three unconditional writes, made on the bound graph. */
  method WriteTargets(graph: KVCAExtensionGraph, chartId: string)
    modifies graph
    ensures graph.nodes == Targeted(old(graph.nodes), chartId)
  {
    graph.TakeValueForKeyPath(Str(chartId), Some(ChartRenderTo));
    graph.TakeValueForKeyPath(Bool(true), Some(ChartAnimation));
    graph.TakeValueForKeyPath(Bool(true), Some(SeriesAnimation));
  }

  /** One fill-in on the bound graph: read the path through the cast, and
      write the default when it reads null. */
  method FillIn(graph: KVCAExtensionGraph, path: string, cast: Cast, default: Value) returns (thrown: Option<Thrown>)
    modifies graph
    ensures SetIfNull(old(graph.nodes), path, cast, default).Failure? ==>
      thrown == Some(SetIfNull(old(graph.nodes), path, cast, default).error) && graph.nodes == old(graph.nodes)
    ensures SetIfNull(old(graph.nodes), path, cast, default).Success? ==>
      thrown == None && graph.nodes == SetIfNull(old(graph.nodes), path, cast, default).value
  {
    var current := graph.ValueForKeyPath(Some(path));
    if !Admits(cast, current) {
      return Some(ClassCast(path));
    }
    if current.Null? {
      graph.TakeValueForKeyPath(default, Some(path));
    }
    return None;
  }

  class ERHighchart {
    /** The component's `hashCode()`. */
    const hash: int
    /** The cached container identifier; null until first asked for. */
    var chartIdCache: Option<string>

    constructor(hash: int)
      ensures this.hash == hash && chartIdCache == None
      ensures Valid()
    {
      this.hash := hash;
      chartIdCache := None;
    }

    /** The cache, once filled, holds this component's identifier. */
    predicate Valid()
      reads this
    {
      chartIdCache.Some? ==> chartIdCache.value == ChartIdFor(hash)
    }

    /** chartId: computed on the first call, then returned from the cache, so
        every call gives the same identifier. */
    method ChartId() returns (id: string)
      requires Valid()
      modifies this
      ensures Valid()
      ensures id == ChartIdFor(hash) && chartIdCache == Some(id)
    {
      if chartIdCache.None? {
        chartIdCache := Some("erhighcharts_" + Decimal(hash));
      }
      id := chartIdCache.value;
    }

    /** chartString: "ERROR" without touching anything when no graph is
        bound; otherwise the defaults are written into the bound graph
        itself and the graph is handed to the JSON writer. */
    method ChartString(graph: KVCAExtensionGraph?, transcodeUrl: string, serialize: map<string, Value> -> Option<string>)
      returns (o: Outcome)
      requires Valid()
      modifies this, graph
      ensures Valid()
      ensures graph == null ==> o == Returned("ERROR") && chartIdCache == old(chartIdCache)
      ensures graph != null ==>
        var p := PrepareGraph(old(graph.nodes), ChartIdFor(hash), transcodeUrl);
        graph.nodes == p.nodes && o == OutcomeOf(p, serialize)
    {
      if graph == null {
        return Returned("ERROR");
      }
      var id := ChartId();
      WriteTargets(graph, id);
      var thrown := FillIn(graph, CreditsEnabled, BooleanCast, Bool(false));
      if thrown.Some? {
        return Threw(thrown.value);
      }
      thrown := FillIn(graph, ExportingUrl, StringCast, Str(transcodeUrl));
      if thrown.Some? {
        return Threw(thrown.value);
      }
      match serialize(graph.nodes)
      case None => o := Returned("ERROR");
      case Some(text) => o := Returned(text);
    }
  }
}
