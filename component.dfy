/** The shared graph-building rules of ERHighchartComponent
    (Sources/er/highcharts/components/ERHighchartComponent.java): series built
    from bound objects with a three-tier choice of key path, a lookup that
    swallows failures, raw dotted bindings, and the base `graph()` that puts
    them together. The component's bindings are an input record; the bound
    overlay graph is an object. */
module Component {
  import opened Wrappers
  import opened Text
  import opened GraphPaths
  import opened Overlay
  import opened KVCAGraph
  import opened Records
  import opened OptionPaths

  /** The component's bindings. `None` is an unbound (null) binding. `raw`
      lists every binding key, in the order the component reports them,
      with its value. */
  datatype Bindings = Bindings(
    series: Option<seq<Record>>,
    mappings: Option<map<string, string>>,
    seriesNameKeyPath: Option<string>,
    seriesDataKeyPath: Option<string>,
    seriesValueKeyPath: Option<string>,
    categories: Option<seq<Value>>,
    raw: seq<(string, Value)>)

  /** `ERXStringUtilities.stringIsNullOrEmpty`. */
  predicate NullOrEmpty(s: Option<string>)
  {
    s.None? || s.value == ""
  }

  /** The key path a series slot is read from: the `mappings` entry for the
      slot when there is one, else the key-path binding when it is neither
      null nor empty, else the slot's own name. */
  function PathFor(slot: string, mappings: Option<map<string, string>>, keyPath: Option<string>): (p: string)
    ensures mappings.Some? && slot in mappings.value ==> p == mappings.value[slot]
    ensures p == slot || (mappings.Some? && slot in mappings.value) || (keyPath == Some(p) && p != "")
  {
    if mappings.Some? && slot in mappings.value then mappings.value[slot]
    else if !NullOrEmpty(keyPath) then keyPath.value
    else slot
  }

  /** The default slot name is used exactly when neither a mapping entry nor
      a usable key-path binding is present, and the binding is used exactly
      when there is no mapping entry. */
  lemma PathForPrecedence(slot: string, mappings: Option<map<string, string>>, keyPath: Option<string>)
    ensures var mapped := mappings.Some? && slot in mappings.value;
      && (!mapped && !NullOrEmpty(keyPath) ==> PathFor(slot, mappings, keyPath) == keyPath.value)
      && (!mapped && NullOrEmpty(keyPath) ==> PathFor(slot, mappings, keyPath) == slot)
      && (mapped ==> forall other :: PathFor(slot, mappings, other) == PathFor(slot, mappings, keyPath))
  {
  }

  /** keyPathForBoundName: null for an empty name; otherwise the object's
      value at the mapped path (or the name itself), with any exception
      turned into null. */
  function KeyPathForBoundName(name: string, mappings: Option<map<string, string>>, obj: Record): (v: Value)
    ensures name == "" ==> v == Null
    ensures v != Null ==> ReadPath(obj, PathFor(name, mappings, None)) == Success(v)
    ensures name != "" && ReadPath(obj, PathFor(name, mappings, None)).Success? ==>
              v == ReadPath(obj, PathFor(name, mappings, None)).value
  {
    if name == "" then Null
    else
      var namePath := if mappings.Some? && name in mappings.value then mappings.value[name] else name;
      match ReadPath(obj, namePath)
      case Success(value) => value
      case Failure(_) => Null
  }

  /** The name and data paths the series builder reads. */
  function NamePath(b: Bindings): string
  {
    PathFor("name", b.mappings, b.seriesNameKeyPath)
  }

  function DataPath(b: Bindings): string
  {
    PathFor("data", b.mappings, b.seriesDataKeyPath)
  }

  /** Puts `value` under `key` when it is not null. */
  function PutIfPresent(m: map<string, Value>, key: string, value: Value): map<string, Value>
  {
    if value != Null then m[key := value] else m
  }

  /** The entries of the series graph built for one object: its name and data
      (read without a guard, so a failure escapes), then pointStart,
      pointInterval and type, each only when it reads non-null. */
  function SeriesEntry(b: Bindings, obj: Record): Result<map<string, Value>, Thrown>
  {
    var name :- ReadPath(obj, NamePath(b));
    var data :- ReadPath(obj, DataPath(b));
    Success(WithOptionalKeys(map["name" := name, "data" := data], b.mappings, obj))
  }

  /** pointStart, pointInterval and type added to a series graph, each only
      when it reads non-null. */
  function WithOptionalKeys(s: map<string, Value>, mappings: Option<map<string, string>>, obj: Record): map<string, Value>
  {
    var s := PutIfPresent(s, "pointStart", KeyPathForBoundName("pointStart", mappings, obj));
    var s := PutIfPresent(s, "pointInterval", KeyPathForBoundName("pointInterval", mappings, obj));
    PutIfPresent(s, "type", KeyPathForBoundName("type", mappings, obj))
  }

  /** `key` holds `v` exactly when `v` is not null. */
  predicate HoldsIfPresent(m: map<string, Value>, key: string, v: Value)
  {
    (key in m <==> v != Null) && (key in m ==> m[key] == v)
  }

  /** A series entry fails exactly when its name or its data lookup fails,
      and the first of them to fail decides the exception; the optional keys
      never make it fail. */
  lemma SeriesEntryFailure(b: Bindings, obj: Record)
    ensures var r := SeriesEntry(b, obj);
      var name := ReadPath(obj, NamePath(b));
      var data := ReadPath(obj, DataPath(b));
      && (r.Failure? <==> name.Failure? || data.Failure?)
      && (name.Failure? ==> r == Failure(name.error))
      && (name.Success? && data.Failure? ==> r == Failure(data.error))
  {
  }

  /** A built series entry holds the name and data read from the object, and
      nothing beyond them but the optional keys. */
  lemma SeriesEntryContents(b: Bindings, obj: Record, s: map<string, Value>)
    requires SeriesEntry(b, obj) == Success(s)
    ensures "name" in s && ReadPath(obj, NamePath(b)) == Success(s["name"])
    ensures "data" in s && ReadPath(obj, DataPath(b)) == Success(s["data"])
    ensures s.Keys <= {"name", "data", "pointStart", "pointInterval", "type"}
  {
    var s0 := SeriesEntryUnfold(b, obj, s);
    WithOptionalKeysSpec(s0, b.mappings, obj);
    assert "name" in s0 && "data" in s0;
  }

  /** A built series entry holds each optional key exactly when that key
      reads non-null, with the value read. */
  lemma SeriesEntryOptional(b: Bindings, obj: Record, s: map<string, Value>)
    requires SeriesEntry(b, obj) == Success(s)
    ensures HoldsIfPresent(s, "pointStart", KeyPathForBoundName("pointStart", b.mappings, obj))
    ensures HoldsIfPresent(s, "pointInterval", KeyPathForBoundName("pointInterval", b.mappings, obj))
    ensures HoldsIfPresent(s, "type", KeyPathForBoundName("type", b.mappings, obj))
  {
    var s0 := SeriesEntryUnfold(b, obj, s);
    WithOptionalKeysSpec(s0, b.mappings, obj);
  }

  /** A built series entry is the name and data read, with the optional keys
      added. */
  lemma SeriesEntryUnfold(b: Bindings, obj: Record, s: map<string, Value>) returns (s0: map<string, Value>)
    requires SeriesEntry(b, obj) == Success(s)
    ensures ReadPath(obj, NamePath(b)).Success? && ReadPath(obj, DataPath(b)).Success?
    ensures s0 == map["name" := ReadPath(obj, NamePath(b)).value, "data" := ReadPath(obj, DataPath(b)).value]
    ensures s == WithOptionalKeys(s0, b.mappings, obj)
  {
    s0 := map["name" := ReadPath(obj, NamePath(b)).value, "data" := ReadPath(obj, DataPath(b)).value];
  }

  /** The optional keys keep every other entry, and each is present exactly
      when it reads non-null. */
  lemma WithOptionalKeysSpec(s: map<string, Value>, mappings: Option<map<string, string>>, obj: Record)
    requires "pointStart" !in s && "pointInterval" !in s && "type" !in s
    ensures var r := WithOptionalKeys(s, mappings, obj);
      && (forall k :: k in s ==> k in r && r[k] == s[k])
      && HoldsIfPresent(r, "pointStart", KeyPathForBoundName("pointStart", mappings, obj))
      && HoldsIfPresent(r, "pointInterval", KeyPathForBoundName("pointInterval", mappings, obj))
      && HoldsIfPresent(r, "type", KeyPathForBoundName("type", mappings, obj))
      && r.Keys <= s.Keys + {"pointStart", "pointInterval", "type"}
  {
    var start := KeyPathForBoundName("pointStart", mappings, obj);
    var interval := KeyPathForBoundName("pointInterval", mappings, obj);
    var kind := KeyPathForBoundName("type", mappings, obj);
    var s1 := PutIfPresent(s, "pointStart", start);
    var s2 := PutIfPresent(s1, "pointInterval", interval);
    var s3 := PutIfPresent(s2, "type", kind);
    assert WithOptionalKeys(s, mappings, obj) == s3;
    PutIfPresentSpec(s, "pointStart", start);
    PutIfPresentSpec(s1, "pointInterval", interval);
    PutIfPresentSpec(s2, "type", kind);
  }

  /** One optional key: held exactly when present, every other key kept. */
  lemma PutIfPresentSpec(m: map<string, Value>, key: string, v: Value)
    requires key !in m
    ensures var r := PutIfPresent(m, key, v);
      && HoldsIfPresent(r, key, v)
      && (forall k :: k in m ==> k in r && r[k] == m[k])
      && r.Keys <= m.Keys + {key}
  {
  }

  /** A graph never throws for a missing path, so a graph series object always
      yields a series entry. */
  lemma GraphRecordNeverFails(b: Bindings, nodes: map<string, Value>)
    ensures SeriesEntry(b, GraphRecord(nodes)).Success?
  {
  }

  /** The series list: one graph per object, in input order, built until the
      first object whose entry fails. */
  function SeriesList(b: Bindings, objs: seq<Record>): Result<seq<Value>, Thrown>
  {
    EntryList(SeriesEntryFn(b), objs)
  }

  function SeriesEntryFn(b: Bindings): Record -> Result<map<string, Value>, Thrown>
  {
    (obj: Record) => SeriesEntry(b, obj)
  }

  /** buildSeries on a graph's entries: when series objects are bound,
      "series" is set to their list; when not, nothing changes. */
  function SeriesNodes(b: Bindings, m: map<string, Value>): Result<map<string, Value>, Thrown>
  {
    match b.series
    case None => Success(m)
    case Some(objs) =>
      var items :- SeriesList(b, objs);
      Success(m["series" := List(items)])
  }

  /** buildSeries changes at most the "series" entry; with series unbound it
      changes nothing, and with series bound it fails exactly when one of the
      objects fails. */
  lemma SeriesNodesSpec(b: Bindings, m: map<string, Value>)
    ensures var r := SeriesNodes(b, m);
      && (b.series.None? ==> r == Success(m))
      && (r.Failure? <==> b.series.Some? && SeriesList(b, b.series.value).Failure?)
      && (r.Success? ==>
            && (forall k :: k != "series" ==> (k in r.value <==> k in m) && Lookup(r.value, k) == Lookup(m, k))
            && (b.series.Some? ==> r.value["series"] == List(SeriesList(b, b.series.value).value)))
  {
  }

  /** The series graph for one object, built as the source builds it: a new
      graph given the name and the data, then the optional keys. */
  method BuildSeriesEntry(b: Bindings, obj: Record) returns (r: Result<KVCAExtensionGraph, Thrown>)
    ensures SeriesEntry(b, obj).Failure? ==> r == Failure(SeriesEntry(b, obj).error)
    ensures SeriesEntry(b, obj).Success? ==> r.Success? && fresh(r.value) && r.value.nodes == SeriesEntry(b, obj).value
  {
    KeysDotFree();
    var series := new KVCAExtensionGraph();
    var name := ReadPath(obj, NamePath(b));
    if name.Failure? {
      return Failure(name.error);
    }
    PlainPut(series.nodes, "name", name.value);
    series.TakeValueForKeyPath(name.value, Some("name"));
    var data := ReadPath(obj, DataPath(b));
    if data.Failure? {
      return Failure(data.error);
    }
    PlainPut(series.nodes, "data", data.value);
    series.TakeValueForKeyPath(data.value, Some("data"));
    AddOptionalKeys(series, b.mappings, obj);
    return Success(series);
  }

  /** The writes of pointStart, pointInterval and type, each made only when
      the value read is not null. */
  method AddOptionalKeys(series: KVCAExtensionGraph, mappings: Option<map<string, string>>, obj: Record)
    modifies series
    ensures series.nodes == WithOptionalKeys(old(series.nodes), mappings, obj)
  {
    KeysDotFree();
    var ps := KeyPathForBoundName("pointStart", mappings, obj);
    TakeIfPresent(series, "pointStart", ps);
    var pi := KeyPathForBoundName("pointInterval", mappings, obj);
    TakeIfPresent(series, "pointInterval", pi);
    var ty := KeyPathForBoundName("type", mappings, obj);
    TakeIfPresent(series, "type", ty);
  }

  /** One guarded write: a null value is not stored. */
  method TakeIfPresent(series: KVCAExtensionGraph, key: string, v: Value)
    requires '.' !in key
    modifies series
    ensures series.nodes == PutIfPresent(old(series.nodes), key, v)
  {
    if v != Null {
      PlainPut(series.nodes, key, v);
      series.TakeValueForKeyPath(v, Some(key));
    }
  }

  /** buildSeries: walks the bound objects in order, collecting one series
      graph each, then stores the list under "series". An exception from an
      object leaves the graph as it was. */
  method BuildSeries(graph: KVCAExtensionGraph, b: Bindings) returns (thrown: Option<Thrown>)
    modifies graph
    ensures SeriesNodes(b, old(graph.nodes)).Failure? ==>
      thrown == Some(SeriesNodes(b, old(graph.nodes)).error) && graph.nodes == old(graph.nodes)
    ensures SeriesNodes(b, old(graph.nodes)).Success? ==>
      thrown == None && graph.nodes == SeriesNodes(b, old(graph.nodes)).value
  {
    KeysDotFree();
    if b.series.None? {
      return None;
    }
    var objs := b.series.value;
    var seriesList: seq<Value> := [];
    var i := 0;
    while i < |objs|
      invariant 0 <= i <= |objs|
      invariant SeriesList(b, objs[..i]) == Success(seriesList)
      invariant graph.nodes == old(graph.nodes)
    {
      var entry := BuildSeriesEntry(b, objs[i]);
      EntryListStep(SeriesEntryFn(b), objs, i);
      if entry.Failure? {
        PrefixFailure(SeriesEntryFn(b), objs, i + 1);
        assert SeriesList(b, objs) == Failure(entry.error);
        assert SeriesNodes(b, graph.nodes) == Failure(entry.error);
        return Some(entry.error);
      }
      seriesList := seriesList + [Graph(entry.value.nodes)];
      i := i + 1;
    }
    assert objs[..i] == objs;
    assert SeriesNodes(b, graph.nodes) == Success(graph.nodes["series" := List(seriesList)]);
    PlainPut(graph.nodes, "series", List(seriesList));
    graph.TakeValueForKeyPath(List(seriesList), Some("series"));
    return None;
  }

  /** A binding key that fromRawBindings writes: its first '.' comes after at
      least one character. */
  predicate IsRawOption(key: string)
  {
    0 < FirstIndex(key, '.') < |key|
  }

  /** The same test, stated without indexOf: a non-empty key that does not
      start with '.' and contains a '.'. */
  lemma RawOptionIff(key: string)
    ensures IsRawOption(key) <==> key != "" && key[0] != '.' && '.' in key
  {
    FirstIndexSpec(key, '.');
  }

  /** fromRawBindings on a graph's entries: every raw option binding, in
      order, written at its own key path. */
  function RawFold(m: map<string, Value>, raw: seq<(string, Value)>): map<string, Value>
    decreases |raw|
  {
    if raw == [] then m
    else
      var acc := RawFold(m, raw[..|raw| - 1]);
      var (key, value) := raw[|raw| - 1];
      if IsRawOption(key) then PutPath(acc, key, value) else acc
  }

  /** A top-level entry that no raw option key passes through is untouched;
      in particular no dot-free binding ("graph", "series", ...) is ever
      copied into the graph. */
  lemma {:induction false} RawFoldKeeps(m: map<string, Value>, raw: seq<(string, Value)>, h: string)
    requires forall i :: 0 <= i < |raw| && IsRawOption(raw[i].0) ==> Head(raw[i].0) != h
    ensures (h in RawFold(m, raw) <==> h in m) && Lookup(RawFold(m, raw), h) == Lookup(m, h)
    decreases |raw|
  {
    if raw != [] {
      var n := |raw| - 1;
      RawFoldKeeps(m, raw[..n], h);
      PutFrame(RawFold(m, raw[..n]), raw[n].0, raw[n].1);
    }
  }

  /** A raw option that is the only raw option below its head, written over a
      graph where its path is traversable, reads back as its value after all
      raw bindings. */
  lemma {:induction false} RawOptionLands(m: map<string, Value>, raw: seq<(string, Value)>, i: nat)
    requires i < |raw| && IsRawOption(raw[i].0) && Traversable(m, raw[i].0)
    requires forall j :: 0 <= j < |raw| && j != i && IsRawOption(raw[j].0) ==> Head(raw[j].0) != Head(raw[i].0)
    ensures GetPath(RawFold(m, raw), raw[i].0) == raw[i].1
    decreases |raw|
  {
    var (key, value) := raw[i];
    var n := |raw| - 1;
    var prefix := raw[..n];
    var acc := RawFold(m, prefix);
    if i == n {
      RawFoldKeeps(m, prefix, Head(key));
      TraversableThroughHead(acc, m, key);
      GetAfterPut(acc, key, value);
    } else {
      RawOptionLands(m, prefix, i);
      if IsRawOption(raw[n].0) {
        PutFrame(acc, raw[n].0, raw[n].1);
        GetThroughHead(RawFold(m, raw), acc, key);
      }
    }
  }

  /** fromRawBindings: each binding key that passes the raw-option test is
      written into the graph at its key path, in binding order. */
  method FromRawBindings(graph: KVCAExtensionGraph, raw: seq<(string, Value)>)
    modifies graph
    ensures graph.nodes == RawFold(old(graph.nodes), raw)
  {
    ghost var start := graph.nodes;
    for i := 0 to |raw|
      invariant graph.nodes == RawFold(start, raw[..i])
    {
      var (key, value) := raw[i];
      assert raw[..i + 1][..i] == raw[..i];
      if IsRawOption(key) {
        graph.TakeValueForKeyPath(value, Some(key));
      }
    }
    assert raw[..|raw|] == raw;
  }

  /** The bound overlay graph's entries, or `None` when it is null. */
  function BoundNodes(bound: KVCAExtensionGraph?): Option<map<string, Value>>
    reads bound
  {
    if bound == null then None else Some(bound.nodes)
  }

  /** The base component's graph(): series on a fresh graph, then the bound
      overlay, then the raw option bindings. */
  function ComponentOptions(b: Bindings, bound: Option<map<string, Value>>, order: seq<string>): Result<map<string, Value>, Thrown>
  {
    var withSeries :- SeriesNodes(b, map[]);
    Success(RawFold(ApplyBound(withSeries, bound, order), b.raw))
  }

  /** graph() fails exactly when series are bound and one of them fails. */
  lemma ComponentFailsOnlyInSeries(b: Bindings, bound: Option<map<string, Value>>, order: seq<string>)
    ensures ComponentOptions(b, bound, order).Failure? <==> b.series.Some? && SeriesList(b, b.series.value).Failure?
  {
  }

  /** The overlay is applied after the series: a top-level "series" entry of
      the overlay replaces the built series, unless a raw option passes
      through "series". */
  lemma OverlayBeatsSeries(b: Bindings, supp: map<string, Value>, order: seq<string>)
    requires IsEnumeration(order, supp.Keys)
    requires "series" in supp && forall j :: j in supp && j != "series" ==> Head(j) != "series"
    requires forall i :: 0 <= i < |b.raw| && IsRawOption(b.raw[i].0) ==> Head(b.raw[i].0) != "series"
    requires ComponentOptions(b, Some(supp), order).Success?
    ensures Lookup(ComponentOptions(b, Some(supp), order).value, "series") == supp["series"]
  {
    var withSeries := SeriesNodes(b, map[]).value;
    ApplyBoundReplaces(withSeries, supp, order, "series");
    RawFoldKeeps(ApplyBound(withSeries, Some(supp), order), b.raw, "series");
  }

  /** Raw option bindings are written last: one that is alone below its head,
      and whose path the series and the overlay leave traversable, reads back
      as its bound value in the final graph, whatever the overlay set there. */
  lemma RawBindingsWin(b: Bindings, bound: Option<map<string, Value>>, order: seq<string>, i: nat)
    requires ComponentOptions(b, bound, order).Success?
    requires i < |b.raw| && IsRawOption(b.raw[i].0)
    requires Traversable(ApplyBound(SeriesNodes(b, map[]).value, bound, order), b.raw[i].0)
    requires forall j :: 0 <= j < |b.raw| && j != i && IsRawOption(b.raw[j].0) ==> Head(b.raw[j].0) != Head(b.raw[i].0)
    ensures GetPath(ComponentOptions(b, bound, order).value, b.raw[i].0) == b.raw[i].1
  {
    RawOptionLands(ApplyBound(SeriesNodes(b, map[]).value, bound, order), b.raw, i);
  }

  /** ERHighchartComponent.graph(). A series failure escapes before the
      overlay is applied, so it does not depend on the key order. */
  method ComponentGraph(b: Bindings, bound: KVCAExtensionGraph?) returns (r: Result<KVCAExtensionGraph, Thrown>, ghost order: seq<string>)
    ensures SeriesNodes(b, map[]).Failure? ==>
      r == Failure(SeriesNodes(b, map[]).error) && ComponentOptions(b, BoundNodes(bound), order).Failure?
    ensures SeriesNodes(b, map[]).Success? ==>
      && Enumerates(order, BoundNodes(bound))
      && r.Success? && fresh(r.value)
      && r.value.nodes == ComponentOptions(b, BoundNodes(bound), order).value
  {
    var graph := new KVCAExtensionGraph();
    var thrown := BuildSeries(graph, b);
    if thrown.Some? {
      return Failure(thrown.value), [];
    }
    order := graph.Apply(bound);
    FromRawBindings(graph, b.raw);
    return Success(graph), order;
  }

  /** The categories binding, when bound, written at xAxis.categories. */
  function WithCategories(m: map<string, Value>, categories: Option<seq<Value>>): map<string, Value>
  {
    match categories
    case None => m
    case Some(c) => PutPath(m, XAxisCategories, List(c))
  }

  /** The categories write of the bar and column charts: made only when the
      binding is bound. */
  method TakeCategories(graph: KVCAExtensionGraph, categories: Option<seq<Value>>)
    modifies graph
    ensures graph.nodes == WithCategories(old(graph.nodes), categories)
  {
    if categories.Some? {
      graph.TakeValueForKeyPath(List(categories.value), Some(XAxisCategories));
    }
  }

  /** What the bar, column, area and scatter charts build before the overlay:
      their defaults on a new graph, the shared series, then the categories
      for the charts that write them (`None` for the others). */
  function ChartBase(defaults: map<string, Value>, b: Bindings, categories: Option<seq<Value>>): Result<map<string, Value>, Thrown>
  {
    var m :- SeriesNodes(b, defaults);
    Success(WithCategories(m, categories))
  }

  /** Over a graph without "xAxis", the categories write keeps every other
      entry and adds "xAxis" exactly when categories are given, holding only
      them. */
  lemma WithCategoriesSpec(m: map<string, Value>, categories: Option<seq<Value>>)
    requires "xAxis" !in m
    ensures var r := WithCategories(m, categories);
      && (forall k :: k != "xAxis" ==> (k in r <==> k in m) && Lookup(r, k) == Lookup(m, k))
      && ("xAxis" in r <==> categories.Some?)
      && (categories.Some? ==> r["xAxis"] == Graph(map["categories" := List(categories.value)]))
  {
    KeysDotFree();
    if categories.Some? {
      TwoLevelSplits();
      PutTwoLevel(m, "xAxis", "categories", List(categories.value));
    }
  }

  /** Over defaults that hold neither "series" nor "xAxis", the base fails
      exactly when the series do; otherwise it keeps every default, holds
      "series" exactly when series are bound, with their list, and holds
      "xAxis" exactly when categories are given, with only those categories. */
  lemma ChartBaseSpec(defaults: map<string, Value>, b: Bindings, categories: Option<seq<Value>>)
    requires "series" !in defaults && "xAxis" !in defaults
    ensures var r := ChartBase(defaults, b, categories);
      && (r.Failure? <==> b.series.Some? && SeriesList(b, b.series.value).Failure?)
      && (r.Success? ==>
            && (forall k :: k != "series" && k != "xAxis" ==>
                  (k in r.value <==> k in defaults) && Lookup(r.value, k) == Lookup(defaults, k))
            && ("series" in r.value <==> b.series.Some?)
            && (b.series.Some? ==> r.value["series"] == List(SeriesList(b, b.series.value).value))
            && ("xAxis" in r.value <==> categories.Some?)
            && (categories.Some? ==> r.value["xAxis"] == Graph(map["categories" := List(categories.value)])))
  {
    SeriesNodesSpec(b, defaults);
    if SeriesNodes(b, defaults).Success? {
      var m := SeriesNodes(b, defaults).value;
      WithCategoriesSpec(m, categories);
    }
  }

  /** A default whose head is neither "series" nor "xAxis", and which no
      overlay key passes through, reads the same in the overlaid base as in
      the defaults. */
  lemma DefaultSurvivesOverlay(defaults: map<string, Value>, b: Bindings, categories: Option<seq<Value>>,
                               bound: Option<map<string, Value>>, order: seq<string>, path: string)
    requires "series" !in defaults && "xAxis" !in defaults
    requires Head(path) != "series" && Head(path) != "xAxis"
    requires ChartBase(defaults, b, categories).Success?
    requires Enumerates(order, bound) && !TouchesHead(bound, Head(path))
    ensures GetPath(ApplyBound(ChartBase(defaults, b, categories).value, bound, order), path) == GetPath(defaults, path)
  {
    var m := ChartBase(defaults, b, categories).value;
    ChartBaseSpec(defaults, b, categories);
    OverlayKeepsPath(m, bound, order, path);
    GetThroughHead(m, defaults, path);
  }
}
