# ERHighcharts options graph, in Dafny

ERHighcharts is a WebObjects component library that renders Highcharts
charts. Each chart component builds a Highcharts options object as a
`KVCAExtensionGraph`. This is a string-keyed dictionary whose dotted key paths
(`"chart.type"`) create nested graphs on write and return null on read when
nothing is there. The component then writes its render target and defaults
into the graph and hands it to a JSON writer.

This project models that core:

- **`GraphPaths`, `KVCAGraph`, `Overlay`.** The graph (`KVCAExtensionGraph.java`):
  - key and key-path reads and writes;
  - writes that create intermediate graphs;
  - writes that are lost under a leaf;
  - `apply`, which copies an overlay graph in key by key.

  The root graph is a class with a `nodes` map. Nested graphs are values.
  Reads and writes by path are the functions `GetPath` and `PutPath`. The
  class methods are proved against them.
- **`Serializers`, `HighchartsFunctions`, `Text`.** The leaf encoders:
  - Joda and NSTimestamp dates become `Date.UTC(y,m,d,h,mi,s)`, with the
    Joda month shifted to 0-based;
  - a raw JavaScript function body is written after `" : "`.
- **`Records`, `Component`.** The shared series building of
  `ERHighchartComponent`:
  - the three-tier key-path choice (mapping, key-path binding, default name);
  - the optional `pointStart`/`pointInterval`/`type` keys, read through a
    lookup that swallows failures;
  - raw dotted bindings;
  - the base `graph()`.
- **`BarChart`, `ColumnChart`, `AreaChart`, `ScatterChart`, `PieChart`.** Each
  chart's `graph()`. The chart writes its defaults, builds the series (the pie
  builds one series of wedges), adds categories where the chart has them, and
  applies the bound overlay last. The bar chart writes its type once more
  after the overlay.
- **`HighchartComponent`.** `ERHighchart`:
  - the container id and style;
  - `chartString`, which writes `chart.renderTo`, `chart.animation` and
    `plotOptions.series.animation` into the bound graph;
  - it fills in `credits.enabled` and `exporting.url` only where they read
    null, and throws when they hold a value of the wrong type;
  - it then serialises the graph.

Modelling choices:

- **Null.** Java `null` is `Value.Null`. A missing key also reads `Null`.
  `NSDictionary.get(k) != null` is modelled as key membership of the mappings.
- **Overlay key order.** `apply` visits the overlay's keys in hash-map order,
  which is unknown. `Apply` returns a ghost `order` (some enumeration of the
  keys), and every property is proved for all orders.
- **Bound series objects** are `Records`. A key-value object throws for a key
  path it does not know. A graph answers every path.
- **The pie chart** reads the name and value key paths from the
  `seriesNameKeyPath` and `seriesValueKeyPath` bindings. Its locals are named
  `wedgeNameKeyPath` and `wedgeValueKeyPath`, but these are the bindings they
  read.
- **`valueForKeyPath`** has a branch whose condition,
  `NSKeyValueCoding.class.isAssignableFrom(Object.class)` at
  `KVCAExtensionGraph.java:142`, is always false. The model returns null for
  every non-graph value in the middle of a path.

## Model

| member | source | states |
|---|---|---|
| GraphPaths.Lookup | Sources/er/highcharts/model/KVCAExtensionGraph.java:167-169 | a key the map lacks reads null, a present key reads its entry |
| GraphPaths.Split | Sources/er/highcharts/model/KVCAExtensionGraph.java:70-77 | no split exactly when the path has no dot; otherwise the path is head + "." + rest with a dot-free head |
| GraphPaths.Head | Sources/er/highcharts/model/KVCAExtensionGraph.java:70-77 | the first segment of a key path is dot-free, and a dot-free key is its own head |
| GraphPaths.SplitJoin | Sources/er/highcharts/model/KVCAExtensionGraph.java:70-77 | joining a dot-free head and a rest with "." splits back into that head and rest |
| GraphPaths.PlainPut | Sources/er/highcharts/model/KVCAExtensionGraph.java:103-106 | a dot-free key path writes exactly that key |
| GraphPaths.PutFrame | Sources/er/highcharts/model/KVCAExtensionGraph.java:64-108 | a key-path write adds at most the path's head and changes no other top-level entry |
| GraphPaths.GetAfterPut | Sources/er/highcharts/model/KVCAExtensionGraph.java:64-159 | reading a path right after writing it gives the written value when the path is traversable, and the old reading when the write was lost |
| GraphPaths.PutBlocked | Sources/er/highcharts/model/KVCAExtensionGraph.java:88-97 | a write whose path passes through a non-graph value changes nothing |
| GraphPaths.ReadableIsTraversable | Sources/er/highcharts/model/KVCAExtensionGraph.java:111-159 | a path that reads non-null can be written through |
| GraphPaths.PutVivifiesPrefix | Sources/er/highcharts/model/KVCAExtensionGraph.java:81-86 | after a deep write every prefix of the path reads a graph (missing levels are created as graphs) |
| GraphPaths.VivifyBelowHead | Sources/er/highcharts/model/KVCAExtensionGraph.java:81-99 | a prefix created below a head is a graph in the whole map |
| GraphPaths.EmptyTraversable | Sources/er/highcharts/model/KVCAExtensionGraph.java:81-86 | every path of a new graph can be written |
| GraphPaths.TraversableBelowHead | Sources/er/highcharts/model/KVCAExtensionGraph.java:79-97 | a dotted path is writable exactly when its head is null or a graph and the rest is writable below it |
| GraphPaths.GetBelowLeaf | Sources/er/highcharts/model/KVCAExtensionGraph.java:145-148 | every path below a non-graph value reads null |
| GraphPaths.PutKeepsDisjoint | Sources/er/highcharts/model/KVCAExtensionGraph.java:64-159 | a write leaves every path that is neither a prefix nor an extension of it reading as before |
| GraphPaths.DisjointBelowHead | Sources/er/highcharts/model/KVCAExtensionGraph.java:88-99 | a write that keeps a reading below a head keeps it in the whole map |
| GraphPaths.EmptyReadsNull | Sources/er/highcharts/model/KVCAExtensionGraph.java:111-159 | a new graph reads null at every path |
| GraphPaths.GetThroughHead | Sources/er/highcharts/model/KVCAExtensionGraph.java:111-159 | a path reading depends only on the entry at its head |
| GraphPaths.TraversableThroughHead | Sources/er/highcharts/model/KVCAExtensionGraph.java:64-108 | writability of a path depends only on the entry at its head |
| GraphPaths.PutOtherHead | Sources/er/highcharts/model/KVCAExtensionGraph.java:64-108 | a write under one head leaves the entry, the readings and the writability under every other head unchanged |
| GraphPaths.FreshGraphRoundTrip | Tests/er/highcharts/test/model/KVCAExtensionGraphTest.java:24-32 | a value written at any path of a new graph reads back at that path |
| GraphPaths.ShorterPathReplacesSubtree | Tests/er/highcharts/test/model/KVCAExtensionGraphTest.java:53-65 | writing a prefix after a deep write makes the prefix read the new value and, for a non-graph value, the deep path read null |
| GraphPaths.PutBelowHead | Sources/er/highcharts/model/KVCAExtensionGraph.java:79-99 | a dotted write puts back at the head a new graph (head null), the updated graph (head a graph), or nothing (head a leaf) |
| GraphPaths.GetBelowHead | Sources/er/highcharts/model/KVCAExtensionGraph.java:139-148 | a dotted read reads the rest inside the head's graph, and null when the head is not a graph |
| GraphPaths.PutTwoLevel | Sources/er/highcharts/model/KVCAExtensionGraph.java:79-106 | a two-segment write sets the inner key of the head's graph, creates the graph when the head is null, and is lost under a leaf |
| GraphPaths.GetTwoLevel | Sources/er/highcharts/model/KVCAExtensionGraph.java:139-155 | a two-segment read is the inner key of the head's graph, and null otherwise |
| GraphPaths.TwoLevelRoundTrip | Tests/er/highcharts/test/model/KVCAExtensionGraphTest.java:68-77 | after a two-segment write on a null or graph head, the head is a graph and the path reads the value |
| GraphPaths.TwoLevelSiblingKeeps | Sources/er/highcharts/model/KVCAExtensionGraph.java:88-99 | a two-segment write keeps every sibling key under the same head |
| KVCAGraph.KVCAExtensionGraph.constructor | Sources/er/highcharts/model/KVCAExtensionGraph.java:40 | a new graph is empty |
| KVCAGraph.KVCAExtensionGraph.TakeValueForKey | Sources/er/highcharts/model/KVCAExtensionGraph.java:162-164 | the key is set to the value and every other key is unchanged |
| KVCAGraph.KVCAExtensionGraph.ValueForKey | Sources/er/highcharts/model/KVCAExtensionGraph.java:167-169 | the entry at the key, null when absent |
| KVCAGraph.KVCAExtensionGraph.TakeValueForKeyPath | Sources/er/highcharts/model/KVCAExtensionGraph.java:64-108 | a null key path changes nothing; otherwise the new map is the key-path write into the old one |
| KVCAGraph.KVCAExtensionGraph.ValueForKeyPath | Sources/er/highcharts/model/KVCAExtensionGraph.java:111-159 | a null key path reads null; otherwise the key-path read of the map |
| KVCAGraph.KVCAExtensionGraph.Apply | Sources/er/highcharts/model/KVCAExtensionGraph.java:177-187 | a null overlay changes nothing; otherwise the new map is the old one with every overlay key written by key path, in some enumeration of the overlay's keys |
| Overlay.ApplyKeeps | Sources/er/highcharts/model/KVCAExtensionGraph.java:181-184 | an entry no overlay key starts with is kept as it was |
| Overlay.ApplyAddsHeads | Sources/er/highcharts/model/KVCAExtensionGraph.java:181-184 | the head of every overlay key is present afterwards |
| Overlay.ApplyReplaces | Sources/er/highcharts/model/KVCAExtensionGraph.java:181-184 | a dot-free overlay key that no other overlay key starts with replaces the entry wholesale |
| Overlay.ApplyReplacesSubtree | Sources/er/highcharts/model/KVCAExtensionGraph.java:181-184 | under such a key every path reads what the overlay reads there |
| Overlay.ApplyPlainIsUnion | Sources/er/highcharts/model/KVCAExtensionGraph.java:177-187 | with dot-free overlay keys, apply is the map union with the overlay winning, in every key order |
| Overlay.ApplyFreshOverlayWins | Tests/er/highcharts/test/model/KVCAExtensionGraphTest.java:34-51 | an overlay built by one key-path write makes that path read the overlay's value |
| Overlay.ApplyBoundKeeps | Sources/er/highcharts/model/KVCAExtensionGraph.java:177-187 | with no overlay or no overlay key under a head, that head's entry is unchanged |
| Overlay.ApplyBoundReplaces | Sources/er/highcharts/model/KVCAExtensionGraph.java:181-184 | a bound overlay's dot-free key that no other key starts with ends with the overlay's entry |
| Overlay.OverlayKeepsPath | Sources/er/highcharts/model/KVCAExtensionGraph.java:177-187 | a path whose head the overlay does not touch reads as before |
| Overlay.OverlayDecidesHead | Sources/er/highcharts/model/KVCAExtensionGraph.java:181-184 | a path whose head is an overlay key (and no other key under it) reads what the overlay reads |
| Text.FirstIndexSpec | Sources/er/highcharts/model/KVCAExtensionGraph.java:70 | the first index of a character is within bounds, is an occurrence, is preceded by none, and is the length exactly when absent |
| Text.FirstIndexAfter | Sources/er/highcharts/model/KVCAExtensionGraph.java:70 | the first separator after a separator-free prefix is at the prefix's length |
| Text.DigitChar | Sources/er/highcharts/control/serializers/ERJodaDateTimeSerializer.java:31-34 | a digit character with the given value |
| Text.Digits | Sources/er/highcharts/control/serializers/ERJodaDateTimeSerializer.java:31-34 | a non-empty run of digits |
| Text.Decimal | Sources/er/highcharts/control/serializers/ERJodaDateTimeSerializer.java:31-34 | a non-empty numeral of digits with an optional leading minus |
| Text.ParseDigitsOfDigits | Sources/er/highcharts/control/serializers/ERJodaDateTimeSerializer.java:31-34 | the digits of a natural number parse back to it |
| Text.ParseDecimalOfDecimal | Sources/er/highcharts/control/serializers/ERJodaDateTimeSerializer.java:31-34 | the decimal text of an integer parses back to it |
| Text.DigitsNoLeadingZero | Sources/er/highcharts/control/serializers/ERJodaDateTimeSerializer.java:31-34 | a numeral starts with '0' exactly when it is the numeral of zero |
| Text.DecimalNoLeadingZero | Sources/er/highcharts/control/serializers/ERJodaDateTimeSerializer.java:31-34 | an integer's text has no leading zero, before or after a minus sign, so it is never read as an octal literal |
| Text.DecimalInjective | Sources/er/highcharts/components/chart/ERHighchart.java:82 | distinct integers have distinct decimal texts |
| Text.SplitOn | Sources/er/highcharts/control/serializers/ERJodaDateTimeSerializer.java:31-34 | splitting yields at least one part, none containing the separator |
| Text.SplitOnFirst | Sources/er/highcharts/control/serializers/ERJodaDateTimeSerializer.java:31-34 | splitting at the first separator yields the separator-free prefix first |
| Serializers.Decimals | Sources/er/highcharts/control/serializers/ERJodaDateTimeSerializer.java:31-34 | one decimal text per number, in order |
| Serializers.DecimalIsBare | Sources/er/highcharts/control/serializers/ERJodaDateTimeSerializer.java:31-34 | a number's text has no comma, space or quote |
| Serializers.SplitJoinCommas | Sources/er/highcharts/control/serializers/ERJodaDateTimeSerializer.java:31-34 | comma-free parts joined with commas split back into the same parts |
| Serializers.JoinCommasAvoids | Sources/er/highcharts/control/serializers/ERJodaDateTimeSerializer.java:31-34 | joining adds no character but commas |
| Serializers.ParseArgsOfDecimals | Sources/er/highcharts/control/serializers/ERJodaDateTimeSerializer.java:31-34 | the decimal texts of a list of numbers parse back to the list |
| Serializers.DecimalsAreBare | Sources/er/highcharts/control/serializers/ERJodaDateTimeSerializer.java:31-34 | no number text has a comma, space or quote |
| Serializers.DateUtcRoundTrip | Sources/er/highcharts/control/serializers/ERJodaDateTimeSerializer.java:31-34 | a Date.UTC call text parses back to its six arguments |
| Serializers.DateUtcIsBare | Sources/er/highcharts/control/serializers/ERJodaDateTimeSerializer.java:31-34 | a Date.UTC call text has no space or quote, so it is written as raw JavaScript |
| Serializers.SerializeJodaDateTime | Sources/er/highcharts/control/serializers/ERJodaDateTimeSerializer.java:28-35 | null is written as null; otherwise exactly the raw text `Date.UTC(y,m,d,h,mi,s)` with the month minus one, which reads back as those six numbers |
| Serializers.SerializeTimestamp | Sources/er/highcharts/control/serializers/ERNSTimestampSerializer.java:30-39 | null is written as null; otherwise exactly the raw text `Date.UTC(...)` of the calendar fields, the 0-based month unchanged, which reads back as those six numbers |
| Serializers.SameMonthSameText | Sources/er/highcharts/control/serializers/ERNSTimestampSerializer.java:35-38 | a Joda date with month m+1 and a timestamp with calendar month m give the same text |
| Serializers.JodaMonthIsZeroBased | Sources/er/highcharts/control/serializers/ERJodaDateTimeSerializer.java:32 | a Joda month 1..12 is written as 0..11, as JavaScript's Date.UTC expects |
| Serializers.SerializeFunction | Sources/er/highcharts/control/serializers/ERHighchartsFunctionSerializer.java:23-27 | a raw write of " : " followed by the body, verbatim ("null" for a null body) |
| Serializers.FunctionBodyVerbatim | Tests/er/highcharts/test/model/ERHighchartsFunctionTest.java:16-17 | a function made from a body is written as " : " + that body |
| HighchartsFunctions.NewHighchartsFunction | Sources/er/highcharts/model/ERHighchartsFunction.java:29-31 | the new function's body is the given value |
| Records.EntryListSpec | Sources/er/highcharts/components/ERHighchartComponent.java:171-190 | the list succeeds exactly when every object's entry does; then it holds one graph per object, in order; otherwise it fails with the first failing object's exception |
| Records.EntryListStep | Sources/er/highcharts/components/ERHighchartComponent.java:171-190 | one more loop pass fails with the object's exception or appends its entry |
| Records.PrefixFailure | Sources/er/highcharts/components/ERHighchartComponent.java:171-190 | once a prefix fails, the whole list fails with the same exception |
| Records.EntryListAgree | Sources/er/highcharts/components/chart/ERPieChart.java:79-100 | two entry builders that agree on every object build the same list |
| Component.PathFor | Sources/er/highcharts/components/ERHighchartComponent.java:175-180 | a mapping for the slot wins; otherwise the key path is the slot name or a non-empty key-path binding |
| Component.PathForPrecedence | Sources/er/highcharts/components/ERHighchartComponent.java:175-188 | mapping first, then a non-null non-empty key-path binding, then the slot name |
| Component.KeyPathForBoundName | Sources/er/highcharts/components/ERHighchartComponent.java:221-238 | an empty name gives null; a non-null result is what the object answers at the mapped path; a path the object answers gives its value; failures give null |
| Component.SeriesEntryFailure | Sources/er/highcharts/components/ERHighchartComponent.java:171-189 | an entry fails exactly when reading its name or data fails, with the name's exception first |
| Component.SeriesEntryContents | Sources/er/highcharts/components/ERHighchartComponent.java:173-206 | a built entry holds the object's name and data at the chosen paths, and no key but name, data, pointStart, pointInterval and type |
| Component.SeriesEntryOptional | Sources/er/highcharts/components/ERHighchartComponent.java:193-206 | pointStart, pointInterval and type are present exactly when their lookups are non-null, holding those values |
| Component.WithOptionalKeysSpec | Sources/er/highcharts/components/ERHighchartComponent.java:193-206 | the optional keys are added only where non-null, and name and data are kept |
| Component.GraphRecordNeverFails | Sources/er/highcharts/components/ERHighchartComponent.java:181-189 | a graph series object never makes an entry fail |
| Component.SeriesNodesSpec | Sources/er/highcharts/components/ERHighchartComponent.java:160-212 | with no series bound the graph is unchanged; the step fails exactly when a series entry fails; otherwise only "series" changes, to the list of entries |
| Component.BuildSeriesEntry | Sources/er/highcharts/components/ERHighchartComponent.java:173-206 | a fresh series graph holding the entry, or the entry's exception |
| Component.AddOptionalKeys | Sources/er/highcharts/components/ERHighchartComponent.java:193-206 | the entry gains exactly the non-null optional keys |
| Component.TakeIfPresent | Sources/er/highcharts/components/ERHighchartComponent.java:194-196 | a dot-free key is written only when the value is non-null |
| Component.BuildSeries | Sources/er/highcharts/components/ERHighchartComponent.java:160-212 | the graph becomes the series step's result, or is left unchanged with the first failing object's exception |
| Component.RawOptionIff | Sources/er/highcharts/components/ERHighchartComponent.java:264 | a binding key is a raw option exactly when it is non-empty, does not start with a dot and contains one |
| Component.RawFoldKeeps | Sources/er/highcharts/components/ERHighchartComponent.java:260-271 | an entry under no raw option's head is kept |
| Component.RawOptionLands | Sources/er/highcharts/components/ERHighchartComponent.java:260-271 | a raw option on a writable path, with no other raw option under its head, reads its binding's value afterwards |
| Component.FromRawBindings | Sources/er/highcharts/components/ERHighchartComponent.java:260-271 | the graph becomes the old one with every raw option written by key path, in binding order |
| Component.ComponentFailsOnlyInSeries | Sources/er/highcharts/components/ERHighchartComponent.java:110-120 | graph() fails exactly when a bound series object fails |
| Component.OverlayBeatsSeries | Sources/er/highcharts/components/ERHighchartComponent.java:113-115 | a bound overlay's "series" entry replaces the built series |
| Component.RawBindingsWin | Sources/er/highcharts/components/ERHighchartComponent.java:115-117 | raw dotted bindings are written after the overlay and read back |
| Component.ComponentGraph | Sources/er/highcharts/components/ERHighchartComponent.java:110-120 | a fresh graph holding the component's options, or the series exception |
| Component.TakeCategories | Sources/er/highcharts/components/chart/ERBarChart.java:59-62 | the graph gains xAxis.categories exactly when categories are bound |
| Component.WithCategoriesSpec | Sources/er/highcharts/components/chart/ERBarChart.java:59-62 | only "xAxis" changes, to a graph holding the categories list, and only when they are bound |
| Component.ChartBaseSpec | Sources/er/highcharts/components/chart/ERBarChart.java:50-62 | before the overlay a chart graph holds its defaults, the series list when bound, the categories when bound, and nothing else; it fails exactly when a series entry fails |
| Component.DefaultSurvivesOverlay | Sources/er/highcharts/components/chart/ERColumnChart.java:54-66 | a default under a head the overlay does not touch survives the overlay |
| OptionPaths.NewChartType | Sources/er/highcharts/components/chart/ERColumnChart.java:54 | the type default on a new graph is the single entry chart = {type} |
| OptionPaths.ChartTypeWrite | Sources/er/highcharts/components/chart/ERBarChart.java:69 | writing chart.type makes it read the type exactly when "chart" is null or a graph, and keeps every other entry |
| BarChart.BarBaseSpec | Sources/er/highcharts/components/chart/ERBarChart.java:50-62 | before the overlay "chart" is {type: bar}; it fails exactly when a series entry fails |
| BarChart.BarFailsOnlyInSeries | Sources/er/highcharts/components/chart/ERBarChart.java:50-72 | graph() fails exactly when a series entry fails |
| BarChart.BarTypeForced | Sources/er/highcharts/components/chart/ERBarChart.java:66-69 | after the final write chart.type reads "bar" exactly when the overlaid "chart" is null or a graph; nothing else changes |
| BarChart.BarOverlayTypeIgnored | Sources/er/highcharts/components/chart/ERBarChart.java:66-69 | an overlay asking for another chart type still yields a bar chart |
| BarChart.BarTypeLostUnderLeaf | Sources/er/highcharts/components/chart/ERBarChart.java:66-69 | an overlay putting a leaf at "chart" makes the final write lost, and chart.type reads null |
| BarChart.BarCategories | Sources/er/highcharts/components/chart/ERBarChart.java:59-62 | xAxis.categories holds the bound categories unless the overlay touches xAxis; with none bound there is no xAxis |
| BarChart.BarSeries | Sources/er/highcharts/components/chart/ERBarChart.java:56 | "series" holds the built list exactly when series are bound, unless the overlay touches it |
| BarChart.BarGraph | Sources/er/highcharts/components/chart/ERBarChart.java:50-72 | a fresh graph equal to the bar options for the overlay's key order, or the series exception |
| ColumnChart.ColumnFailsOnlyInSeries | Sources/er/highcharts/components/chart/ERColumnChart.java:50-69 | graph() fails exactly when a series entry fails |
| ColumnChart.ColumnTypeDefault | Sources/er/highcharts/components/chart/ERColumnChart.java:54-66 | chart.type is "column" unless the overlay touches "chart" |
| ColumnChart.ColumnChartReplaced | Sources/er/highcharts/components/chart/ERColumnChart.java:66 | an overlay "chart" entry replaces the default wholesale; chart.type reads null when it has no type |
| ColumnChart.ColumnOverlayTypeWins | Sources/er/highcharts/components/chart/ERColumnChart.java:66 | an overlay chart.type becomes the chart's type |
| ColumnChart.ColumnCategories | Sources/er/highcharts/components/chart/ERColumnChart.java:59-62 | xAxis.categories holds the bound categories unless the overlay touches xAxis; with none bound there is no xAxis |
| ColumnChart.ColumnSeries | Sources/er/highcharts/components/chart/ERColumnChart.java:56 | "series" holds the built list exactly when series are bound, unless the overlay touches it |
| ColumnChart.ColumnGraph | Sources/er/highcharts/components/chart/ERColumnChart.java:50-69 | a fresh graph equal to the column options, or the series exception |
| AreaChart.AreaFailsOnlyInSeries | Sources/er/highcharts/components/chart/ERAreaChart.java:45-57 | graph() fails exactly when a series entry fails |
| AreaChart.AreaTypeDefault | Sources/er/highcharts/components/chart/ERAreaChart.java:49-54 | chart.type is "area" unless the overlay touches "chart" |
| AreaChart.AreaChartReplaced | Sources/er/highcharts/components/chart/ERAreaChart.java:54 | an overlay "chart" entry replaces the default wholesale |
| AreaChart.AreaSeries | Sources/er/highcharts/components/chart/ERAreaChart.java:51 | "series" holds the built list exactly when series are bound, unless the overlay touches it |
| AreaChart.AreaNoCategories | Sources/er/highcharts/components/chart/ERAreaChart.java:45-57 | the area chart writes no xAxis of its own |
| AreaChart.AreaGraph | Sources/er/highcharts/components/chart/ERAreaChart.java:45-57 | a fresh graph equal to the area options, or the series exception |
| ScatterChart.ScatterDefaultsSpec | Sources/er/highcharts/components/chart/ERScatterChart.java:50-51 | the two default writes on a new graph give chart = {type: scatter, zoomType: xy} |
| ScatterChart.ScatterDefaultsRead | Sources/er/highcharts/components/chart/ERScatterChart.java:50-51 | the defaults read "scatter" and "xy" and have no series or xAxis |
| ScatterChart.ScatterFailsOnlyInSeries | Sources/er/highcharts/components/chart/ERScatterChart.java:46-60 | graph() fails exactly when a series entry fails |
| ScatterChart.ScatterDefaultsSurvive | Sources/er/highcharts/components/chart/ERScatterChart.java:50-57 | chart.type and chart.zoomType keep their defaults unless the overlay touches "chart" |
| ScatterChart.ScatterChartReplaced | Sources/er/highcharts/components/chart/ERScatterChart.java:57 | an overlay "chart" entry replaces both defaults wholesale |
| ScatterChart.ScatterSeries | Sources/er/highcharts/components/chart/ERScatterChart.java:53 | "series" holds the built list exactly when series are bound, unless the overlay touches it |
| ScatterChart.ScatterNoCategories | Sources/er/highcharts/components/chart/ERScatterChart.java:46-60 | the scatter chart writes no xAxis of its own |
| ScatterChart.ScatterGraph | Sources/er/highcharts/components/chart/ERScatterChart.java:46-60 | a fresh graph equal to the scatter options, or the series exception |
| PieChart.WedgeSpec | Sources/er/highcharts/components/chart/ERPieChart.java:80-96 | a wedge fails exactly when its name or value read fails (name first); otherwise it is exactly {name, y} |
| PieChart.PieDefaultsShape | Sources/er/highcharts/components/chart/ERPieChart.java:61-62 | the two default writes give chart = {type: pie} and plotOptions = {pie: {allowPointSelect: true}} |
| PieChart.PieDefaultsRead | Sources/er/highcharts/components/chart/ERPieChart.java:61-62 | the defaults read "pie" and true |
| PieChart.PieFailsOnlyInWedges | Sources/er/highcharts/components/chart/ERPieChart.java:65-106 | graph() fails exactly when a bound object's wedge fails, with the first such exception |
| PieChart.WedgeListContents | Sources/er/highcharts/components/chart/ERPieChart.java:79-100 | one {name, y} wedge per object, in order, read at the chosen paths |
| PieChart.PieSingleSeries | Sources/er/highcharts/components/chart/ERPieChart.java:75-105 | with objects bound, "series" is a single series of type pie whose data are the wedges |
| PieChart.PieNoSeries | Sources/er/highcharts/components/chart/ERPieChart.java:66 | with no objects bound there is no "series" |
| PieChart.PieDefaultsSurvive | Sources/er/highcharts/components/chart/ERPieChart.java:60-109 | each default survives unless the overlay touches its head |
| PieChart.PieBaseKeepsDefaults | Sources/er/highcharts/components/chart/ERPieChart.java:61-105 | the series step keeps "chart" and "plotOptions" as the defaults set them |
| PieChart.PieChartReplaced | Sources/er/highcharts/components/chart/ERPieChart.java:109 | an overlay "chart" entry replaces the default wholesale |
| PieChart.PieIgnoresOtherBindings | Sources/er/highcharts/components/chart/ERPieChart.java:65-70 | the pie reads only the series, mappings, name key-path and value key-path bindings |
| PieChart.BuildWedge | Sources/er/highcharts/components/chart/ERPieChart.java:80-96 | a fresh wedge graph, or the read's exception |
| PieChart.BuildPieSeries | Sources/er/highcharts/components/chart/ERPieChart.java:75-102 | a fresh pie series holding the wedge list, or the first wedge's exception |
| PieChart.TakePieSeries | Sources/er/highcharts/components/chart/ERPieChart.java:65-106 | the graph becomes the pie series step's result, or is unchanged with the exception |
| PieChart.PieGraph | Sources/er/highcharts/components/chart/ERPieChart.java:57-112 | a fresh graph equal to the pie options, or the wedge exception |
| HighchartComponent.ChartIdsDistinct | Sources/er/highcharts/components/chart/ERHighchart.java:80-85 | two components get the same container id exactly when their hash codes are equal |
| HighchartComponent.ChartStyle | Sources/er/highcharts/components/chart/ERHighchart.java:99-105 | the bound style, or "height: 400px;" when null or empty; never empty |
| HighchartComponent.SetIfNullSpec | Sources/er/highcharts/components/chart/ERHighchart.java:138-147 | a wrongly typed value throws a class cast; a non-null value is kept; a null on a writable path becomes the default; nothing outside the path's head changes |
| HighchartComponent.TargetedKeepsOthers | Sources/er/highcharts/components/chart/ERHighchart.java:133-135 | the target writes leave every path outside chart and plotOptions as it was |
| HighchartComponent.ChartWritesSet | Sources/er/highcharts/components/chart/ERHighchart.java:133-134 | on a null or graph "chart", renderTo and animation read what was written |
| HighchartComponent.SeriesAnimationSet | Sources/er/highcharts/components/chart/ERHighchart.java:133-135 | wherever plotOptions.series.animation can be written, it reads true after the three writes |
| HighchartComponent.TargetedSetsChart | Sources/er/highcharts/components/chart/ERHighchart.java:133-135 | after all three writes chart.renderTo is the container id, chart.animation is true, and plotOptions.series.animation is true wherever it can be written |
| HighchartComponent.FillInsKeepOthers | Sources/er/highcharts/components/chart/ERHighchart.java:138-147 | the fill-ins change nothing but "credits" and "exporting" |
| HighchartComponent.PrepareSetsTarget | Sources/er/highcharts/components/chart/ERHighchart.java:133-147 | the prepared graph carries the container id, the chart animation flag, and the series animation flag wherever it can be written |
| HighchartComponent.PrepareCredits | Sources/er/highcharts/components/chart/ERHighchart.java:138-141 | a Boolean credits flag is kept, a null one becomes false, and another value throws |
| HighchartComponent.PrepareUrl | Sources/er/highcharts/components/chart/ERHighchart.java:144-147 | a string URL is kept, a null one becomes the local transcode URL, and another value throws |
| HighchartComponent.PrepareThrowsIff | Sources/er/highcharts/components/chart/ERHighchart.java:138-147 | chartString throws exactly when the credits flag or the URL has the wrong type, the credits check first |
| HighchartComponent.PrepareFrame | Sources/er/highcharts/components/chart/ERHighchart.java:133-147 | no entry except chart, plotOptions, credits and exporting changes |
| HighchartComponent.TargetedFrame | Sources/er/highcharts/components/chart/ERHighchart.java:133-135 | the target writes change no entry except chart and plotOptions |
| HighchartComponent.OutcomeOf | Sources/er/highcharts/components/chart/ERHighchart.java:149-172 | a cast failure propagates; otherwise the JSON text, or "ERROR" when writing fails |
| HighchartComponent.WriteTargets | Sources/er/highcharts/components/chart/ERHighchart.java:133-135 | the bound graph receives the three target writes |
| HighchartComponent.FillIn | Sources/er/highcharts/components/chart/ERHighchart.java:138-147 | the graph is filled in where null, or left unchanged with the cast exception |
| HighchartComponent.ERHighchart.constructor | Sources/er/highcharts/components/chart/ERHighchart.java:80-85 | a new component has no cached container id |
| HighchartComponent.ERHighchart.ChartId | Sources/er/highcharts/components/chart/ERHighchart.java:80-85 | the id is "erhighcharts_" and the hash code, and it is cached |
| HighchartComponent.ERHighchart.ChartString | Sources/er/highcharts/components/chart/ERHighchart.java:122-174 | a null bound graph gives "ERROR"; otherwise the bound graph is prepared in place and the outcome is its serialisation or the cast exception |

## Left out

- Aliasing: `apply` stores the overlay's subgraphs by reference. In Java, a later write through them (the bar chart's final type write, `chartString`'s target writes, raw bindings) also changes the bound graph's subgraphs. The model copies values, so the bound graph is unchanged by those writes.
- Non-graph key-value objects in the middle of a path: Java delegates the rest of the path to them (`KVCAExtensionGraph.java:89-95`). The model treats every non-graph value as a leaf.
- `KVCAGraph.KVCAExtensionGraph.Apply`: the overlay is read as it was on entry, so applying a graph to itself is not modelled step by step.
- `HighchartComponent.ERHighchart.ChartString`: requires `Valid()`, the class invariant that a cached container id is the one for the hash code.
- Jackson's JSON writer is a parameter of `ChartString`, with `None` for a caught exception. The writer itself, its pretty printing and unquoted field names are not modelled.
- Date fields: the serialisers take the calendar fields as inputs. Joda and `java.util.Calendar` time-zone arithmetic is not modelled.
- Bindings (`valueForBinding`) are an input record. The values are taken at their declared types, so a wrongly typed binding's `ClassCastException` is not modelled.
- WebObjects plumbing is not modelled: the component lifecycle, the JavaScript resource list, `synchronizesVariablesWithBindings`, and framework registration.
- The request handler and the transcoding (HTTP) are not modelled. `localTranscodeURL()` and `hashCode()` are parameters.
- `dateStamp` depends on the clock and a property lookup, and is not modelled.
- Logging and the `System.out.println` in `fromRawBindings` are not modelled.
- Number width is not modelled: integers are unbounded and there are no floating-point values.
- A null element in the bound series list would throw a `NullPointerException` in Java. The model has no null records.
- The null key in a `HashMap` is not modelled.
