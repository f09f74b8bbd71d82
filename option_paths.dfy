/** The dotted option paths the chart components write. Each is spelled as
    its keys joined by ".", which is the same string as the literal path in
    the source and shows where the path is cut. */
module OptionPaths {
  import opened Wrappers
  import opened GraphPaths

  const ChartType: string := "chart" + "." + "type"
  const ChartZoomType: string := "chart" + "." + "zoomType"
  const ChartRenderTo: string := "chart" + "." + "renderTo"
  const ChartAnimation: string := "chart" + "." + "animation"
  const XAxisCategories: string := "xAxis" + "." + "categories"
  const CreditsEnabled: string := "credits" + "." + "enabled"
  const ExportingUrl: string := "exporting" + "." + "url"
  const PieAllowPointSelect: string := "plotOptions" + "." + ("pie" + "." + "allowPointSelect")
  const SeriesAnimation: string := "plotOptions" + "." + ("series" + "." + "animation")

  /** The keys the components write are plain keys, not paths. */
  lemma KeysDotFree()
    ensures '.' !in "chart"
    ensures '.' !in "type"
    ensures '.' !in "zoomType"
    ensures '.' !in "renderTo"
    ensures '.' !in "animation"
    ensures '.' !in "xAxis"
    ensures '.' !in "categories"
    ensures '.' !in "credits"
    ensures '.' !in "enabled"
    ensures '.' !in "exporting"
    ensures '.' !in "url"
    ensures '.' !in "plotOptions"
    ensures '.' !in "pie"
    ensures '.' !in "allowPointSelect"
    ensures '.' !in "series"
    ensures '.' !in "name"
    ensures '.' !in "data"
    ensures '.' !in "y"
    ensures '.' !in "pointStart"
    ensures '.' !in "pointInterval"
  {
    ChartKeysDotFree();
    AxisKeysDotFree();
    OptionKeysDotFree();
    SeriesKeysDotFree();
  }

  lemma ChartKeysDotFree()
    ensures '.' !in "chart"
    ensures '.' !in "type"
    ensures '.' !in "zoomType"
    ensures '.' !in "renderTo"
    ensures '.' !in "animation"
  {
  }

  lemma AxisKeysDotFree()
    ensures '.' !in "xAxis"
    ensures '.' !in "categories"
    ensures '.' !in "credits"
    ensures '.' !in "enabled"
    ensures '.' !in "exporting"
  {
  }

  lemma OptionKeysDotFree()
    ensures '.' !in "url"
    ensures '.' !in "plotOptions"
    ensures '.' !in "pie"
    ensures '.' !in "allowPointSelect"
    ensures '.' !in "series"
  {
  }

  lemma SeriesKeysDotFree()
    ensures '.' !in "name"
    ensures '.' !in "data"
    ensures '.' !in "y"
    ensures '.' !in "pointStart"
    ensures '.' !in "pointInterval"
  {
  }

  /** The two-level paths cut at their '.'. */
  lemma TwoLevelSplits()
    ensures Split(ChartType) == Some(("chart", "type"))
    ensures Split(ChartZoomType) == Some(("chart", "zoomType"))
    ensures Split(ChartRenderTo) == Some(("chart", "renderTo"))
    ensures Split(ChartAnimation) == Some(("chart", "animation"))
    ensures Split(XAxisCategories) == Some(("xAxis", "categories"))
    ensures Split(CreditsEnabled) == Some(("credits", "enabled"))
    ensures Split(ExportingUrl) == Some(("exporting", "url"))
  {
    KeysDotFree();
    SplitJoin("chart", "type");
    SplitJoin("chart", "zoomType");
    SplitJoin("chart", "renderTo");
    SplitJoin("chart", "animation");
    SplitJoin("xAxis", "categories");
    SplitJoin("credits", "enabled");
    SplitJoin("exporting", "url");
  }

  /** The chart type written into a new graph makes a "chart" graph holding
      only that type. */
  lemma NewChartType(t: string)
    ensures PutPath(map[], ChartType, Str(t)) == map["chart" := Graph(map["type" := Str(t)])]
  {
    KeysDotFree();
    PutTwoLevel(map[], "chart", "type", Str(t));
  }

  /** Writing the chart type into any graph: the type then reads as written
      exactly when "chart" held nothing or a graph, and no entry other than
      "chart" changes. */
  lemma ChartTypeWrite(m: map<string, Value>, t: string)
    ensures var r := PutPath(m, ChartType, Str(t));
      && (GetPath(r, ChartType) == Str(t) <==> Lookup(m, "chart").Null? || Lookup(m, "chart").Graph?)
      && (forall k :: k != "chart" ==> (k in r <==> k in m) && Lookup(r, k) == Lookup(m, k))
  {
    ChartKeysDotFree();
    PutTwoLevel(m, "chart", "type", Str(t));
    GetTwoLevel(PutPath(m, ChartType, Str(t)), "chart", "type");
    if !Lookup(m, "chart").Null? && !Lookup(m, "chart").Graph? {
      GetTwoLevel(m, "chart", "type");
    }
  }

  /** The three-level paths cut at their first '.'. */
  lemma ThreeLevelSplits()
    ensures Split(PieAllowPointSelect) == Some(("plotOptions", "pie" + "." + "allowPointSelect"))
    ensures Split("pie" + "." + "allowPointSelect") == Some(("pie", "allowPointSelect"))
    ensures Split(SeriesAnimation) == Some(("plotOptions", "series" + "." + "animation"))
    ensures Split("series" + "." + "animation") == Some(("series", "animation"))
  {
    KeysDotFree();
    SplitJoin("plotOptions", "pie" + "." + "allowPointSelect");
    SplitJoin("pie", "allowPointSelect");
    SplitJoin("plotOptions", "series" + "." + "animation");
    SplitJoin("series", "animation");
  }
}
