/**
 * The data behind the three charts (`drawScatterPlot`, `drawHeatmap`,
 * `drawLineChart`). Each chart projects one field of every feature, groups
 * the projected records by street keeping the first, and builds its scale
 * domains from the grouped records. SVG marks, axes and pixel positions are
 * not part of the model.
 */
module Charts {
  import opened Wrappers
  import opened JsValues
  import opened Features
  import opened Grouping
  import opened Scales

  const FrequentTimeKey: string := "Frequent_Time"
  const CrimeCountKey: string := "Crime_Count"

  /** A chart record: the feature's street and the field the chart plots. */
  type ChartRecord = Record<JsValue, JsValue>

  /** The scatter plot: one point per street, its y-axis titled with the metric. */
  datatype ScatterPlot = ScatterPlot(points: seq<ChartRecord>, xDomain: seq<JsValue>, yDomain: LinearDomain, yTitle: string)

  /** The heatmap: one cell per street, at that street's peak hour. */
  datatype Heatmap = Heatmap(cells: seq<ChartRecord>, xDomain: seq<int>, yDomain: seq<JsValue>, colorDomain: (int, int))

  /** The line chart: one vertex per street, at that street's crime count. */
  datatype LineChart = LineChart(points: seq<ChartRecord>, xDomain: seq<JsValue>, yDomain: LinearDomain)

  /** What the three SVG elements show after a redraw. */
  datatype ChartSet = ChartSet(scatter: ScatterPlot, heatmap: Heatmap, line: LineChart)

  /** `features.map(f => ({ street: f.properties.cleaned_block, value: f.properties[metric] }))`. */
  function ScatterRecords(fs: seq<Feature>, metric: string): (rs: seq<ChartRecord>)
    ensures |rs| == |fs|
    ensures forall i :: 0 <= i < |fs| ==> rs[i] == Record(StreetOf(fs[i]), Get(fs[i].properties, metric))
  {
    seq(|fs|, i requires 0 <= i < |fs| => Record(StreetOf(fs[i]), Get(fs[i].properties, metric)))
  }

  /** `features.map(f => ({ street: f.properties.cleaned_block, hour: +f.properties.Frequent_Time }))`. */
  function HeatmapRecords(fs: seq<Feature>): (rs: seq<ChartRecord>)
    ensures |rs| == |fs|
    ensures forall i :: 0 <= i < |fs| ==> rs[i] == Record(StreetOf(fs[i]), ToNumber(Get(fs[i].properties, FrequentTimeKey)))
  {
    seq(|fs|, i requires 0 <= i < |fs| => Record(StreetOf(fs[i]), ToNumber(Get(fs[i].properties, FrequentTimeKey))))
  }

  /** `features.map(f => ({ street: f.properties.cleaned_block, value: f.properties.Crime_Count }))`. */
  function LineRecords(fs: seq<Feature>): (rs: seq<ChartRecord>)
    ensures |rs| == |fs|
    ensures forall i :: 0 <= i < |fs| ==> rs[i] == Record(StreetOf(fs[i]), Get(fs[i].properties, CrimeCountKey))
  {
    seq(|fs|, i requires 0 <= i < |fs| => Record(StreetOf(fs[i]), Get(fs[i].properties, CrimeCountKey)))
  }

  function Values(rs: seq<ChartRecord>): (vs: seq<JsValue>)
    ensures |vs| == |rs|
    ensures forall i :: 0 <= i < |rs| ==> vs[i] == rs[i].value
  {
    seq(|rs|, i requires 0 <= i < |rs| => rs[i].value)
  }

  /** The set of street values the features carry. */
  function FeatureStreets(fs: seq<Feature>): set<JsValue>
  {
    set i | 0 <= i < |fs| :: StreetOf(fs[i])
  }

  /** Projected records name the features' streets. */
  lemma ProjectedStreets(fs: seq<Feature>, rs: seq<ChartRecord>)
    requires |rs| == |fs| && forall i :: 0 <= i < |fs| ==> rs[i].street == StreetOf(fs[i])
    ensures StreetSet(rs) == FeatureStreets(fs)
  {
    forall x | x in FeatureStreets(fs) ensures x in StreetSet(rs) {
      var i :| 0 <= i < |fs| && StreetOf(fs[i]) == x;
      assert rs[i].street == x;
    }
  }

  /**
   * A grouping of projected records: the first record of every street,
   * every street once, in first-seen order, and an x-domain listing
   * exactly those streets in that order.
   */
  lemma GroupedProjection(fs: seq<Feature>, rs: seq<ChartRecord>)
    requires |rs| == |fs| && forall i :: 0 <= i < |fs| ==> rs[i].street == StreetOf(fs[i])
    ensures IsFirstGrouping(rs, GroupFirst(rs))
    ensures StreetSet(GroupFirst(rs)) == FeatureStreets(fs)
    ensures BandDomain(Streets(GroupFirst(rs))) == Streets(GroupFirst(rs))
  {
    GroupFirstIsFirstGrouping(rs);
    ProjectedStreets(fs, rs);
    BandDomainOfDistinct(Streets(GroupFirst(rs)));
  }

  /** `drawScatterPlot` for the features and the selected metric. */
  function DrawScatterPlot(fs: seq<Feature>, metric: string): (p: ScatterPlot)
    ensures |p.points| <= |fs|
    ensures StreetSet(p.points) == FeatureStreets(fs)
    ensures p.xDomain == Streets(p.points)
    ensures p.yTitle == metric
  {
    var g := GroupFirst(ScatterRecords(fs, metric));
    ProjectedStreets(fs, ScatterRecords(fs, metric));
    BandDomainOfDistinct(Streets(g));
    ScatterPlot(g, BandDomain(Streets(g)), YDomain(Values(g)), metric)
  }

  /** `drawHeatmap` for the features. */
  function DrawHeatmap(fs: seq<Feature>): (h: Heatmap)
    ensures |h.cells| <= |fs|
    ensures StreetSet(h.cells) == FeatureStreets(fs)
    ensures h.yDomain == Streets(h.cells)
    ensures h.xDomain == Range(24)
    ensures h.colorDomain == (0, 23)
  {
    var g := GroupFirst(HeatmapRecords(fs));
    ProjectedStreets(fs, HeatmapRecords(fs));
    BandDomainOfDistinct(Streets(g));
    Heatmap(g, HourDomain(), BandDomain(Streets(g)), ColorDomain)
  }

  /** `drawLineChart` for the features. */
  function DrawLineChart(fs: seq<Feature>): (l: LineChart)
    ensures |l.points| <= |fs|
    ensures StreetSet(l.points) == FeatureStreets(fs)
    ensures l.xDomain == Streets(l.points)
  {
    var g := GroupFirst(LineRecords(fs));
    ProjectedStreets(fs, LineRecords(fs));
    BandDomainOfDistinct(Streets(g));
    LineChart(g, BandDomain(Streets(g)), YDomain(Values(g)))
  }

  /**
   * The scatter plot shows every street of the features once, with its
   * first record, in first-seen order; its x-domain lists those streets in
   * that order; its y-domain is `[0, max]` over the shown values; its y-axis
   * is titled with the metric.
   */
  lemma ScatterPlotSpec(fs: seq<Feature>, metric: string)
    ensures IsFirstGrouping(ScatterRecords(fs, metric), DrawScatterPlot(fs, metric).points)
    ensures StreetSet(DrawScatterPlot(fs, metric).points) == FeatureStreets(fs)
    ensures |DrawScatterPlot(fs, metric).points| <= |fs|
    ensures DrawScatterPlot(fs, metric).xDomain == Streets(DrawScatterPlot(fs, metric).points)
    ensures DrawScatterPlot(fs, metric).yDomain == YDomain(Values(DrawScatterPlot(fs, metric).points))
    ensures DrawScatterPlot(fs, metric).yTitle == metric
  {
    GroupedProjection(fs, ScatterRecords(fs, metric));
  }

  /**
   * The heatmap shows every street once, with the peak hour of its first
   * record (always a number or NaN), in first-seen order; its hour axis is
   * 0..23 and its colour domain [0, 23], whatever the data.
   */
  lemma HeatmapSpec(fs: seq<Feature>)
    ensures IsFirstGrouping(HeatmapRecords(fs), DrawHeatmap(fs).cells)
    ensures StreetSet(DrawHeatmap(fs).cells) == FeatureStreets(fs)
    ensures |DrawHeatmap(fs).cells| <= |fs|
    ensures DrawHeatmap(fs).yDomain == Streets(DrawHeatmap(fs).cells)
    ensures |DrawHeatmap(fs).xDomain| == 24
    ensures forall h :: 0 <= h < 24 ==> DrawHeatmap(fs).xDomain[h] == h
    ensures DrawHeatmap(fs).colorDomain == (0, 23)
    ensures forall k :: 0 <= k < |DrawHeatmap(fs).cells| ==>
      DrawHeatmap(fs).cells[k].value.Num? || DrawHeatmap(fs).cells[k].value.NaN?
  {
    var rs := HeatmapRecords(fs);
    GroupedProjection(fs, rs);
    GroupFirstKeepsFirst(rs);
  }

  /**
   * The line chart shows every street once, with the crime count of its
   * first record, in first-seen order; its y-domain is `[0, max]` over the
   * shown counts.
   */
  lemma LineChartSpec(fs: seq<Feature>)
    ensures IsFirstGrouping(LineRecords(fs), DrawLineChart(fs).points)
    ensures StreetSet(DrawLineChart(fs).points) == FeatureStreets(fs)
    ensures |DrawLineChart(fs).points| <= |fs|
    ensures DrawLineChart(fs).xDomain == Streets(DrawLineChart(fs).points)
    ensures DrawLineChart(fs).yDomain == YDomain(Values(DrawLineChart(fs).points))
  {
    GroupedProjection(fs, LineRecords(fs));
  }

  /**
   * The three charts drawn from the held street data and the selected
   * metric. All three list the same streets in the same order, whatever
   * fields they plot.
   */
  function DrawCharts(fs: seq<Feature>, metric: string): (c: ChartSet)
    ensures Streets(c.scatter.points) == Streets(c.heatmap.cells)
    ensures Streets(c.heatmap.cells) == Streets(c.line.points)
  {
    var s, h, l := ScatterRecords(fs, metric), HeatmapRecords(fs), LineRecords(fs);
    assert Streets(s) == Streets(h) == Streets(l);
    GroupFirstStreetsOnly(s, h);
    GroupFirstStreetsOnly(h, l);
    ChartSet(DrawScatterPlot(fs, metric), DrawHeatmap(fs), DrawLineChart(fs))
  }

  /** A feature is the first one that carries its street. */
  predicate FirstOfStreet(fs: seq<Feature>, i: nat)
    requires i < |fs|
  {
    forall j :: 0 <= j < i ==> StreetOf(fs[j]) != StreetOf(fs[i])
  }

  /** `r` is the record projected from the first feature that carries its street. */
  ghost predicate FromFirstFeature(fs: seq<Feature>, rs: seq<ChartRecord>, r: ChartRecord)
  {
    exists i: nat :: i < |fs| && i < |rs| && FirstOfStreet(fs, i) && r == rs[i]
  }

  /**
   * Every grouped record is the projection of the first feature of its
   * street: later features of the same street are dropped, never merged.
   */
  lemma GroupedRecordsComeFromFirstFeatures(fs: seq<Feature>, rs: seq<ChartRecord>)
    requires |rs| == |fs| && forall i :: 0 <= i < |fs| ==> rs[i].street == StreetOf(fs[i])
    ensures forall k :: 0 <= k < |GroupFirst(rs)| ==> FromFirstFeature(fs, rs, GroupFirst(rs)[k])
  {
    GroupFirstKeepsFirst(rs);
    forall k | 0 <= k < |GroupFirst(rs)| ensures FromFirstFeature(fs, rs, GroupFirst(rs)[k]) {
      var i := FirstIndex(rs, GroupFirst(rs)[k].street);
      assert FirstOfStreet(fs, i);
    }
  }

  /** The scatter plot shows, for every street, the selected metric of its first feature. */
  lemma ScatterShowsFirstFeatureMetric(fs: seq<Feature>, metric: string)
    ensures forall k: nat :: k < |DrawScatterPlot(fs, metric).points| ==>
      exists i: nat :: i < |fs| && FirstOfStreet(fs, i) &&
        DrawScatterPlot(fs, metric).points[k] == Record(StreetOf(fs[i]), Get(fs[i].properties, metric))
  {
    var rs := ScatterRecords(fs, metric);
    var g := DrawScatterPlot(fs, metric).points;
    GroupedRecordsComeFromFirstFeatures(fs, rs);
    forall k: nat | k < |g|
      ensures exists i: nat :: i < |fs| && FirstOfStreet(fs, i) && g[k] == Record(StreetOf(fs[i]), Get(fs[i].properties, metric))
    {
      assert FromFirstFeature(fs, rs, g[k]);
      var i: nat :| i < |fs| && i < |rs| && FirstOfStreet(fs, i) && g[k] == rs[i];
      assert g[k] == Record(StreetOf(fs[i]), Get(fs[i].properties, metric));
    }
  }

  /** The heatmap places every street at the peak hour of its first feature. */
  lemma HeatmapShowsFirstFeatureHour(fs: seq<Feature>)
    ensures forall k: nat :: k < |DrawHeatmap(fs).cells| ==>
      exists i: nat :: i < |fs| && FirstOfStreet(fs, i) &&
        DrawHeatmap(fs).cells[k] == Record(StreetOf(fs[i]), ToNumber(Get(fs[i].properties, FrequentTimeKey)))
  {
    var rs := HeatmapRecords(fs);
    var g := DrawHeatmap(fs).cells;
    GroupedRecordsComeFromFirstFeatures(fs, rs);
    forall k: nat | k < |g|
      ensures exists i: nat :: i < |fs| && FirstOfStreet(fs, i) && g[k] == Record(StreetOf(fs[i]), ToNumber(Get(fs[i].properties, FrequentTimeKey)))
    {
      assert FromFirstFeature(fs, rs, g[k]);
      var i: nat :| i < |fs| && i < |rs| && FirstOfStreet(fs, i) && g[k] == rs[i];
      assert g[k] == Record(StreetOf(fs[i]), ToNumber(Get(fs[i].properties, FrequentTimeKey)));
    }
  }

  /** The line chart shows, for every street, the crime count of its first feature. */
  lemma LineShowsFirstFeatureCount(fs: seq<Feature>)
    ensures forall k: nat :: k < |DrawLineChart(fs).points| ==>
      exists i: nat :: i < |fs| && FirstOfStreet(fs, i) &&
        DrawLineChart(fs).points[k] == Record(StreetOf(fs[i]), Get(fs[i].properties, CrimeCountKey))
  {
    var rs := LineRecords(fs);
    var g := DrawLineChart(fs).points;
    GroupedRecordsComeFromFirstFeatures(fs, rs);
    forall k: nat | k < |g|
      ensures exists i: nat :: i < |fs| && FirstOfStreet(fs, i) && g[k] == Record(StreetOf(fs[i]), Get(fs[i].properties, CrimeCountKey))
    {
      assert FromFirstFeature(fs, rs, g[k]);
      var i: nat :| i < |fs| && i < |rs| && FirstOfStreet(fs, i) && g[k] == rs[i];
      assert g[k] == Record(StreetOf(fs[i]), Get(fs[i].properties, CrimeCountKey));
    }
  }

  /** Only the scatter plot depends on the selected metric; the heatmap and the line chart never do. */
  lemma OnlyScatterDependsOnMetric(fs: seq<Feature>, m1: string, m2: string)
    ensures DrawCharts(fs, m1).heatmap == DrawCharts(fs, m2).heatmap
    ensures DrawCharts(fs, m1).line == DrawCharts(fs, m2).line
  {
  }
}
