/**
 * The StreetMap component's state and its reactions. Three state slots —
 * the street data, the boundary data and the selected metric — are set by
 * the two fetch callbacks and the metric selector. Whenever the street data
 * or the selected metric changes and street data is present, each chart
 * clears its SVG and redraws from scratch; the three SVGs are fields here.
 * The network requests themselves are outside the model: a response arrives
 * as a parameter, `None` standing for a failed request.
 */
module StreetMapView {
  import opened Wrappers
  import opened JsValues
  import opened StreetNames
  import opened Features
  import opened Charts
  import opened MapOverlay

  /** The values the metric selector offers. */
  const MetricOptions: seq<string> := ["LVI", "LPI", "Street_Light_Outage"]

  const DefaultMetric: string := "LVI"

  /** The district outlines: kept as received and handed to the map. */
  datatype BoundaryCollection = BoundaryCollection(members: Properties)

  class StreetMap {
    var streetData: Option<FeatureCollection>
    var boundaryData: Option<BoundaryCollection>
    var selectedMetric: string

    /** The contents of the `#scatterplot`, `#heatmap` and `#linechart` SVGs; `None` while empty. */
    var scatterSvg: Option<ScatterPlot>
    var heatmapSvg: Option<Heatmap>
    var lineSvg: Option<LineChart>

    /**
     * The selected metric is one the selector offers, the held street names
     * are already normalised, and the three SVGs show exactly the charts of
     * the current street data and metric (and nothing before street data
     * has arrived).
     */
    ghost predicate Valid()
      reads this
    {
      && selectedMetric in MetricOptions
      && (streetData.Some? ==> HoldsNormalizedNames(streetData.value.features))
      && (streetData.None? ==> scatterSvg.None? && heatmapSvg.None? && lineSvg.None?)
      && (streetData.Some? ==>
            && scatterSvg == Some(DrawScatterPlot(streetData.value.features, selectedMetric))
            && heatmapSvg == Some(DrawHeatmap(streetData.value.features))
            && lineSvg == Some(DrawLineChart(streetData.value.features)))
    }

    /** Mounting: both data slots empty, the metric at its default, nothing drawn. */
    constructor ()
      ensures Valid()
      ensures streetData.None? && boundaryData.None? && selectedMetric == DefaultMetric
      ensures scatterSvg.None? && heatmapSvg.None? && lineSvg.None?
    {
      streetData, boundaryData, selectedMetric := None, None, DefaultMetric;
      scatterSvg, heatmapSvg, lineSvg := None, None, None;
    }

    method DrawScatterPlotSvg()
      requires streetData.Some?
      modifies this`scatterSvg
      ensures scatterSvg == Some(DrawScatterPlot(streetData.value.features, selectedMetric))
    {
      scatterSvg := None;
      scatterSvg := Some(DrawScatterPlot(streetData.value.features, selectedMetric));
    }

    method DrawHeatmapSvg()
      requires streetData.Some?
      modifies this`heatmapSvg
      ensures heatmapSvg == Some(DrawHeatmap(streetData.value.features))
    {
      heatmapSvg := None;
      heatmapSvg := Some(DrawHeatmap(streetData.value.features));
    }

    method DrawLineChartSvg()
      requires streetData.Some?
      modifies this`lineSvg
      ensures lineSvg == Some(DrawLineChart(streetData.value.features))
    {
      lineSvg := None;
      lineSvg := Some(DrawLineChart(streetData.value.features));
    }

    /** The chart effect: redraw all three charts when street data is present. */
    method ChartEffect()
      modifies this`scatterSvg, this`heatmapSvg, this`lineSvg
      ensures streetData.None? ==> unchanged(this)
      ensures streetData.Some? ==>
        && scatterSvg == Some(DrawScatterPlot(streetData.value.features, selectedMetric))
        && heatmapSvg == Some(DrawHeatmap(streetData.value.features))
        && lineSvg == Some(DrawLineChart(streetData.value.features))
    {
      if streetData.Some? {
        DrawScatterPlotSvg();
        DrawHeatmapSvg();
        DrawLineChartSvg();
      }
    }

    /**
     * The street request settles. A response whose names all normalise is
     * stored (as a new object, so the chart effect always runs); a failed
     * request or a name that throws leaves everything as it was.
     */
    method ReceiveStreets(response: Option<FeatureCollection>) returns (redrawn: bool)
      requires Valid()
      modifies this
      ensures Valid()
      ensures boundaryData == old(boundaryData) && selectedMetric == old(selectedMetric)
      ensures redrawn <==> response.Some? && NormalizeCollection(response.value).Ok?
      ensures redrawn ==> streetData == Some(NormalizeCollection(response.value).value)
      ensures !redrawn ==> unchanged(this)
    {
      if response.None? {
        return false;
      }
      var normalized := NormalizeCollection(response.value);
      if normalized.Err? {
        return false;
      }
      NormalizedCollectionIsNormal(response.value);
      StoreStreets(normalized.value);
      redrawn := true;
    }

    /** `setStreetData(c)` followed by the chart effect it triggers. */
    method StoreStreets(c: FeatureCollection)
      requires Valid() && HoldsNormalizedNames(c.features)
      modifies this`streetData, this`scatterSvg, this`heatmapSvg, this`lineSvg
      ensures Valid()
      ensures streetData == Some(c)
    {
      streetData := Some(c);
      ChartEffect();
    }

    /** The boundary request settles: the map's boundary layer changes, the charts do not. */
    method ReceiveBoundaries(response: Option<BoundaryCollection>) returns (redrawn: bool)
      requires Valid()
      modifies this`boundaryData
      ensures Valid()
      ensures !redrawn
      ensures boundaryData == if response.Some? then response else old(boundaryData)
    {
      if response.Some? {
        boundaryData := response;
      }
      redrawn := false;
    }

    /**
     * The selector picks metric `m`. Setting the value it already has is
     * not a change, so nothing is redrawn; otherwise the charts are redrawn
     * when street data is present. The heatmap and the line chart come out
     * exactly as they were.
     */
    method SelectMetric(m: string) returns (redrawn: bool)
      requires Valid() && m in MetricOptions
      modifies this`selectedMetric, this`scatterSvg, this`heatmapSvg, this`lineSvg
      ensures Valid()
      ensures selectedMetric == m
      ensures redrawn <==> m != old(selectedMetric) && streetData.Some?
      ensures heatmapSvg == old(heatmapSvg) && lineSvg == old(lineSvg)
      ensures !redrawn ==> scatterSvg == old(scatterSvg)
    {
      redrawn := false;
      if m != selectedMetric {
        selectedMetric := m;
        assert streetData.Some? ==>
          heatmapSvg == Some(DrawHeatmap(streetData.value.features)) &&
          lineSvg == Some(DrawLineChart(streetData.value.features));
        ChartEffect();
        redrawn := streetData.Some?;
      }
    }

    /**
     * What the map shows: the boundary layer once it has arrived, and the
     * street polylines once street data has arrived; the selected metric
     * plays no part.
     */
    method MapLayers() returns (boundary: Option<BoundaryCollection>, polylines: seq<Segment>)
      ensures boundary == boundaryData
      ensures streetData.None? ==> polylines == []
      ensures streetData.Some? ==> polylines == MapSegments(streetData.value.features)
    {
      boundary := boundaryData;
      polylines := if streetData.Some? then MapSegments(streetData.value.features) else [];
    }
  }
}
