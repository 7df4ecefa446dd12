/**
 * The street overlay of the map: every part of every `MultiLineString`
 * feature becomes one polyline, its positions turned from
 * `[longitude, latitude]` into `[latitude, longitude]`, coloured red when the
 * feature's LVI exceeds 0.5 and green otherwise. Features of any other
 * geometry type draw nothing. Nothing is grouped or deduplicated here.
 */
module MapOverlay {
  import opened JsValues
  import opened Features

  datatype Color = Red | Green

  /** One `<Polyline>`: its key `${idx}-${i}`, its positions and its colour. */
  datatype Segment = Segment(featureIndex: nat, partIndex: nat, positions: seq<(real, real)>, color: Color)

  const LviKey: string := "LVI"

  /** `coords.map(([lng, lat]) => [lat, lng])`. */
  function SwapAll(coords: seq<Position>): (r: seq<(real, real)>)
    ensures |r| == |coords|
    ensures forall i :: 0 <= i < |coords| ==> r[i].0 == coords[i].1 && r[i].1 == coords[i].0
  {
    seq(|coords|, i requires 0 <= i < |coords| => (coords[i].1, coords[i].0))
  }

  /** Swapping twice gives the positions back. */
  lemma SwapAllInvolution(coords: seq<Position>)
    ensures SwapAll(SwapAll(coords)) == coords
  {
    var r := SwapAll(SwapAll(coords));
    assert forall i :: 0 <= i < |coords| ==> r[i] == coords[i];
  }

  /** `properties.LVI > 0.5 ? 'red' : 'green'`. */
  function LineColor(props: Properties): (c: Color)
    ensures c == Red <==> ToNumber(Get(props, LviKey)).Num? && ToNumber(Get(props, LviKey)).x > 0.5
  {
    if GreaterThan(Get(props, LviKey), 0.5) then Red else Green
  }

  /** Number of polylines a feature draws. */
  function PartCount(f: Feature): nat
  {
    if f.geometry.MultiLineString? then |f.geometry.parts| else 0
  }

  /** Total number of parts over all `MultiLineString` features. */
  function TotalParts(fs: seq<Feature>): nat
  {
    if fs == [] then 0 else TotalParts(fs[..|fs| - 1]) + PartCount(fs[|fs| - 1])
  }

  /** The polylines of the feature at index `idx`. */
  function FeatureSegments(idx: nat, f: Feature): (segs: seq<Segment>)
    ensures |segs| == PartCount(f)
    ensures forall i :: 0 <= i < |segs| ==>
      && f.geometry.MultiLineString?
      && segs[i] == Segment(idx, i, SwapAll(f.geometry.parts[i]), LineColor(f.properties))
  {
    match f.geometry
    case MultiLineString(parts) =>
      seq(|parts|, i requires 0 <= i < |parts| => Segment(idx, i, SwapAll(parts[i]), LineColor(f.properties)))
    case _ => []
  }

  /** A segment is the `partIndex`-th part of the `featureIndex`-th feature, swapped and coloured. */
  predicate DrawsPart(fs: seq<Feature>, s: Segment)
  {
    && s.featureIndex < |fs|
    && fs[s.featureIndex].geometry.MultiLineString?
    && s.partIndex < |fs[s.featureIndex].geometry.parts|
    && s.positions == SwapAll(fs[s.featureIndex].geometry.parts[s.partIndex])
    && s.color == LineColor(fs[s.featureIndex].properties)
  }

  /** Keys in drawing order: by feature, then by part. */
  predicate KeyBefore(s: Segment, t: Segment)
  {
    s.featureIndex < t.featureIndex || (s.featureIndex == t.featureIndex && s.partIndex < t.partIndex)
  }

  /**
   * `streetData.features.map(...)`: one polyline per part of every
   * `MultiLineString` feature, in feature order then part order.
   */
  function MapSegments(fs: seq<Feature>): (segs: seq<Segment>)
    ensures |segs| == TotalParts(fs)
    ensures forall k :: 0 <= k < |segs| ==> DrawsPart(fs, segs[k])
    ensures forall a, b :: 0 <= a < b < |segs| ==> KeyBefore(segs[a], segs[b])
    decreases |fs|
  {
    if fs == [] then []
    else
      var n := |fs| - 1;
      var prefix := fs[..n];
      var prev := MapSegments(prefix);
      var mine := FeatureSegments(n, fs[n]);
      assert forall k :: 0 <= k < |prev| ==> DrawsPart(prefix, prev[k]) && prev[k].featureIndex < n;
      prev + mine
  }

  /** Every part of every `MultiLineString` feature is drawn. */
  lemma {:induction false} MapSegmentsComplete(fs: seq<Feature>, idx: nat, i: nat)
    requires idx < |fs| && fs[idx].geometry.MultiLineString? && i < |fs[idx].geometry.parts|
    ensures exists k ::
      0 <= k < |MapSegments(fs)| && MapSegments(fs)[k].featureIndex == idx && MapSegments(fs)[k].partIndex == i
    decreases |fs|
  {
    var n := |fs| - 1;
    var prefix := fs[..n];
    var prev := MapSegments(prefix);
    assert MapSegments(fs) == prev + FeatureSegments(n, fs[n]);
    if idx < n {
      MapSegmentsComplete(prefix, idx, i);
      var k :| 0 <= k < |prev| && prev[k].featureIndex == idx && prev[k].partIndex == i;
      assert MapSegments(fs)[k] == prev[k];
    } else {
      assert MapSegments(fs)[|prev| + i] == FeatureSegments(n, fs[n])[i];
    }
  }

  /** Features whose geometry is not a `MultiLineString` draw nothing at all. */
  lemma {:induction false} OnlyMultiLineStringsDraw(fs: seq<Feature>)
    requires forall i :: 0 <= i < |fs| ==> !fs[i].geometry.MultiLineString?
    ensures MapSegments(fs) == []
    decreases |fs|
  {
    if fs != [] {
      OnlyMultiLineStringsDraw(fs[..|fs| - 1]);
    }
  }
}
