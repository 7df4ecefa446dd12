/**
 * GeoJSON street features as the component receives them, and the
 * normalisation step run on a street response: every feature is copied and
 * its `cleaned_block` property is replaced by the normalised street name.
 */
module Features {
  import opened Wrappers
  import opened JsValues
  import opened StreetNames

  /** A GeoJSON position, stored as `[longitude, latitude]`. */
  type Position = (real, real)

  datatype Geometry =
    | LineString(coords: seq<Position>)
    | MultiLineString(parts: seq<seq<Position>>)
    | OtherGeometry(kind: string)

  datatype Feature = Feature(geometry: Geometry, properties: Properties)

  /** A FeatureCollection: its features and every other top-level member (`type`, ...). */
  datatype FeatureCollection = FeatureCollection(features: seq<Feature>, members: Properties)

  /** The property that holds the street name. */
  const NameKey: string := "cleaned_block"

  /** The street name a feature carries (`feature.properties.cleaned_block`). */
  function StreetOf(f: Feature): (v: JsValue)
    ensures NameKey !in f.properties ==> v == Undefined
    ensures NameKey in f.properties ==> v == f.properties[NameKey]
  {
    Get(f.properties, NameKey)
  }

  /**
   * One step of the `features.map` callback: the shallow copy of the feature
   * with its street name normalised; it throws when the name cannot be
   * lower-cased.
   */
  function NormalizeFeature(f: Feature): (r: Result<Feature, TypeError>)
    ensures r.Ok? <==> NormalizeStreetName(StreetOf(f)).Ok?
    ensures r.Err? ==> r == Err(NormalizeStreetName(StreetOf(f)).error)
    ensures r.Ok? ==> r.value.geometry == f.geometry
    ensures r.Ok? ==> r.value.properties.Keys == f.properties.Keys + {NameKey}
    ensures r.Ok? ==> forall k :: k != NameKey ==> Get(r.value.properties, k) == Get(f.properties, k)
    ensures r.Ok? ==> StreetOf(r.value) == Text(NormalizeStreetName(StreetOf(f)).value)
  {
    match NormalizeStreetName(StreetOf(f))
    case Err(e) => Err(e)
    case Ok(name) => Ok(f.(properties := f.properties[NameKey := Text(name)]))
  }

  /**
   * `features.map(...)`: one normalised feature per input feature, in order;
   * the first feature whose name throws aborts the whole map with its error.
   */
  function NormalizeFeatures(fs: seq<Feature>): (r: Result<seq<Feature>, TypeError>)
    ensures r.Ok? <==> forall i :: 0 <= i < |fs| ==> NormalizeFeature(fs[i]).Ok?
    ensures r.Ok? ==> |r.value| == |fs|
    ensures r.Ok? ==> forall i :: 0 <= i < |fs| ==> NormalizeFeature(fs[i]) == Ok(r.value[i])
    ensures r.Err? ==> exists i :: 0 <= i < |fs| && NormalizeFeature(fs[i]) == Err(r.error)
                                && forall j :: 0 <= j < i ==> NormalizeFeature(fs[j]).Ok?
  {
    if fs == [] then Ok([])
    else
      match NormalizeFeature(fs[0])
      case Err(e) => Err(e)
      case Ok(g) =>
        match NormalizeFeatures(fs[1..])
        case Err(e) =>
          ghost var i :| 0 <= i < |fs[1..]| && NormalizeFeature(fs[1..][i]) == Err(e)
                         && forall j :: 0 <= j < i ==> NormalizeFeature(fs[1..][j]).Ok?;
          assert NormalizeFeature(fs[i + 1]) == Err(e);
          Err(e)
        case Ok(gs) => Ok([g] + gs)
  }

  /** `{ ...data, features: data.features.map(...) }`. */
  function NormalizeCollection(c: FeatureCollection): (r: Result<FeatureCollection, TypeError>)
    ensures r.Ok? <==> NormalizeFeatures(c.features).Ok?
    ensures r.Ok? ==> r.value.members == c.members && r.value.features == NormalizeFeatures(c.features).value
  {
    match NormalizeFeatures(c.features)
    case Err(e) => Err(e)
    case Ok(fs) => Ok(c.(features := fs))
  }

  /**
   * After a successful normalisation every feature keeps its geometry and
   * every property except the street name, and the street name is a string.
   */
  lemma {:induction false} NormalizeFeaturesKeepsAllButName(fs: seq<Feature>)
    requires NormalizeFeatures(fs).Ok?
    ensures forall i :: 0 <= i < |fs| ==>
      && NormalizeFeatures(fs).value[i].geometry == fs[i].geometry
      && StreetOf(NormalizeFeatures(fs).value[i]).Text?
      && (forall k :: k != NameKey ==> Get(NormalizeFeatures(fs).value[i].properties, k) == Get(fs[i].properties, k))
  {
    var gs := NormalizeFeatures(fs).value;
    forall i | 0 <= i < |fs|
      ensures gs[i].geometry == fs[i].geometry && StreetOf(gs[i]).Text?
      ensures forall k :: k != NameKey ==> Get(gs[i].properties, k) == Get(fs[i].properties, k)
    {
      assert NormalizeFeature(fs[i]) == Ok(gs[i]);
    }
  }

  /** Normalising an already normalised feature list gives it back unchanged. */
  lemma {:induction false} NormalizeFeaturesIdempotent(fs: seq<Feature>)
    requires NormalizeFeatures(fs).Ok?
    ensures NormalizeFeatures(NormalizeFeatures(fs).value) == NormalizeFeatures(fs)
  {
    var gs := NormalizeFeatures(fs).value;
    forall i | 0 <= i < |gs| ensures NormalizeFeature(gs[i]) == Ok(gs[i]) {
      var f, g := fs[i], gs[i];
      assert NormalizeFeature(f) == Ok(g);
      NormalizeStreetNameIdempotent(StreetOf(f));
      assert g.properties[NameKey := Text(NormalizeStreetName(StreetOf(g)).value)] == g.properties;
    }
    var hs := NormalizeFeatures(gs).value;
    assert |hs| == |gs|;
    assert forall i :: 0 <= i < |gs| ==> hs[i] == gs[i];
    assert hs == gs;
  }

  /** Every street name is a string that normalisation leaves unchanged. */
  ghost predicate HoldsNormalizedNames(fs: seq<Feature>)
  {
    forall i :: 0 <= i < |fs| ==> StreetOf(fs[i]).Text? && NormalizeText(StreetOf(fs[i]).s) == StreetOf(fs[i]).s
  }

  /** A successfully normalised collection holds normalised names only. */
  lemma NormalizedCollectionIsNormal(c: FeatureCollection)
    requires NormalizeCollection(c).Ok?
    ensures HoldsNormalizedNames(NormalizeCollection(c).value.features)
  {
    var gs := NormalizeCollection(c).value.features;
    forall i | 0 <= i < |gs|
      ensures StreetOf(gs[i]).Text? && NormalizeText(StreetOf(gs[i]).s) == StreetOf(gs[i]).s
    {
      var f := c.features[i];
      assert NormalizeFeature(f) == Ok(gs[i]);
      var name := StreetOf(f);
      if name.Text? && name.s != "" {
        NormalizeTextIdempotent(name.s);
      }
    }
  }
}
