/**
 * The scale domains the three charts build: band (categorical) domains,
 * the linear y-domain `[0, d3.max(values)]`, and the fixed hour and colour
 * domains of the heatmap. Pixel ranges, padding and band widths are not part
 * of the model.
 */
module Scales {
  import opened Wrappers
  import opened JsValues
  import opened Grouping

  /**
   * Whether `d3.max` takes a value into account: `undefined`, `null` and NaN
   * are skipped; numbers are compared.
   */
  predicate Admissible(v: JsValue)
  {
    v.Num?
  }

  /**
   * `d3.max(values)` over the admissible values, scanning left to right;
   * absent (JavaScript `undefined`) when no value is admissible.
   */
  function MaxAdmissible(vs: seq<JsValue>): (m: Option<real>)
    ensures m.None? <==> forall i :: 0 <= i < |vs| ==> !Admissible(vs[i])
    ensures m.Some? ==> exists i :: 0 <= i < |vs| && vs[i] == Num(m.value)
    ensures m.Some? ==> forall i :: 0 <= i < |vs| && Admissible(vs[i]) ==> vs[i].x <= m.value
    decreases |vs|
  {
    if vs == [] then None
    else
      var prefix := vs[..|vs| - 1];
      var last := vs[|vs| - 1];
      assert forall i :: 0 <= i < |prefix| ==> prefix[i] == vs[i];
      match MaxAdmissible(prefix)
      case None => if Admissible(last) then Some(last.x) else None
      case Some(m) => if Admissible(last) && m < last.x then Some(last.x) else Some(m)
  }

  /** A linear scale's domain `[lo, hi]`; `hi` is absent when `d3.max` returned `undefined`. */
  datatype LinearDomain = LinearDomain(lo: real, hi: Option<real>)

  /** `[0, d3.max(values)]`. */
  function YDomain(vs: seq<JsValue>): (d: LinearDomain)
    ensures d.lo == 0.0
    ensures d.hi.None? <==> forall i :: 0 <= i < |vs| ==> !Admissible(vs[i])
    ensures d.hi.Some? ==> exists i :: 0 <= i < |vs| && vs[i] == Num(d.hi.value)
    ensures d.hi.Some? ==> forall i :: 0 <= i < |vs| && Admissible(vs[i]) ==> vs[i].x <= d.hi.value
  {
    LinearDomain(0.0, MaxAdmissible(vs))
  }

  /**
   * The domain of a band scale given `keys`: d3 keeps the first occurrence
   * of every key, in order.
   */
  function BandDomain<K(==)>(keys: seq<K>): (d: seq<K>)
    ensures |d| <= |keys|
    ensures forall i, j :: 0 <= i < j < |d| ==> d[i] != d[j]
    ensures forall i :: 0 <= i < |keys| ==> keys[i] in d
    ensures forall i :: 0 <= i < |d| ==> d[i] in keys
  {
    var rs := seq(|keys|, i requires 0 <= i < |keys| => Record(keys[i], ()));
    var g := GroupFirst(rs);
    assert Streets(rs) == keys;
    StreetsMembership(rs);
    StreetsMembership(g);
    Streets(g)
  }

  /** A band domain built from distinct keys is the key list itself. */
  lemma BandDomainOfDistinct<K>(keys: seq<K>)
    requires forall i, j :: 0 <= i < j < |keys| ==> keys[i] != keys[j]
    ensures BandDomain(keys) == keys
  {
    var rs := seq(|keys|, i requires 0 <= i < |keys| => Record(keys[i], ()));
    GroupFirstOfDistinct(rs);
    assert Streets(rs) == keys;
  }

  /** `d3.range(n)`: the integers 0 .. n-1 in increasing order. */
  function Range(n: nat): (r: seq<int>)
    ensures |r| == n
    ensures forall i :: 0 <= i < n ==> r[i] == i
  {
    if n == 0 then [] else Range(n - 1) + [n - 1]
  }

  /** The heatmap's x-domain: the 24 hours of the day, whatever the data. */
  function HourDomain(): (hours: seq<int>)
    ensures |hours| == 24
    ensures forall i :: 0 <= i < 24 ==> hours[i] == i
  {
    BandDomainOfDistinct(Range(24));
    BandDomain(Range(24))
  }

  /** The heatmap's colour domain `[0, 23]`. */
  const ColorDomain: (int, int) := (0, 23)
}
