/**
 * Worked cases of the behaviour the component is designed for: the grouping
 * example, the NaN-tolerant y-domain, the strict colour threshold, null-safe
 * normalisation, and two spellings of one street drawn twice on the map but
 * counted once in the charts.
 */
module Scenarios {
  import opened Wrappers
  import opened JsValues
  import opened StreetNames
  import opened Features
  import opened Grouping
  import opened Scales
  import opened Charts
  import opened MapOverlay

  /** `[("Main St", 1), ("Main St", 9), ("Oak Rd", 2)]` groups to `[("Main St", 1), ("Oak Rd", 2)]`. */
  lemma GroupingKeepsFirstValue()
    ensures GroupFirst([Record("Main St", 1), Record("Main St", 9), Record("Oak Rd", 2)])
         == [Record("Main St", 1), Record("Oak Rd", 2)]
  {
    var rs := [Record("Main St", 1), Record("Main St", 9), Record("Oak Rd", 2)];
    assert rs[..1] == [Record("Main St", 1)];
    assert rs[..2][..1] == [Record("Main St", 1)];
    assert [Record("Main St", 1)][0].street == "Main St";
    assert rs[..2] == [Record("Main St", 1), Record("Main St", 9)];
    assert "Oak Rd" !in StreetSet([Record("Main St", 1)]);
  }

  /** Grouped values `[3, NaN, 7]` give the y-domain `[0, 7]`. */
  lemma YDomainSkipsNaN()
    ensures YDomain([Num(3.0), NaN, Num(7.0)]) == LinearDomain(0.0, Some(7.0))
  {
    var vs := [Num(3.0), NaN, Num(7.0)];
    assert vs[..2] == [Num(3.0), NaN];
    assert vs[..2][..1] == [Num(3.0)];
    assert [Num(3.0)][..0] == [];
  }

  /** No admissible value: the upper bound stays undefined. */
  lemma YDomainOfNothing()
    ensures YDomain([Undefined, Null, NaN]).hi == None
  {
  }

  /**
   * LVI 0.51 is drawn red, LVI 0.5 exactly is drawn green. Without an LVI
   * the colour expression gives green too, although the popup's
   * `LVI.toFixed(2)` would throw before such a polyline renders.
   */
  lemma ColorThresholdIsStrict()
    ensures LineColor(map[LviKey := Num(0.51)]) == Red
    ensures LineColor(map[LviKey := Num(0.5)]) == Green
    ensures LineColor(map[]) == Green
  {
  }

  /** A missing, null or empty name normalises to the empty string. */
  lemma NullSafeNormalization()
    ensures NormalizeStreetName(Undefined) == Ok("")
    ensures NormalizeStreetName(Null) == Ok("")
    ensures NormalizeStreetName(Text("")) == Ok("")
  {
  }

  /** A name whose title-casing is `t`, position by position, normalises to `t`. */
  lemma NormalizesTo(s: string, t: string)
    requires |s| == |t|
    requires forall i :: 0 <= i < |s| ==> TitleCaseAt(s, i) == t[i]
    ensures NormalizeText(s) == t
  {
  }

  /** "main street" normalises to "Main Street". */
  lemma LowerMainStreet()
    ensures NormalizeText("main street") == "Main Street"
  {
    var s, t := "main street", "Main Street";
    assert TitleCaseAt(s, 0) == 'M' && TitleCaseAt(s, 1) == 'a' && TitleCaseAt(s, 2) == 'i';
    assert TitleCaseAt(s, 3) == 'n' && TitleCaseAt(s, 4) == ' ' && TitleCaseAt(s, 5) == 'S';
    assert TitleCaseAt(s, 6) == 't' && TitleCaseAt(s, 7) == 'r' && TitleCaseAt(s, 8) == 'e';
    assert TitleCaseAt(s, 9) == 'e' && TitleCaseAt(s, 10) == 't';
    NormalizesTo(s, t);
  }

  /** "Main Street" is already normal. */
  lemma TitledMainStreet()
    ensures NormalizeText("Main Street") == "Main Street"
  {
    var s := "Main Street";
    assert TitleCaseAt(s, 0) == 'M' && TitleCaseAt(s, 1) == 'a' && TitleCaseAt(s, 2) == 'i';
    assert TitleCaseAt(s, 3) == 'n' && TitleCaseAt(s, 4) == ' ' && TitleCaseAt(s, 5) == 'S';
    assert TitleCaseAt(s, 6) == 't' && TitleCaseAt(s, 7) == 'r' && TitleCaseAt(s, 8) == 'e';
    assert TitleCaseAt(s, 9) == 'e' && TitleCaseAt(s, 10) == 't';
    NormalizesTo(s, s);
  }

  const MainStreetLine: seq<Position> := [(-87.63, 41.88), (-87.62, 41.89)]

  /** Two records of one street under different spellings, LVI 0.8 first and 0.3 second. */
  function TwoSpellings(): seq<Feature>
  {
    [ Feature(MultiLineString([MainStreetLine]), map[NameKey := Text("main street"), LviKey := Num(0.8)]),
      Feature(MultiLineString([MainStreetLine]), map[NameKey := Text("Main Street"), LviKey := Num(0.3)]) ]
  }

  /** The same two features once their names are normalised. */
  function TwoSpellingsNormalized(): seq<Feature>
  {
    [ Feature(MultiLineString([MainStreetLine]), map[NameKey := Text("Main Street"), LviKey := Num(0.8)]),
      Feature(MultiLineString([MainStreetLine]), map[NameKey := Text("Main Street"), LviKey := Num(0.3)]) ]
  }

  /** Both spellings normalise to "Main Street"; nothing else changes. */
  lemma TwoSpellingsNormalize()
    ensures NormalizeFeatures(TwoSpellings()) == Ok(TwoSpellingsNormalized())
  {
    LowerMainStreet();
    TitledMainStreet();
    var raw, fs := TwoSpellings(), TwoSpellingsNormalized();
    assert raw[0].properties[NameKey := Text("Main Street")] == fs[0].properties;
    assert raw[1].properties[NameKey := Text("Main Street")] == fs[1].properties;
    assert NormalizeFeature(raw[0]) == Ok(fs[0]);
    assert NormalizeFeature(raw[1]) == Ok(fs[1]);
    var gs := NormalizeFeatures(raw).value;
    assert gs[0] == fs[0] && gs[1] == fs[1];
    assert gs == fs;
  }

  /** The scatter plot of LVI shows "Main Street" once, at its first value 0.8. */
  lemma TwoSpellingsScatter()
    ensures DrawScatterPlot(TwoSpellingsNormalized(), LviKey).points == [Record(Text("Main Street"), Num(0.8))]
  {
    var rs := ScatterRecords(TwoSpellingsNormalized(), LviKey);
    assert rs == [Record(Text("Main Street"), Num(0.8)), Record(Text("Main Street"), Num(0.3))];
    assert rs[..1] == [rs[0]] && rs[..1][..0] == [];
    assert [rs[0]][0].street == Text("Main Street");
  }

  /** The map draws both polylines: the first red (0.8), the second green (0.3). */
  lemma TwoSpellingsMap()
    ensures |MapSegments(TwoSpellingsNormalized())| == 2
    ensures MapSegments(TwoSpellingsNormalized())[0].color == Red
    ensures MapSegments(TwoSpellingsNormalized())[1].color == Green
  {
    var fs := TwoSpellingsNormalized();
    var segs := MapSegments(fs);
    assert PartCount(fs[0]) == 1 && PartCount(fs[1]) == 1;
    assert fs[..1][..0] == [] && fs[..1] == [fs[0]];
    assert |segs| == TotalParts(fs) == 2;
    assert DrawsPart(fs, segs[0]) && DrawsPart(fs, segs[1]);
    assert KeyBefore(segs[0], segs[1]);
    assert segs[0].featureIndex == 0 && segs[1].featureIndex == 1;
  }
}
