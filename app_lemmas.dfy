/** Properties of the aggregation pass, stated over the reference functions
    of module App (which the imperative pass is proved to compute). */
module AppLemmas {
  import opened Js
  import opened KmlUtils
  import opened App

  /** The four rules read structurally: an object feature whose `geometry`
      is an object with a non-empty string `type` and an array `coordinates`. */
  predicate WellFormed(feature: JsValue)
  {
    && feature.JObj?
    && "geometry" in feature.fields
    && var geometry := feature.fields["geometry"];
       && geometry.JObj?
       && "type" in geometry.fields && geometry.fields["type"].JStr? && geometry.fields["type"].s != ""
       && "coordinates" in geometry.fields && geometry.fields["coordinates"].JArr?
  }

  /** A feature passes validation exactly when it is well formed, and then
      its geometry is read off unchanged. So null, primitives, arrays, a
      missing or non-object geometry, a missing, empty or non-string type,
      and missing or non-array coordinates are all rejected. */
  lemma ValidateIffWellFormed(feature: JsValue)
    ensures Validate(feature).Some? <==> WellFormed(feature)
    ensures WellFormed(feature) ==>
              var geometry := feature.fields["geometry"];
              Validate(feature).value ==
                Geometry(geometry.fields["type"].s, geometry.fields["coordinates"].elems)
  {
  }

  /** One more feature: an invalid one changes neither the summary nor the
      detailed list; a valid one adds one to its type's count (Tally) and
      appends exactly one entry. */
  lemma AppendFeature(dist: SegmentDistance, features: seq<JsValue>, feature: JsValue)
    ensures Validate(feature).None? ==>
              Summarize(features + [feature]) == Summarize(features) &&
              Details(dist, features + [feature]) == Details(dist, features)
    ensures Validate(feature).Some? ==>
              Summarize(features + [feature]) == Tally(Summarize(features), Validate(feature).value.geomType) &&
              Details(dist, features + [feature]) == Details(dist, features) + [EntryFor(dist, Validate(feature).value)]
  {
    assert (features + [feature])[..|features|] == features;
  }

  /** The detailed list of a concatenation is the concatenation of the
      detailed lists: entries come out in input order. */
  lemma {:induction false} DetailsConcat(dist: SegmentDistance, xs: seq<JsValue>, ys: seq<JsValue>)
    ensures Details(dist, xs + ys) == Details(dist, xs) + Details(dist, ys)
    decreases |ys|
  {
    if ys == [] {
      assert xs + ys == xs;
    } else {
      var front, last := ys[..|ys| - 1], ys[|ys| - 1];
      assert ys == front + [last];
      assert xs + ys == (xs + front) + [last];
      DetailsConcat(dist, xs, front);
      AppendFeature(dist, xs + front, last);
      AppendFeature(dist, front, last);
    }
  }

  /** The number of features that pass validation. */
  function ValidCount(features: seq<JsValue>): nat
    decreases |features|
  {
    if features == [] then 0
    else ValidCount(features[..|features| - 1]) + (if Validate(features[|features| - 1]).Some? then 1 else 0)
  }

  /** The number of features that pass validation with geometry type `geomType`. */
  function TypeCount(features: seq<JsValue>, geomType: string): nat
    decreases |features|
  {
    if features == [] then 0
    else
      var last := Validate(features[|features| - 1]);
      TypeCount(features[..|features| - 1], geomType) + (if last.Some? && last.value.geomType == geomType then 1 else 0)
  }

  /** The sum of the counts of a summary. */
  ghost function MapSum(m: map<string, nat>): nat
    decreases |m|
  {
    if m == map[] then 0
    else
      var k :| k in m;
      assert |m - {k}| < |m| by {
        assert (m - {k}).Keys == m.Keys - {k};
      }
      m[k] + MapSum(m - {k})
  }

  /** The sum does not depend on which key is taken out first. */
  lemma MapSumRemove(m: map<string, nat>, k: string)
    requires k in m
    ensures MapSum(m) == m[k] + MapSum(m - {k})
    decreases |m|
  {
    var j :| j in m && MapSum(m) == m[j] + MapSum(m - {j});
    if j != k {
      assert (m - {j}).Keys == m.Keys - {j};
      assert (m - {k}).Keys == m.Keys - {k};
      MapSumRemove(m - {j}, k);
      MapSumRemove(m - {k}, j);
      assert m - {j} - {k} == m - {k} - {j};
    }
  }

  /** Counting one feature raises the sum of the summary by exactly one. */
  lemma TallyAddsOne(m: map<string, nat>, geomType: string)
    ensures MapSum(Tally(m, geomType)) == MapSum(m) + 1
  {
    var r := Tally(m, geomType);
    MapSumRemove(r, geomType);
    if geomType in m {
      MapSumRemove(m, geomType);
      assert r - {geomType} == m - {geomType};
    } else {
      assert r - {geomType} == m;
    }
  }

  /** After the pass, the number of entries equals the number of valid
      features, which equals the sum of the summary's counts. */
  lemma {:induction false} SummaryMatchesDetails(dist: SegmentDistance, features: seq<JsValue>)
    ensures |Details(dist, features)| == ValidCount(features)
    ensures MapSum(Summarize(features)) == ValidCount(features)
    decreases |features|
  {
    if features != [] {
      var front, last := features[..|features| - 1], features[|features| - 1];
      SummaryMatchesDetails(dist, front);
      assert features == front + [last];
      AppendFeature(dist, front, last);
      if Validate(last).Some? {
        TallyAddsOne(Summarize(front), Validate(last).value.geomType);
      }
    }
  }

  /** Each type's count is the number of valid features of that type, and a
      type is a key of the summary exactly when it occurs at least once. */
  lemma {:induction false} SummaryCountsTypes(features: seq<JsValue>, geomType: string)
    ensures Count(Summarize(features), geomType) == TypeCount(features, geomType)
    ensures geomType in Summarize(features) <==> TypeCount(features, geomType) > 0
    decreases |features|
  {
    if features != [] {
      SummaryCountsTypes(features[..|features| - 1], geomType);
    }
  }

  /** Every entry's type is a key of the summary. */
  lemma {:induction false} EntryTypesAreCounted(dist: SegmentDistance, features: seq<JsValue>, j: nat)
    requires j < |Details(dist, features)|
    ensures Details(dist, features)[j].geomType in Summarize(features)
    decreases |features|
  {
    var front, last := features[..|features| - 1], features[|features| - 1];
    if j < |Details(dist, front)| {
      EntryTypesAreCounted(dist, front, j);
    }
  }

  /** Flattening distributes over concatenation. */
  lemma {:induction false} FlatConcat(xs: seq<JsValue>, ys: seq<JsValue>)
    ensures Flat(xs + ys) == Flat(xs) + Flat(ys)
    decreases |xs|
  {
    if xs == [] {
      assert xs + ys == ys;
    } else {
      assert (xs + ys)[0] == xs[0];
      assert (xs + ys)[1..] == xs[1..] + ys;
      FlatConcat(xs[1..], ys);
    }
  }

  /** Exactly one level: an array element's own elements are spliced in as
      they are (arrays among them stay arrays); any other element is kept. */
  lemma FlatAppend(xs: seq<JsValue>, v: JsValue)
    ensures Flat(xs + [v]) == Flat(xs) + (if v.JArr? then v.elems else [v])
  {
    FlatConcat(xs, [v]);
    assert [v][1..] == [];
  }

  /** A sequence without array elements is left as it is. */
  lemma {:induction false} FlatKeepsNonArrays(xs: seq<JsValue>)
    requires forall k :: 0 <= k < |xs| ==> !xs[k].JArr?
    ensures Flat(xs) == xs
    decreases |xs|
  {
    if xs != [] {
      FlatKeepsNonArrays(xs[1..]);
    }
  }

  /** A MultiLineString of two non-empty sub-lines is measured as one path:
      its length is the two lengths plus the segment across the gap between
      the end of the first and the start of the second. */
  lemma MultiLineStringCrossesGap(dist: SegmentDistance, first: seq<JsValue>, second: seq<JsValue>)
    requires |first| >= 1 && |second| >= 1 && Decode(first).Some? && Decode(second).Some?
    ensures var entry := EntryFor(dist, Geometry("MultiLineString", [JArr(first), JArr(second)]));
            && entry.length.Some?
            && entry.length.value ==
                 PathLength(dist, first).value + PathLength(dist, second).value
                 + Segment(dist, Decode(first).value[|first| - 1], Decode(second).value[0])
  {
    FlatAppend([JArr(first)], JArr(second));
    assert Flat([JArr(first)]) == first + [] by {
      assert [JArr(first)][1..] == [];
    }
    assert first + [] == first;
    assert [JArr(first)] + [JArr(second)] == [JArr(first), JArr(second)];
    PathLengthConcat(dist, first, second);
  }

  /** A valid feature whose coordinates cannot be measured (empty after
      flattening, or a position that is not iterable) is still counted and
      still has an entry, one with the type only. */
  lemma UnmeasurableLineIsCountedWithoutLength(dist: SegmentDistance, features: seq<JsValue>, feature: JsValue)
    requires Validate(feature).Some? && IsLineType(Validate(feature).value.geomType)
    requires var path := LinePath(Validate(feature).value);
             |path| == 0 || PathLength(dist, path).None?
    ensures var g := Validate(feature).value;
            && Count(Summarize(features + [feature]), g.geomType) == Count(Summarize(features), g.geomType) + 1
            && Details(dist, features + [feature]) == Details(dist, features) + [Entry(g.geomType, None)]
  {
    AppendFeature(dist, features, feature);
  }

  /** A feature `{ geometry: { type, coordinates } }`. */
  function FeatureOf(geomType: string, coordinates: seq<JsValue>): JsValue
  {
    JObj(map["geometry" := JObj(map["type" := JStr(geomType), "coordinates" := JArr(coordinates)])])
  }

  /** A feature built this way passes validation whenever its type is not empty. */
  lemma ValidateFeatureOf(geomType: string, coordinates: seq<JsValue>)
    requires geomType != ""
    ensures Validate(FeatureOf(geomType, coordinates)) == Some(Geometry(geomType, coordinates))
  {
  }

  /** A Point followed by a three-point LineString: the summary counts one
      of each, and the entries are the Point without a length and the
      LineString with the length of its path, which exists. */
  lemma PointThenLineString(dist: SegmentDistance, point: seq<JsValue>, line: seq<JsValue>)
    requires |line| == 3 && forall k :: 0 <= k < 3 ==> Iterable(line[k])
    ensures var features := [FeatureOf("Point", point), FeatureOf("LineString", line)];
            && Summarize(features) == map["Point" := 1, "LineString" := 1]
            && Details(dist, features) == [Entry("Point", None), Entry("LineString", PathLength(dist, line))]
            && PathLength(dist, line).Some?
  {
    var p, l := FeatureOf("Point", point), FeatureOf("LineString", line);
    ValidateFeatureOf("Point", point);
    ValidateFeatureOf("LineString", line);
    assert [p, l][..1] == [p];
    assert [p][..0] == [];
    assert Summarize([p]) == map["Point" := 1];
    assert Details(dist, [p]) == [Entry("Point", None)];
    assert EntryFor(dist, Geometry("LineString", line)) == Entry("LineString", PathLength(dist, line));
  }
}
