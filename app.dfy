/** The feature aggregation pass of the viewer's upload handler: each feature
    of the converted GeoJSON is validated by four duck-typed rules, counted
    per geometry type in a summary, and recorded as one detailed entry that
    carries a length for line geometries.

    The pure functions below are the reference definition (validation, the
    entry of one feature, the summary and detailed list of a whole
    collection); the class methods are the imperative pass itself, proved
    against them. */
module App {
  import opened Js
  import opened KmlUtils

  /** The geometry of a feature that passed validation. */
  datatype Geometry = Geometry(geomType: string, coordinates: seq<JsValue>)

  /** One row of the detailed view: `{ type }` or `{ type, length }`. */
  datatype Entry = Entry(geomType: string, length: Option<real>)

  /** Rule 1: `feature` is truthy and `typeof feature === 'object'`. */
  predicate FeatureIsObject(feature: JsValue)
  {
    Truthy(feature) && TypeOf(feature) == "object"
  }

  /** Rule 2: `feature.geometry` is truthy and of type 'object'. */
  predicate GeometryIsObject(geometry: JsValue)
  {
    Truthy(geometry) && TypeOf(geometry) == "object"
  }

  /** Rule 3: `geometry.type` is truthy and a string, so a non-empty string. */
  predicate TypeIsText(geomType: JsValue)
  {
    Truthy(geomType) && TypeOf(geomType) == "string"
  }

  /** Rule 4: `geometry.coordinates` is truthy and an array (an empty one passes). */
  predicate CoordinatesAreArray(coordinates: JsValue)
  {
    Truthy(coordinates) && IsArray(coordinates)
  }

  /** The four rules in order; the geometry of a feature that passes them all. */
  function Validate(feature: JsValue): Option<Geometry>
  {
    if !FeatureIsObject(feature) then None
    else
      var geometry := Prop(feature, "geometry");
      if !GeometryIsObject(geometry) then None
      else
        var geomType := Prop(geometry, "type");
        if !TypeIsText(geomType) then None
        else
          var coordinates := Prop(geometry, "coordinates");
          if !CoordinatesAreArray(coordinates) then None
          else Some(Geometry(geomType.s, coordinates.elems))
  }

  /** `newSummary[type] || 0`: an absent type counts 0. */
  function Count(summary: map<string, nat>, geomType: string): nat
  {
    if geomType in summary then summary[geomType] else 0
  }

  /** `newSummary[type] = (newSummary[type] || 0) + 1`. */
  function Tally(summary: map<string, nat>, geomType: string): (r: map<string, nat>)
    ensures r.Keys == summary.Keys + {geomType}
    ensures Count(r, geomType) == Count(summary, geomType) + 1
    ensures forall other :: other != geomType ==> Count(r, other) == Count(summary, other)
  {
    summary[geomType := Count(summary, geomType) + 1]
  }

  /** `['LineString', 'MultiLineString'].includes(type)`. */
  predicate IsLineType(geomType: string)
  {
    geomType == "LineString" || geomType == "MultiLineString"
  }

  /** `Array.prototype.flat()` with its default depth 1: the elements of each
      array element are spliced in, every other element is kept as it is. */
  function Flat(xs: seq<JsValue>): seq<JsValue>
  {
    if xs == [] then []
    else (if xs[0].JArr? then xs[0].elems else [xs[0]]) + Flat(xs[1..])
  }

  /** The positions whose length is computed: the coordinates of a
      LineString as they are, those of a MultiLineString flattened once. */
  function LinePath(g: Geometry): seq<JsValue>
  {
    if g.geomType == "LineString" then g.coordinates else Flat(g.coordinates)
  }

  /** The detailed entry of a valid feature. */
  function EntryFor(dist: SegmentDistance, g: Geometry): (r: Entry)
    ensures r.geomType == g.geomType
    ensures !IsLineType(g.geomType) ==> r.length.None?
    ensures r.length.Some? <==>
              IsLineType(g.geomType) && |LinePath(g)| > 0 && PathLength(dist, LinePath(g)).Some?
    ensures r.length.Some? ==> r.length.value == PathLength(dist, LinePath(g)).value
  {
    if IsLineType(g.geomType) && |LinePath(g)| > 0 then Entry(g.geomType, PathLength(dist, LinePath(g)))
    else Entry(g.geomType, None)
  }

  /** The summary after `features.forEach(processFeature)` from an empty `{}`. */
  function Summarize(features: seq<JsValue>): map<string, nat>
    decreases |features|
  {
    if features == [] then map[]
    else
      var before := Summarize(features[..|features| - 1]);
      match Validate(features[|features| - 1])
      case None => before
      case Some(g) => Tally(before, g.geomType)
  }

  /** The detailed list after `features.forEach(processFeature)` from an empty `[]`. */
  function Details(dist: SegmentDistance, features: seq<JsValue>): seq<Entry>
    decreases |features|
  {
    if features == [] then []
    else
      var before := Details(dist, features[..|features| - 1]);
      match Validate(features[|features| - 1])
      case None => before
      case Some(g) => before + [EntryFor(dist, g)]
  }

  /** The state captured by `processFeature`: `newSummary` and `newDetailed`. */
  class Accumulator {
    var summary: map<string, nat>
    var detailed: seq<Entry>

    /** `const newSummary = {}; const newDetailed = [];` */
    constructor ()
      ensures summary == map[] && detailed == []
    {
      summary := map[];
      detailed := [];
    }

    /** `processFeature(feature)`: an invalid feature changes nothing; a valid
        one is counted and gets exactly one entry. A throw while computing
        the length is caught: the entry then carries the type only. */
    method ProcessFeature(dist: SegmentDistance, feature: JsValue)
      modifies this
      ensures Validate(feature).None? ==> summary == old(summary) && detailed == old(detailed)
      ensures Validate(feature).Some? ==>
                summary == Tally(old(summary), Validate(feature).value.geomType) &&
                detailed == old(detailed) + [EntryFor(dist, Validate(feature).value)]
    {
      if !FeatureIsObject(feature) { return; }
      var geometry := Prop(feature, "geometry");
      if !GeometryIsObject(geometry) { return; }
      var typeValue := Prop(geometry, "type");
      if !TypeIsText(typeValue) { return; }
      var coordinatesValue := Prop(geometry, "coordinates");
      if !CoordinatesAreArray(coordinatesValue) { return; }

      var geomType := typeValue.s;
      summary := summary[geomType := Count(summary, geomType) + 1];

      if geomType == "LineString" || geomType == "MultiLineString" {
        var coordinates := if geomType == "LineString" then coordinatesValue.elems
                           else Flat(coordinatesValue.elems);
        if |coordinates| > 0 {
          var length := CalculateLength(dist, coordinates);
          if length.Some? {
            detailed := detailed + [Entry(geomType, length)];
          } else {
            detailed := detailed + [Entry(geomType, None)];
          }
        } else {
          detailed := detailed + [Entry(geomType, None)];
        }
      } else {
        detailed := detailed + [Entry(geomType, None)];
      }
    }
  }

  /** `geoJson.features.forEach(processFeature)` over fresh accumulators:
      the result depends on the features alone. */
  method Aggregate(dist: SegmentDistance, features: seq<JsValue>)
    returns (summary: map<string, nat>, detailed: seq<Entry>)
    ensures summary == Summarize(features)
    ensures detailed == Details(dist, features)
  {
    var acc := new Accumulator();
    for i := 0 to |features|
      invariant acc.summary == Summarize(features[..i])
      invariant acc.detailed == Details(dist, features[..i])
    {
      assert features[..i + 1][..i] == features[..i];
      acc.ProcessFeature(dist, features[i]);
    }
    assert features[..|features|] == features;
    summary, detailed := acc.summary, acc.detailed;
  }

  /** `!geoJson || !Array.isArray(geoJson.features)` rejects; otherwise the features. */
  function FeatureList(geoJson: JsValue): Option<seq<JsValue>>
  {
    var features := Prop(geoJson, "features");
    if !Truthy(geoJson) || !IsArray(features) then None else Some(features.elems)
  }

  /** The component state the upload handler writes. */
  class Viewer {
    var geoJsonData: Option<JsValue>
    var summary: map<string, nat>
    var detailed: seq<Entry>

    /** `useState(null)`, `useState({})`, `useState([])`. */
    constructor ()
      ensures geoJsonData == None && summary == map[] && detailed == []
    {
      geoJsonData := None;
      summary := map[];
      detailed := [];
    }

    /** `reader.onload` on file text `content`. `parse` is the converter;
        None stands for a throw, caught by the outer `catch`. An empty
        file, a throw or a result without a `features` array leaves the
        state as it was; otherwise summary and detailed are rebuilt from
        empty, with nothing carried over from an earlier upload. */
    method HandleLoad(dist: SegmentDistance, parse: string -> Option<JsValue>, content: string)
      modifies this
      ensures content == "" || parse(content).None? || FeatureList(parse(content).value).None? ==>
                geoJsonData == old(geoJsonData) && summary == old(summary) && detailed == old(detailed)
      ensures content != "" && parse(content).Some? && FeatureList(parse(content).value).Some? ==>
                var features := FeatureList(parse(content).value).value;
                geoJsonData == parse(content) &&
                summary == Summarize(features) &&
                detailed == Details(dist, features)
    {
      if content == "" { return; }
      var parsed := parse(content);
      if parsed.None? { return; }
      var geoJson := parsed.value;
      var features := Prop(geoJson, "features");
      if !Truthy(geoJson) || !IsArray(features) { return; }
      geoJsonData := Some(geoJson);
      var newSummary, newDetailed := Aggregate(dist, features.elems);
      summary := newSummary;
      detailed := newDetailed;
    }
  }
}
