/** The summary as the upload handler actually keeps it: a plain object
    `{}`, so a geometry type that names a member of `Object.prototype` does
    not start from "absent". Reading `newSummary["__proto__"]` gives
    Object.prototype, `+ 1` turns it into a string, and assigning a string
    to `__proto__` is ignored: that type is never counted. Reading an
    inherited method such as `constructor` gives a function, and `+ 1`
    stores a string as its "count". The rest of the model uses the intended
    summary, App.Tally over `map<string, nat>`; this module shows where the
    two part and that they agree on every other type. */
module SummaryKeys {
  import opened Js
  import opened KmlUtils
  import opened App
  import AppLemmas

  /** A value of `newSummary[type]`: a number, or the string that `+ 1`
      makes from a function or from an earlier such string. */
  datatype CountValue = Number(n: nat) | Text

  /** The methods every plain object inherits from Object.prototype. */
  const OBJECT_PROTOTYPE_METHODS: set<string> :=
    {"constructor", "hasOwnProperty", "isPrototypeOf", "propertyIsEnumerable",
     "toLocaleString", "toString", "valueOf",
     "__defineGetter__", "__defineSetter__", "__lookupGetter__", "__lookupSetter__"}

  /** `newSummary[type] = (newSummary[type] || 0) + 1` on a plain object,
      whose own properties are `summary`. */
  function IncrementAsWritten(summary: map<string, CountValue>, geomType: string): map<string, CountValue>
  {
    if geomType == "__proto__" then summary
    else if geomType in summary then
      summary[geomType := match summary[geomType] case Number(n) => Number(n + 1) case Text => Text]
    else if geomType in OBJECT_PROTOTYPE_METHODS then summary[geomType := Text]
    else summary[geomType := Number(1)]
  }

  /** The summary the pass builds on a plain object. */
  function SummarizeAsWritten(features: seq<JsValue>): map<string, CountValue>
    decreases |features|
  {
    if features == [] then map[]
    else
      var before := SummarizeAsWritten(features[..|features| - 1]);
      match Validate(features[|features| - 1])
      case None => before
      case Some(g) => IncrementAsWritten(before, g.geomType)
  }

  /** A type that does not collide with Object.prototype. */
  predicate Ordinary(geomType: string)
  {
    geomType != "__proto__" && geomType !in OBJECT_PROTOTYPE_METHODS
  }

  /** The intended summary seen as the object's own numeric properties. */
  function AsNumbers(summary: map<string, nat>): map<string, CountValue>
  {
    map k | k in summary :: Number(summary[k])
  }

  /** On collections whose valid types are all ordinary, the source's
      summary is exactly the intended one. */
  lemma {:induction false} AsWrittenAgreesOnOrdinaryTypes(features: seq<JsValue>)
    requires forall k :: 0 <= k < |features| && Validate(features[k]).Some? ==> Ordinary(Validate(features[k]).value.geomType)
    ensures SummarizeAsWritten(features) == AsNumbers(Summarize(features))
    decreases |features|
  {
    if features != [] {
      var front, last := features[..|features| - 1], features[|features| - 1];
      AsWrittenAgreesOnOrdinaryTypes(front);
      if Validate(last).Some? {
        var t := Validate(last).value.geomType;
        assert Validate(features[|features| - 1]).Some?;
        IncrementOrdinary(Summarize(front), t);
      }
    }
  }

  /** For an ordinary type, one increment on the plain object is one Tally. */
  lemma IncrementOrdinary(summary: map<string, nat>, geomType: string)
    requires Ordinary(geomType)
    ensures IncrementAsWritten(AsNumbers(summary), geomType) == AsNumbers(Tally(summary, geomType))
  {
  }

  /** The counterexample: one valid feature of type "__proto__" gets its
      detailed entry, yet the source's summary stays empty, so the sum of the
      counts (0) no longer equals the number of entries (1); the intended
      summary counts it once. */
  lemma ProtoTypeIsNeverCounted(dist: SegmentDistance)
    ensures var f := AppLemmas.FeatureOf("__proto__", []);
            && Validate(f) == Some(Geometry("__proto__", []))
            && Details(dist, [f]) == [Entry("__proto__", None)]
            && SummarizeAsWritten([f]) == map[]
            && Summarize([f]) == map["__proto__" := 1]
  {
    var f := AppLemmas.FeatureOf("__proto__", []);
    AppLemmas.ValidateFeatureOf("__proto__", []);
    assert [f][..0] == [];
  }

  /** The second counterexample: a type named after an inherited method gets
      a string where its count should be. */
  lemma InheritedNameGetsTextCount()
    ensures IncrementAsWritten(map[], "constructor") == map["constructor" := Text]
    ensures Tally(map[], "constructor") == map["constructor" := 1]
  {
  }
}
