# KML viewer: feature aggregation and path length

This project models the computational core of a browser KML viewer. A file is
converted to GeoJSON by an external converter. One pass over its `features`
then does three things:

- it validates each feature against four duck-typed rules;
- it counts the valid ones per geometry type in a summary;
- it records one detailed entry per valid feature.

`LineString` and `MultiLineString` entries carry a length. That length comes
from `calculateLength`, which adds one segment distance per pair of
consecutive positions. A `MultiLineString` is first flattened by exactly one
level.

Modules:

- `Js` (`js.dfy`): JavaScript values (`undefined`, null, booleans, numbers,
  strings, arrays, objects). It also defines the operators the core applies to
  them: truthiness, `typeof`, `Array.isArray` and own-property reads.
- `KmlUtils` (`kml_utils.dfy`): `calculateLength` as a `while` loop
  (`CalculateLength`). It is proved equal to the reference function
  `PathLength`, and the module holds the lemmas about the summation. The
  segment distance `getDistance(lat1, lon1, lat2, lon2)` is a parameter
  `dist`.
- `App` (`app.dfy`): the reference definition of the pass (`Validate`,
  `Tally`, `Flat`, `EntryFor`, `Summarize`, `Details`). It also holds the
  imperative pass itself:
  - `Accumulator` is the state that `processFeature` closes over, with
    `ProcessFeature` updating it in place.
  - `Aggregate` is the `forEach` driver.
  - `Viewer.HandleLoad` is the `onload` handler that writes the component
    state.
- `AppLemmas` (`app_lemmas.dfy`): properties of the pass. These cover
  validation, counting, order, flattening and the gap segment of a
  `MultiLineString`.
- `SummaryKeys` (`summary_keys.dfy`): the summary as the source actually keeps
  it, on a plain JavaScript object (see Findings).

The code behaves in three ways that are easy to misread; the model follows the code:

- Array destructuring `const [lon, lat] = p` works on any iterable. It throws
  only when a position is neither an array nor a string. A string position is
  destructured into its first two characters. A short array binds
  `undefined`.
- With a single position the loop never runs. So one position, even a
  malformed one, gives an entry with length 0. It still gets that length,
  unlike the "type only" entry of an empty path.
- A feature without `coordinates`, such as a `GeometryCollection`, fails rule 4.
  It therefore has no entry and no count.

## Model

| member | source | states |
|---|---|---|
| `KmlUtils.CalculateLength` | src/utils/kmlUtils.js:9-17 | the loop returns exactly `PathLength`: 0 for fewer than two positions; otherwise the sum of the segment distances of the destructured path, or a throw (None) when some position is not iterable |
| `KmlUtils.Destructure` | src/utils/kmlUtils.js:12-13 | `const [lon, lat] = p`: an array or a string binds its elements 0 and 1 (undefined past the end), anything else throws (None); it has no `ensures` of its own, and `KmlUtils.Decode`, `KmlUtils.TwoArrayPositions` and `KmlUtils.OnlyFirstTwoComponentsRead` state its properties |
| `KmlUtils.PathLength` | src/utils/kmlUtils.js:9-17 | the reference length: 0 for fewer than two positions, otherwise the segment sum of the decoded path, or None for a throw; it has no `ensures` of its own, and `KmlUtils.CalculateLength` is proved equal to it, with `KmlUtils.ShortPathHasZeroLength`, `KmlUtils.PathLengthFailsIff` and `KmlUtils.PathLengthConcat` stating its properties |
| `KmlUtils.Decode` | src/utils/kmlUtils.js:12-13 | destructuring every position succeeds iff each one is iterable; it then yields one (lon = element 0, lat = element 1) binding per position, in order |
| `KmlUtils.Segments` | src/utils/kmlUtils.js:11-14 | a path of n ≥ 1 positions has exactly n−1 segments; segment k is the distance from position k to position k+1 |
| `KmlUtils.ShortPathHasZeroLength` | src/utils/kmlUtils.js:10-16 | zero or one position gives length 0, whatever the position is |
| `KmlUtils.PathLengthFailsIff` | src/utils/kmlUtils.js:11-13 | the computation throws iff there are at least two positions and one of them is not iterable |
| `KmlUtils.PathLengthOfDecoded` | src/utils/kmlUtils.js:9-17 | a decodable path's length is the segment sum over its bindings |
| `KmlUtils.SumIsTotalOfSegments` | src/utils/kmlUtils.js:10-15 | the accumulator starts at 0 and ends as the in-order total of the n−1 segment distances |
| `KmlUtils.SumAppend` | src/utils/kmlUtils.js:11-14 | appending a position q to a non-empty path adds exactly Dist(last, q) |
| `KmlUtils.SumConcat` | src/utils/kmlUtils.js:11-15 | sum(a ++ b) = sum(a) + sum(b) + Dist(last(a), first(b)) for non-empty a and b |
| `KmlUtils.DecodeConcat` | src/utils/kmlUtils.js:12-13 | destructuring a concatenation succeeds iff both parts succeed, and gives the concatenated bindings |
| `KmlUtils.PathLengthConcat` | src/utils/kmlUtils.js:9-17 | for two non-empty decodable coordinate lists, length(a ++ b) = length(a) + length(b) + the segment across the join |
| `KmlUtils.PathLengthAppend` | src/utils/kmlUtils.js:11-14 | appending an iterable position to a non-empty decodable list adds exactly the distance from the old last position to it |
| `KmlUtils.TwoArrayPositions` | src/utils/kmlUtils.js:12-14 | for [p, q] the result is `dist(p[1], p[0], q[1], q[0])`: latitude first, and elements past index 1 are ignored |
| `KmlUtils.SameBindingsSameLength` | src/utils/kmlUtils.js:12-14 | the result depends only on what the destructuring binds |
| `KmlUtils.OnlyFirstTwoComponentsRead` | src/utils/kmlUtils.js:12-13 | replacing an array position by one that agrees on elements 0 and 1 (an added or changed altitude) leaves the length unchanged |
| `App.Validate` | src/App.jsx:37-40 | the four rules in order, giving the geometry (type and coordinates) of a feature that passes; it has no `ensures` of its own, and `AppLemmas.ValidateIffWellFormed` states both directions |
| `App.Flat` | src/App.jsx:49 | `flat()` at depth 1; it has no `ensures` of its own, and `AppLemmas.FlatConcat`, `AppLemmas.FlatAppend` and `AppLemmas.FlatKeepsNonArrays` state its properties |
| `App.LinePath` | src/App.jsx:47-49 | the coordinates of a LineString as they are, those of a MultiLineString flattened once; it has no `ensures` of its own, and `App.EntryFor` and `AppLemmas.MultiLineStringCrossesGap` state what is measured |
| `App.FeatureList` | src/App.jsx:24 | a falsy converter result or one whose `features` is not an array gives None, otherwise the features; it has no `ensures` of its own, and `App.Viewer.HandleLoad` states its effect on the state |
| `App.Summarize` | src/App.jsx:32-66 | the summary after the pass from an empty `{}`; it has no `ensures` of its own, and `AppLemmas.SummaryCountsTypes`, `AppLemmas.SummaryMatchesDetails` and `AppLemmas.AppendFeature` state its properties |
| `App.Details` | src/App.jsx:32-66 | the detailed list after the pass from an empty `[]`; it has no `ensures` of its own, and `AppLemmas.DetailsConcat`, `AppLemmas.SummaryMatchesDetails` and `AppLemmas.EntryTypesAreCounted` state its properties |
| `App.Tally` | src/App.jsx:43 | the type's count goes from its old value (absent = 0) to one more; the key set gains the type; every other count is unchanged |
| `App.EntryFor` | src/App.jsx:45-63 | the entry's type is the geometry type; a non-line type has no length; a line type has a length iff its path (coordinates, or flattened coordinates) is non-empty and measurable, and then it is that path's length |
| `App.Accumulator.constructor` | src/App.jsx:32-33 | the summary and the detailed list start empty |
| `App.Accumulator.ProcessFeature` | src/App.jsx:35-64 | an invalid feature changes neither summary nor detailed; a valid one Tallies its type and appends exactly `EntryFor` of its geometry (a caught throw gives the type-only entry) |
| `App.Aggregate` | src/App.jsx:32-66 | the `forEach` pass from fresh accumulators yields `Summarize(features)` and `Details(features)`, whatever came before |
| `App.Viewer.constructor` | src/App.jsx:7-11 | no data, empty summary, empty detailed list |
| `App.Viewer.HandleLoad` | src/App.jsx:18-73 | for empty content, a converter throw, or no `features` array, the state is untouched; otherwise the data is stored and summary/detailed are rebuilt from empty out of that file's features alone |
| `AppLemmas.ValidateIffWellFormed` | src/App.jsx:37-40 | a feature passes iff it is an object whose `geometry` is an object holding a non-empty string `type` and an array `coordinates` (an empty array passes); null, primitives and arrays fail |
| `AppLemmas.AppendFeature` | src/App.jsx:37-63 | one more invalid feature changes nothing; one more valid feature Tallies its type and appends exactly one entry |
| `AppLemmas.DetailsConcat` | src/App.jsx:66 | the entries of xs ++ ys are the entries of xs followed by those of ys: input order is kept |
| `AppLemmas.TallyAddsOne` | src/App.jsx:43 | counting one feature raises the sum of all counts by exactly one |
| `AppLemmas.SummaryMatchesDetails` | src/App.jsx:43-66 | the number of entries = the number of valid features = the sum of the summary's counts |
| `AppLemmas.SummaryCountsTypes` | src/App.jsx:43 | each type's count is the number of valid features of that type; a type is a key iff it occurs |
| `AppLemmas.EntryTypesAreCounted` | src/App.jsx:42-62 | every entry's type is a key of the summary |
| `AppLemmas.FlatConcat` | src/App.jsx:49 | `flat()` distributes over concatenation |
| `AppLemmas.FlatAppend` | src/App.jsx:49 | exactly one level: an array element's elements are spliced in as they are (nested arrays stay); any other element is kept |
| `AppLemmas.FlatKeepsNonArrays` | src/App.jsx:49 | coordinates without array elements are unchanged by `flat()` |
| `AppLemmas.MultiLineStringCrossesGap` | src/App.jsx:47-53 | a MultiLineString of two non-empty sub-lines has length = both lengths + the segment from the end of the first to the start of the second |
| `AppLemmas.UnmeasurableLineIsCountedWithoutLength` | src/App.jsx:43-60 | a valid line feature with an empty path or a throwing length is still counted once and gets a type-only entry |
| `AppLemmas.ValidateFeatureOf` | src/App.jsx:37-40 | `{geometry: {type, coordinates}}` with a non-empty type passes, with that geometry |
| `AppLemmas.PointThenLineString` | src/App.jsx:35-66 | a Point then a three-position LineString give summary {Point: 1, LineString: 1} and entries [{Point}, {LineString, length}], where the length exists |
| `SummaryKeys.IncrementAsWritten` | src/App.jsx:43 | `newSummary[type] = (newSummary[type] \|\| 0) + 1` on a plain object, as written: `__proto__` leaves it unchanged, an inherited method name gets a string, any other type counts up from 0; it has no `ensures` of its own, and `SummaryKeys.IncrementOrdinary` and `SummaryKeys.InheritedNameGetsTextCount` state its properties |
| `SummaryKeys.SummarizeAsWritten` | src/App.jsx:32-66 | the plain-object summary after the pass, as written; it has no `ensures` of its own, and `SummaryKeys.AsWrittenAgreesOnOrdinaryTypes` and `SummaryKeys.ProtoTypeIsNeverCounted` state its properties |
| `SummaryKeys.AsWrittenAgreesOnOrdinaryTypes` | src/App.jsx:43 | when no valid type names an `Object.prototype` member, the plain-object summary equals the intended one |
| `SummaryKeys.IncrementOrdinary` | src/App.jsx:43 | for an ordinary type, one plain-object increment is one `Tally` |
| `SummaryKeys.ProtoTypeIsNeverCounted` | src/App.jsx:32-43 | as written, a valid feature of type `__proto__` yields one entry and an empty summary; the intended summary is {`__proto__`: 1} |
| `SummaryKeys.InheritedNameGetsTextCount` | src/App.jsx:43 | as written, type `constructor` gets a string as its count; the intended summary gets 1 |

## Left out

- `parseKMLFile` (the DOM parser and the GeoJSON converter) cannot be seen. It is the parameter `parse` of `Viewer.HandleLoad`, which returns any value, or None for a throw.
- `getDistance` and `toRad` (haversine in floating point, radius 6371 km) are the parameter `dist`. So properties that depend on the trigonometry are not stated: symmetry under reversal, 111.19 km per degree, zero for identical points.
- Floating point: lengths are reals. Rounding, the order dependence of float addition, and NaN from non-numeric or `undefined` components are not modelled. `dist` gives some real for any arguments.
- Strings are sequences of Unicode code points, not UTF-16 code units, so a lone surrogate cannot be represented. Nothing modelled depends on it: destructuring a string iterates code points, and keys are only compared for equality.
- Counts are unbounded naturals. Loss of precision beyond 2^53 is not modelled.
- `Prop` reads only own properties of objects. That is exact for the keys the core reads (`features`, `geometry`, `type`, `coordinates`). Getters, proxies and array holes do not occur in converter output and are not modelled.
- The `FileReader` and its asynchronous `onload`, React's `useState`/`useCallback`, the `showSummary`/`showDetailed` toggles, `console.error`, all rendering (including `toFixed(2)` and the `'-'` shown for a missing or zero length) and the map component.
- The outer `try` in the handler is modelled only for a throw from the converter. Nothing else between it and the state updates can throw.

## Findings

| source | as written | input that shows it | evidently intended | confidence | as-written member | corrected member |
|---|---|---|---|---|---|---|
| src/App.jsx:32-43 | `newSummary` is a plain `{}`. For type `__proto__`, `(newSummary[type] \|\| 0) + 1` reads `Object.prototype` and makes a string. Assigning a string to `__proto__` is ignored, so the type is never counted, although its entry is still pushed. | one valid feature, `{geometry: {type: "__proto__", coordinates: []}}` | the summary {`__proto__`: 1}, with the sum of counts equal to the number of entries | not executed; the converter does not produce such types | `SummaryKeys.ProtoTypeIsNeverCounted` | `AppLemmas.SummaryMatchesDetails` |
| src/App.jsx:43 | For a type that names an inherited method (`constructor`, `toString`, ...), `newSummary[type]` is a function, so `+ 1` stores a string as the count | one valid feature of type `constructor` | the count 1 | not executed; the converter does not produce such types | `SummaryKeys.InheritedNameGetsTextCount` | `AppLemmas.TallyAddsOne` |
