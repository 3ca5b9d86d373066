/** The path-length calculator of the viewer: `calculateLength` sums one
    great-circle segment distance per pair of consecutive positions. The
    segment distance itself (`getDistance`, the haversine formula in floating
    point) is a parameter of the model: only the summation is verified. */
module KmlUtils {
  import opened Js

  /** `getDistance(lat1, lon1, lat2, lon2)`, latitude first. Its arguments are
      whatever the destructuring bound, numbers or not. */
  type SegmentDistance = (JsValue, JsValue, JsValue, JsValue) -> real

  /** The pair bound by `const [lon, lat] = position`. */
  datatype Position = Position(lon: JsValue, lat: JsValue)

  /** Element `i` of an array pattern's source; undefined past the end. */
  function At(xs: seq<JsValue>, i: nat): JsValue
  {
    if i < |xs| then xs[i] else JUndefined
  }

  /** Code point `i` of a string, as a one-character string; undefined past the end. */
  function CodePointAt(s: string, i: nat): JsValue
  {
    if i < |s| then JStr([s[i]]) else JUndefined
  }

  /** Array destructuring needs an iterable: among the values here, arrays and strings. */
  predicate Iterable(v: JsValue)
  {
    v.JArr? || v.JStr?
  }

  /** `const [lon, lat] = v`: binds the first two elements and ignores the
      rest (an altitude, say); throws a TypeError (None) on a value that is
      not iterable. */
  function Destructure(v: JsValue): Option<Position>
  {
    match v
    case JArr(e) => Some(Position(At(e, 0), At(e, 1)))
    case JStr(s) => Some(Position(CodePointAt(s, 0), CodePointAt(s, 1)))
    case _ => None
  }

  /** The distance added for the segment from `p` to `q`, latitude first. */
  function Segment(dist: SegmentDistance, p: Position, q: Position): real
  {
    dist(p.lat, p.lon, q.lat, q.lon)
  }

  /** Destructures every position, or fails if any one of them is not iterable. */
  function Decode(coordinates: seq<JsValue>): (r: Option<seq<Position>>)
    ensures r.Some? <==> forall k :: 0 <= k < |coordinates| ==> Iterable(coordinates[k])
    ensures r.Some? ==> |r.value| == |coordinates|
    ensures r.Some? ==> forall k :: 0 <= k < |coordinates| ==> Destructure(coordinates[k]) == Some(r.value[k])
  {
    if coordinates == [] then Some([])
    else
      match Destructure(coordinates[0])
      case None => None
      case Some(p) =>
        match Decode(coordinates[1..])
        case None => None
        case Some(rest) => Some([p] + rest)
  }

  /** The sum of the segment distances of a path, accumulated from the start. */
  function Sum(dist: SegmentDistance, path: seq<Position>): real
    decreases |path|
  {
    if |path| < 2 then 0.0
    else Sum(dist, path[..|path| - 1]) + Segment(dist, path[|path| - 2], path[|path| - 1])
  }

  /** The segment distances of a path, in order: one per consecutive pair. */
  function Segments(dist: SegmentDistance, path: seq<Position>): (r: seq<real>)
    ensures |r| == if |path| < 2 then 0 else |path| - 1
    ensures forall k :: 0 <= k < |r| ==> r[k] == Segment(dist, path[k], path[k + 1])
    decreases |path|
  {
    if |path| < 2 then []
    else Segments(dist, path[..|path| - 1]) + [Segment(dist, path[|path| - 2], path[|path| - 1])]
  }

  /** Left-to-right sum of a sequence of reals, starting from 0. */
  function Total(xs: seq<real>): real
    decreases |xs|
  {
    if xs == [] then 0.0 else Total(xs[..|xs| - 1]) + xs[|xs| - 1]
  }

  /** What `calculateLength(coordinates)` returns, or None when it throws.
      With fewer than two positions the loop never runs, so nothing is
      destructured and the result is 0 whatever the positions are. */
  function PathLength(dist: SegmentDistance, coordinates: seq<JsValue>): Option<real>
  {
    if |coordinates| < 2 then Some(0.0)
    else
      match Decode(coordinates)
      case None => None
      case Some(path) => Some(Sum(dist, path))
  }

  /** `calculateLength`: the `for` loop over i = 1 .. n-1, destructuring
      positions i-1 and i and adding their segment distance to `length`.
      A TypeError from the destructuring is returned as None. */
  method CalculateLength(dist: SegmentDistance, coordinates: seq<JsValue>) returns (r: Option<real>)
    ensures r == PathLength(dist, coordinates)
  {
    var length := 0.0;
    ghost var path: seq<Position> := [];
    var i := 1;
    while i < |coordinates|
      invariant 1 <= i <= if |coordinates| == 0 then 1 else |coordinates|
      invariant i < 2 ==> length == 0.0
      invariant i >= 2 ==> |path| == i && length == Sum(dist, path)
      invariant i >= 2 ==> forall k :: 0 <= k < i ==> Destructure(coordinates[k]) == Some(path[k])
    {
      var previous := Destructure(coordinates[i - 1]);
      var current := Destructure(coordinates[i]);
      if previous.None? || current.None? {
        return None;
      }
      var p, q := previous.value, current.value;
      length := length + dist(p.lat, p.lon, q.lat, q.lon);
      if i == 1 {
        assert [p, q][..1] == [p];
        path := [p, q];
      } else {
        assert (path + [q])[..i] == path;
        path := path + [q];
      }
      i := i + 1;
    }
    if 2 <= |coordinates| {
      assert Decode(coordinates).value == path;
    }
    return Some(length);
  }

  /** A path of zero or one position has length 0, even a malformed one. */
  lemma ShortPathHasZeroLength(dist: SegmentDistance, coordinates: seq<JsValue>)
    requires |coordinates| < 2
    ensures PathLength(dist, coordinates) == Some(0.0)
  {
  }

  /** The length computation throws exactly when there are at least two
      positions and one of them is not iterable. */
  lemma PathLengthFailsIff(dist: SegmentDistance, coordinates: seq<JsValue>)
    ensures PathLength(dist, coordinates).None? <==>
              |coordinates| >= 2 && exists k :: 0 <= k < |coordinates| && !Iterable(coordinates[k])
  {
  }

  /** Once decoded, the length is the sum over the decoded path. */
  lemma PathLengthOfDecoded(dist: SegmentDistance, coordinates: seq<JsValue>)
    requires Decode(coordinates).Some?
    ensures PathLength(dist, coordinates) == Some(Sum(dist, Decode(coordinates).value))
  {
  }

  /** The sum is the total of exactly n-1 segment distances, in order, so the
      accumulator starts at 0 and changes only by adding segment distances. */
  lemma {:induction false} SumIsTotalOfSegments(dist: SegmentDistance, path: seq<Position>)
    ensures Sum(dist, path) == Total(Segments(dist, path))
    decreases |path|
  {
    if |path| >= 2 {
      var front := path[..|path| - 1];
      SumIsTotalOfSegments(dist, front);
      var s := Segments(dist, path);
      assert s[..|s| - 1] == Segments(dist, front);
    }
  }

  /** Appending a position to a non-empty path adds exactly one segment. */
  lemma SumAppend(dist: SegmentDistance, path: seq<Position>, q: Position)
    requires |path| >= 1
    ensures Sum(dist, path + [q]) == Sum(dist, path) + Segment(dist, path[|path| - 1], q)
  {
    assert (path + [q])[..|path|] == path;
  }

  /** Joining two non-empty paths adds the segment across the gap between them. */
  lemma {:induction false} SumConcat(dist: SegmentDistance, a: seq<Position>, b: seq<Position>)
    requires |a| >= 1 && |b| >= 1
    ensures Sum(dist, a + b) == Sum(dist, a) + Sum(dist, b) + Segment(dist, a[|a| - 1], b[0])
    decreases |b|
  {
    if |b| == 1 {
      assert a + b == a + [b[0]];
      SumAppend(dist, a, b[0]);
    } else {
      var front, q := b[..|b| - 1], b[|b| - 1];
      assert b == front + [q];
      assert a + b == (a + front) + [q];
      SumConcat(dist, a, front);
      SumAppend(dist, a + front, q);
      SumAppend(dist, front, q);
    }
  }

  /** Decoding distributes over concatenation. */
  lemma {:induction false} DecodeConcat(a: seq<JsValue>, b: seq<JsValue>)
    ensures Decode(a + b) ==
              if Decode(a).Some? && Decode(b).Some? then Some(Decode(a).value + Decode(b).value) else None
    decreases |a|
  {
    if a == [] {
      assert a + b == b;
      if Decode(b).Some? {
        assert [] + Decode(b).value == Decode(b).value;
      }
    } else {
      assert (a + b)[0] == a[0];
      assert (a + b)[1..] == a[1..] + b;
      DecodeConcat(a[1..], b);
      if Destructure(a[0]).Some? && Decode(a[1..]).Some? && Decode(b).Some? {
        var p, x, y := Destructure(a[0]).value, Decode(a[1..]).value, Decode(b).value;
        assert [p] + (x + y) == ([p] + x) + y;
      }
    }
  }

  /** Whole-path form of SumConcat: the length of two joined paths counts the
      segment from the last position of the first to the first of the second. */
  lemma PathLengthConcat(dist: SegmentDistance, a: seq<JsValue>, b: seq<JsValue>)
    requires |a| >= 1 && |b| >= 1 && Decode(a).Some? && Decode(b).Some?
    ensures PathLength(dist, a + b).Some?
    ensures PathLength(dist, a + b).value ==
              PathLength(dist, a).value + PathLength(dist, b).value
              + Segment(dist, Decode(a).value[|a| - 1], Decode(b).value[0])
  {
    var x, y := Decode(a).value, Decode(b).value;
    DecodeConcat(a, b);
    assert PathLength(dist, a + b) == Some(Sum(dist, x + y));
    assert PathLength(dist, a) == Some(Sum(dist, x));
    assert PathLength(dist, b) == Some(Sum(dist, y));
    SumConcat(dist, x, y);
  }

  /** Appending one position to a non-empty path adds exactly the distance
      from the old last position to the new one. */
  lemma PathLengthAppend(dist: SegmentDistance, coordinates: seq<JsValue>, q: JsValue)
    requires |coordinates| >= 1 && Decode(coordinates).Some? && Iterable(q)
    ensures PathLength(dist, coordinates + [q]).Some?
    ensures PathLength(dist, coordinates + [q]).value ==
              PathLength(dist, coordinates).value
              + Segment(dist, Decode(coordinates).value[|coordinates| - 1], Destructure(q).value)
  {
    var x, p := Decode(coordinates).value, Destructure(q).value;
    assert Decode(coordinates + [q]) == Some(x + [p]) by {
      DecodeSingle(q);
      DecodeConcat(coordinates, [q]);
    }
    assert PathLength(dist, coordinates + [q]) == Some(Sum(dist, x + [p]));
    assert PathLength(dist, coordinates) == Some(Sum(dist, x));
    SumAppend(dist, x, p);
  }

  /** A single iterable position decodes to its one binding. */
  lemma DecodeSingle(q: JsValue)
    requires Iterable(q)
    ensures Decode([q]) == Some([Destructure(q).value])
  {
    assert [q][1..] == [];
    assert [Destructure(q).value] + [] == [Destructure(q).value];
  }

  /** For two array positions, element 1 (latitude) and element 0 (longitude)
      are passed to the segment distance latitude first. */
  lemma TwoArrayPositions(dist: SegmentDistance, p: seq<JsValue>, q: seq<JsValue>)
    requires |p| >= 2 && |q| >= 2
    ensures PathLength(dist, [JArr(p), JArr(q)]) == Some(dist(p[1], p[0], q[1], q[0]))
  {
    var c := [JArr(p), JArr(q)];
    var first, second := Position(p[0], p[1]), Position(q[0], q[1]);
    assert c[1..] == [JArr(q)];
    assert [JArr(q)][1..] == [];
    assert Destructure(JArr(q)) == Some(second);
    assert Decode([]) == Some([]);
    assert [second] + [] == [second];
    assert Decode([JArr(q)]) == Some([second]);
    assert Destructure(c[0]) == Some(first);
    assert [first] + [second] == [first, second];
    assert Decode(c) == Some([first, second]);
    assert [first, second][..1] == [first];
    assert Sum(dist, [first, second]) == Segment(dist, first, second);
  }

  /** Positions that destructure alike give the same length. */
  lemma SameBindingsSameLength(dist: SegmentDistance, c: seq<JsValue>, d: seq<JsValue>)
    requires |c| == |d|
    requires forall k :: 0 <= k < |c| ==> Destructure(c[k]) == Destructure(d[k])
    ensures PathLength(dist, c) == PathLength(dist, d)
  {
    if Decode(c).Some? {
      assert forall k :: 0 <= k < |d| ==> Iterable(d[k]) by {
        forall k | 0 <= k < |d| ensures Iterable(d[k]) {
          assert Destructure(c[k]).Some?;
        }
      }
      assert Decode(c).value == Decode(d).value;
    } else {
      var k :| 0 <= k < |c| && !Iterable(c[k]);
      assert Destructure(d[k]).None?;
    }
  }

  /** Only elements 0 and 1 of an array position are read: replacing one
      position by an array that agrees on those two (an added or changed
      altitude, say) leaves the length unchanged. */
  lemma OnlyFirstTwoComponentsRead(dist: SegmentDistance, c: seq<JsValue>, k: nat, e: seq<JsValue>)
    requires k < |c| && c[k].JArr?
    requires At(e, 0) == At(c[k].elems, 0) && At(e, 1) == At(c[k].elems, 1)
    ensures PathLength(dist, c[k := JArr(e)]) == PathLength(dist, c)
  {
    SameBindingsSameLength(dist, c[k := JArr(e)], c);
  }
}
