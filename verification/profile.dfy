/**
 * What `_calculateProfileParameters` of src/Calculator/Calculator.js computes,
 * stated as functions of the formatted vertices: every accumulator of its loop
 * after the first `k` segments, and the properties those values have.
 */
module Profile {
  import opened Helpers
  import opened Geometry

  /** The seeds of the running minimum and maximum elevation. */
  const InitialMinH: real := 10000.0
  const InitialMaxH: real := -10000.0

  /** The profile parameters record `{length, realLength, ascend, descend, minh, maxh}`. */
  datatype ProfileParameters = ProfileParameters(
    length: real, realLength: real, ascend: real, descend: real, minh: real, maxh: real)

  /** `Math.min` and `Math.max` on two numbers, and `Math.abs`. */
  function Min(a: real, b: real): real { if a <= b then a else b }
  function Max(a: real, b: real): real { if a >= b then a else b }
  function Abs(x: real): real { if x < 0.0 then -x else x }

  /** The part of a vertex that the distance function reads. */
  function Location(v: Vertex): LatLon {
    LatLon(v.lat, v.lon)
  }

  /** The planar length of segment `i`, from vertex `i` to vertex `i + 1`. */
  function SegmentLength(vs: seq<Vertex>, distance: Distance, i: nat): real
    requires i + 1 < |vs|
  {
    distance(Location(vs[i]), Location(vs[i + 1]))
  }

  /** The elevation change `dh` along segment `i`. */
  function Rise(vs: seq<Vertex>, i: nat): real
    requires i + 1 < |vs|
  {
    vs[i + 1].h - vs[i].h
  }

  /** `length` after `k` segments: the distance along the path to vertex `k`. */
  function CumulativeDistance(vs: seq<Vertex>, distance: Distance, k: nat): (r: real)
    requires k < |vs|
    ensures 0.0 <= r
  {
    if k == 0 then 0.0
    else CumulativeDistance(vs, distance, k - 1) + SegmentLength(vs, distance, k - 1)
  }

  /** `ascend` after `k` segments: the sum of the positive rises. */
  function AscentSum(vs: seq<Vertex>, k: nat): (r: real)
    requires k < |vs|
    ensures 0.0 <= r
  {
    if k == 0 then 0.0
    else AscentSum(vs, k - 1) + (if Rise(vs, k - 1) <= 0.0 then 0.0 else Rise(vs, k - 1))
  }

  /** `descend` after `k` segments: the sum of the rises that are not positive. */
  function DescentSum(vs: seq<Vertex>, k: nat): (r: real)
    requires k < |vs|
    ensures r <= 0.0
  {
    if k == 0 then 0.0
    else DescentSum(vs, k - 1) + (if Rise(vs, k - 1) <= 0.0 then Rise(vs, k - 1) else 0.0)
  }

  /** The 3-D length of segment `i`, `sqrt(dh * dh + dist * dist)`. */
  function ObliqueSegment(vs: seq<Vertex>, distance: Distance, sqrt: real -> real, i: nat): real
    requires i + 1 < |vs|
  {
    Hypot(sqrt, Rise(vs, i), SegmentLength(vs, distance, i))
  }

  /**
   * `realLength` after `k` segments: the sum of the 3-D segment lengths. When
   * every 3-D segment is at least as long as its planar length, `realLength`
   * is never less than `length` after as many segments.
   */
  function ObliqueLength(vs: seq<Vertex>, distance: Distance, sqrt: real -> real, k: nat): (r: real)
    requires k < |vs|
    ensures HypotDominatesLeg(sqrt) ==> CumulativeDistance(vs, distance, k) <= r
  {
    if k == 0 then 0.0
    else ObliqueLength(vs, distance, sqrt, k - 1) + ObliqueSegment(vs, distance, sqrt, k - 1)
  }

  /** `minh` after `k` segments: the running minimum seeded with `InitialMinH`. */
  function LowestSeen(vs: seq<Vertex>, k: nat): (r: real)
    requires k < |vs|
    ensures r <= InitialMinH
    ensures 1 <= k ==> r <= vs[k - 1].h && r <= vs[k].h
  {
    if k == 0 then InitialMinH
    else Min(LowestSeen(vs, k - 1), Min(vs[k - 1].h, vs[k].h))
  }

  /** `maxh` after `k` segments: the running maximum seeded with `InitialMaxH`. */
  function HighestSeen(vs: seq<Vertex>, k: nat): (r: real)
    requires k < |vs|
    ensures InitialMaxH <= r
    ensures 1 <= k ==> vs[k - 1].h <= r && vs[k].h <= r
  {
    if k == 0 then InitialMaxH
    else Max(HighestSeen(vs, k - 1), Max(vs[k - 1].h, vs[k].h))
  }

  /**
   * `minh` is `min(InitialMinH, h_0, ..., h_k)`: never above the seed, equal to
   * the seed or to one of the elevations of vertices `0..k`, and, once a
   * segment has been seen, at most every one of those elevations.
   */
  lemma {:induction false} LowestSeenIsMinimum(vs: seq<Vertex>, k: nat)
    requires k < |vs|
    ensures LowestSeen(vs, k) <= InitialMinH
    ensures LowestSeen(vs, k) == InitialMinH || exists i :: 0 <= i <= k && LowestSeen(vs, k) == vs[i].h
    ensures 1 <= k ==> forall i :: 0 <= i <= k ==> LowestSeen(vs, k) <= vs[i].h
  {
    if k > 0 {
      LowestSeenIsMinimum(vs, k - 1);
    }
  }

  /**
   * `maxh` is `max(InitialMaxH, h_0, ..., h_k)`: never below the seed, equal to
   * the seed or to one of the elevations of vertices `0..k`, and, once a
   * segment has been seen, at least every one of those elevations.
   */
  lemma {:induction false} HighestSeenIsMaximum(vs: seq<Vertex>, k: nat)
    requires k < |vs|
    ensures InitialMaxH <= HighestSeen(vs, k)
    ensures HighestSeen(vs, k) == InitialMaxH || exists i :: 0 <= i <= k && HighestSeen(vs, k) == vs[i].h
    ensures 1 <= k ==> forall i :: 0 <= i <= k ==> vs[i].h <= HighestSeen(vs, k)
  {
    if k > 0 {
      HighestSeenIsMaximum(vs, k - 1);
    }
  }

  /** Cumulative distance never decreases along the path. */
  lemma {:induction false} CumulativeDistanceMonotone(vs: seq<Vertex>, distance: Distance, i: nat, j: nat)
    requires i <= j < |vs|
    ensures CumulativeDistance(vs, distance, i) <= CumulativeDistance(vs, distance, j)
  {
    if i < j {
      CumulativeDistanceMonotone(vs, distance, i, j - 1);
    }
  }

  /** The same, for every pair of vertices at once. */
  lemma CumulativeDistanceOrdered(vs: seq<Vertex>, distance: Distance)
    ensures forall i, j :: 0 <= i <= j < |vs| ==>
      CumulativeDistance(vs, distance, i) <= CumulativeDistance(vs, distance, j)
  {
    forall i, j | 0 <= i <= j < |vs|
      ensures CumulativeDistance(vs, distance, i) <= CumulativeDistance(vs, distance, j)
    {
      CumulativeDistanceMonotone(vs, distance, i, j);
    }
  }

  /**
   * The vertices after aggregation: vertex `i` keeps its position and
   * elevation and carries the distance along the path to it, so the first
   * carries 0 and the distances never decrease.
   */
  function Annotated(vs: seq<Vertex>, distance: Distance): (r: seq<Vertex>)
    ensures |r| == |vs|
    ensures forall i :: 0 <= i < |vs| ==>
      r[i].lat == vs[i].lat && r[i].lon == vs[i].lon && r[i].h == vs[i].h
    ensures |vs| > 0 ==> r[0].dist == 0.0
    ensures forall i, j :: 0 <= i <= j < |vs| ==> r[i].dist <= r[j].dist
  {
    CumulativeDistanceOrdered(vs, distance);
    seq(|vs|, i requires 0 <= i < |vs| => vs[i].(dist := CumulativeDistance(vs, distance, i)))
  }

  /**
   * The vertices part-way through the loop of `_calculateProfileParameters`:
   * vertices `0..k` carry their distance along the path, the later ones are
   * still as formatted.
   */
  function AnnotatedUpTo(vs: seq<Vertex>, distance: Distance, k: nat): (r: seq<Vertex>)
    requires k < |vs|
    ensures |r| == |vs|
  {
    if k == 0 then vs[0 := vs[0].(dist := 0.0)]
    else AnnotatedUpTo(vs, distance, k - 1)[k := vs[k].(dist := CumulativeDistance(vs, distance, k))]
  }

  /** Annotating keeps every position and elevation and leaves the later vertices alone. */
  lemma {:induction false} AnnotatedUpToAt(vs: seq<Vertex>, distance: Distance, k: nat, j: nat)
    requires k < |vs| && j < |vs|
    ensures Location(AnnotatedUpTo(vs, distance, k)[j]) == Location(vs[j])
    ensures AnnotatedUpTo(vs, distance, k)[j].h == vs[j].h
    ensures k < j ==> AnnotatedUpTo(vs, distance, k)[j] == vs[j]
  {
    if k > 0 {
      AnnotatedUpToAt(vs, distance, k - 1, j);
    }
  }

  /** Each vertex up to `k` already carries its final distance. */
  lemma {:induction false} AnnotatedUpToPrefix(vs: seq<Vertex>, distance: Distance, k: nat)
    requires k < |vs|
    ensures forall j {:trigger AnnotatedUpTo(vs, distance, k)[j]} :: 0 <= j <= k ==>
      AnnotatedUpTo(vs, distance, k)[j] == vs[j].(dist := CumulativeDistance(vs, distance, j))
  {
    if k > 0 {
      AnnotatedUpToPrefix(vs, distance, k - 1);
      var prev := AnnotatedUpTo(vs, distance, k - 1);
      forall j | 0 <= j < k
        ensures AnnotatedUpTo(vs, distance, k)[j] == vs[j].(dist := CumulativeDistance(vs, distance, j))
      {
        assert AnnotatedUpTo(vs, distance, k)[j] == prev[j];
      }
    }
  }

  /** Once the last vertex is reached, the whole path is annotated. */
  lemma AnnotatedUpToComplete(vs: seq<Vertex>, distance: Distance)
    requires |vs| >= 1
    ensures AnnotatedUpTo(vs, distance, |vs| - 1) == Annotated(vs, distance)
  {
    var r := AnnotatedUpTo(vs, distance, |vs| - 1);
    AnnotatedUpToPrefix(vs, distance, |vs| - 1);
    forall j | 0 <= j < |vs|
      ensures r[j] == Annotated(vs, distance)[j]
    {
    }
  }

  /** Rises telescope: ascent plus (non-positive) descent is the net climb. */
  lemma {:induction false} NetClimb(vs: seq<Vertex>, k: nat)
    requires k < |vs|
    ensures AscentSum(vs, k) + DescentSum(vs, k) == vs[k].h - vs[0].h
  {
    if k > 0 {
      NetClimb(vs, k - 1);
    }
  }

  /**
   * The parameters of a path of at least one vertex. `ascend` and `descend`
   * are magnitudes whose difference is the net climb from the first vertex to
   * the last; `length` is the distance the last vertex carries.
   */
  function ProfileOf(vs: seq<Vertex>, distance: Distance, sqrt: real -> real): (p: ProfileParameters)
    requires |vs| >= 1
    ensures 0.0 <= p.length && p.length == Annotated(vs, distance)[|vs| - 1].dist
    ensures 0.0 <= p.ascend && 0.0 <= p.descend
    ensures p.ascend - p.descend == vs[|vs| - 1].h - vs[0].h
    ensures IsSquareRoot(sqrt) ==> p.length <= p.realLength
    ensures |vs| >= 2 ==> forall i :: 0 <= i < |vs| ==> p.minh <= vs[i].h <= p.maxh
    ensures |vs| == 1 ==> p.minh == InitialMinH && p.maxh == InitialMaxH
    ensures |vs| == 1 ==> p.length == 0.0 && p.realLength == 0.0 && p.ascend == 0.0 && p.descend == 0.0
  {
    var k := |vs| - 1;
    NetClimb(vs, k);
    SquareRootDominates(sqrt);
    LowestSeenIsMinimum(vs, k);
    HighestSeenIsMaximum(vs, k);
    ProfileParameters(
      CumulativeDistance(vs, distance, k),
      ObliqueLength(vs, distance, sqrt, k),
      Abs(AscentSum(vs, k)),
      Abs(DescentSum(vs, k)),
      LowestSeen(vs, k),
      HighestSeen(vs, k))
  }

  /** Two paths that agree on positions and elevations; they may differ in `dist`. */
  ghost predicate SameTrack(vs: seq<Vertex>, ws: seq<Vertex>) {
    |vs| == |ws| &&
    forall i :: 0 <= i < |vs| ==> Location(vs[i]) == Location(ws[i]) && vs[i].h == ws[i].h
  }

  /** Distances along the path read only positions. */
  lemma {:induction false} SameTrackDistances(vs: seq<Vertex>, ws: seq<Vertex>, distance: Distance, sqrt: real -> real, k: nat)
    requires SameTrack(vs, ws) && k < |vs|
    ensures CumulativeDistance(vs, distance, k) == CumulativeDistance(ws, distance, k)
    ensures ObliqueLength(vs, distance, sqrt, k) == ObliqueLength(ws, distance, sqrt, k)
  {
    if k > 0 {
      SameTrackDistances(vs, ws, distance, sqrt, k - 1);
      assert SegmentLength(vs, distance, k - 1) == SegmentLength(ws, distance, k - 1);
      assert Rise(vs, k - 1) == Rise(ws, k - 1);
    }
  }

  /** Ascent, descent and the elevation range read only elevations. */
  lemma {:induction false} SameTrackElevations(vs: seq<Vertex>, ws: seq<Vertex>, k: nat)
    requires SameTrack(vs, ws) && k < |vs|
    ensures AscentSum(vs, k) == AscentSum(ws, k) && DescentSum(vs, k) == DescentSum(ws, k)
    ensures LowestSeen(vs, k) == LowestSeen(ws, k) && HighestSeen(vs, k) == HighestSeen(ws, k)
  {
    if k > 0 {
      SameTrackElevations(vs, ws, k - 1);
      assert Rise(vs, k - 1) == Rise(ws, k - 1);
      assert vs[k - 1].h == ws[k - 1].h && vs[k].h == ws[k].h;
    }
  }

  /** Aggregating an already aggregated path changes nothing. */
  lemma AggregationIdempotent(vs: seq<Vertex>, distance: Distance, sqrt: real -> real)
    requires |vs| >= 1
    ensures Annotated(Annotated(vs, distance), distance) == Annotated(vs, distance)
    ensures ProfileOf(Annotated(vs, distance), distance, sqrt) == ProfileOf(vs, distance, sqrt)
  {
    var ws := Annotated(vs, distance);
    assert SameTrack(vs, ws);
    assert Annotated(ws, distance) == ws by {
      forall i | 0 <= i < |vs|
        ensures Annotated(ws, distance)[i] == ws[i]
      {
        SameTrackDistances(vs, ws, distance, sqrt, i);
      }
    }
    assert ProfileOf(ws, distance, sqrt) == ProfileOf(vs, distance, sqrt) by {
      SameTrackDistances(vs, ws, distance, sqrt, |vs| - 1);
      SameTrackElevations(vs, ws, |vs| - 1);
    }
  }
}
