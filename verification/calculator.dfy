/**
 * The `Calculator` class of src/Calculator/Calculator.js: it formats its input
 * into an array of vertices and then annotates that array in place while it
 * accumulates the profile parameters.
 */
module Calculator {
  import opened Wrappers
  import opened Helpers
  import opened Geometry
  import opened Profile

  /**
   * The vertices a calculator is built from, or what its constructor throws:
   * a path must have a first vertex for `dist` to be set on it.
   */
  function Prepared(input: Input): (r: Result<seq<Vertex>, Error>)
    ensures r.Success? ==> |r.value| >= 1 && NormalizedInput(input) == r
    ensures r.Failure? ==> NormalizedInput(input).Failure? || NormalizedInput(input) == Success([])
    ensures NormalizedInput(input) == Success([]) ==> r == Failure(NoFirstVertex)
    ensures NormalizedInput(input).Failure? ==> r == NormalizedInput(input)
  {
    match NormalizedInput(input)
    case Failure(e) => Failure(e)
    case Success(vs) => if |vs| == 0 then Failure(NoFirstVertex) else Success(vs)
  }

  /**
   * The encodings of one path are interchangeable: a `MultiLineString` with
   * one part, a `LineString`, a bare array and a `Feature` around either
   * object all prepare the same vertices, hence the same profile.
   */
  lemma ShapeEquivalence(c: seq<Position>)
    ensures Prepared(MultiLineString([c])) == Prepared(LineString(c))
    ensures Prepared(LineString(c)) == Prepared(PositionList(c))
    ensures Prepared(Feature(LineString(c))) == Prepared(LineString(c))
    ensures Prepared(Feature(MultiLineString([c]))) == Prepared(LineString(c))
  {
    SinglePartEquivalence(c);
  }

  /** What the constructor throws for the inputs that are not paths. */
  lemma RejectedInputs()
    ensures Prepared(Nullish) == Failure(CannotReadType)
    ensures Prepared(Falsy) == Failure(GeometryNotSet)
    ensures Prepared(Feature(Nullish)) == Failure(GeometryNotSet)
    ensures Prepared(Other(Some("Polygon"))) == Failure(GeometryNotSupported(Some("Polygon")))
    ensures Prepared(Feature(Other(None))) == Failure(GeometryNotSupported(None))
    ensures Prepared(LineString([])) == Failure(NoFirstVertex)
    ensures Prepared(MultiLineString([[], []])) == Failure(NoFirstVertex)
  {
    var empty: seq<Position> := [];
    assert [empty, empty][1..] == [empty];
    assert [empty][1..] == [];
  }

  class Calculator {
    /** `_vertices`, annotated in place by `CalculateProfileParameters`. */
    var vertices: array<Vertex>
    /** `_parameters`. */
    var parameters: ProfileParameters
    /** The Haversine distance and `Math.sqrt` the calculator uses. */
    const distance: Distance
    const sqrt: real -> real
    /** The formatted vertices, before aggregation. */
    ghost const track: seq<Vertex>

    /** A built calculator holds the annotated track and its parameters. */
    ghost predicate Valid()
      reads this, vertices
    {
      |track| >= 1 &&
      vertices[..] == Annotated(track, distance) &&
      parameters == ProfileOf(track, distance, sqrt)
    }

    /**
     * `_formatGeometry`: a `MultiLineString` is flattened by pushing the
     * formatted vertices of each part in turn.
     */
    static method FormatGeometry(geometry: Input) returns (r: Result<seq<Vertex>, Error>)
      ensures r == Normalized(geometry)
    {
      if IsFalsy(geometry) {
        return Failure(GeometryNotSet);
      }
      if geometry.PositionList? {
        return Success(FormatPositions(geometry.positions));
      }
      var t := TypeOf(geometry);
      if t != Some("MultiLineString") && t != Some("LineString") {
        return Failure(GeometryNotSupported(t));
      }
      if t == Some("MultiLineString") {
        var parts := geometry.parts;
        var pushed: seq<Vertex> := [];
        var k := 0;
        while k < |parts|
          invariant 0 <= k <= |parts|
          invariant pushed == Flatten(parts[..k])
        {
          FlattenAppend(parts[..k], [parts[k]]);
          assert parts[..k + 1] == parts[..k] + [parts[k]];
          assert Flatten([parts[k]]) == FormatPositions(parts[k]) by {
            assert [parts[k]][1..] == [];
          }
          pushed := pushed + FormatPositions(parts[k]);
          k := k + 1;
        }
        assert parts[..k] == parts;
        return Success(pushed);
      }
      return Success(FormatPositions(geometry.coordinates));
    }

    /**
     * The constructor: unwrap a `Feature`, format the geometry and compute the
     * profile, throwing where the source throws.
     */
    static method Create(input: Input, distance: Distance, sqrt: real -> real)
      returns (r: Result<Calculator, Error>)
      ensures r.Failure? <==> Prepared(input).Failure?
      ensures r.Failure? ==> r.error == Prepared(input).error
      ensures r.Success? ==>
        fresh(r.value) && fresh(r.value.vertices) && r.value.Valid() &&
        r.value.track == Prepared(input).value &&
        r.value.distance == distance && r.value.sqrt == sqrt
    {
      if input.Nullish? {
        return Failure(CannotReadType);
      }
      var geometry := input;
      if TypeOf(input) == Some("Feature") {
        geometry := input.geometry;
      }
      var formatted := FormatGeometry(geometry);
      if formatted.Failure? {
        return Failure(formatted.error);
      }
      if |formatted.value| == 0 {
        return Failure(NoFirstVertex);
      }
      var c := new Calculator(formatted.value, distance, sqrt);
      return Success(c);
    }

    /** Stores the formatted vertices and computes the profile over them. */
    constructor (formatted: seq<Vertex>, distance: Distance, sqrt: real -> real)
      requires |formatted| >= 1
      ensures Valid() && fresh(vertices)
      ensures track == formatted && this.distance == distance && this.sqrt == sqrt
    {
      this.distance := distance;
      this.sqrt := sqrt;
      track := formatted;
      vertices := new Vertex[|formatted|](i requires 0 <= i < |formatted| => formatted[i]);
      new;
      assert vertices[..] == formatted;
      parameters := CalculateProfileParameters();
    }

    /**
     * `_calculateProfileParameters`: one pass over consecutive vertices that
     * writes the running length into each next vertex and returns the
     * accumulated parameters.
     */
    method CalculateProfileParameters() returns (p: ProfileParameters)
      requires vertices.Length >= 1
      modifies vertices
      ensures vertices[..] == Annotated(old(vertices[..]), distance)
      ensures p == ProfileOf(old(vertices[..]), distance, sqrt)
    {
      ghost var vs := vertices[..];
      var descend, ascend, minh, maxh, length, realLength := 0.0, 0.0, InitialMinH, InitialMaxH, 0.0, 0.0;
      var n := vertices.Length;
      vertices[0] := vertices[0].(dist := 0.0);
      var i := 0;
      while i < n - 1
        invariant 0 <= i <= n - 1
        invariant vertices[..] == AnnotatedUpTo(vs, distance, i)
        invariant length == CumulativeDistance(vs, distance, i)
        invariant realLength == ObliqueLength(vs, distance, sqrt, i)
        invariant ascend == AscentSum(vs, i) && descend == DescentSum(vs, i)
        invariant minh == LowestSeen(vs, i) && maxh == HighestSeen(vs, i)
      {
        AnnotatedUpToAt(vs, distance, i, i);
        AnnotatedUpToAt(vs, distance, i, i + 1);
        var p1 := vertices[i];
        var p2 := vertices[i + 1];
        var dist := distance(Location(p1), Location(p2));
        length := length + dist;
        vertices[i + 1] := vertices[i + 1].(dist := length);
        var dh := p2.h - p1.h;
        if dh <= 0.0 {
          descend := descend + dh;
        } else {
          ascend := ascend + dh;
        }
        realLength := realLength + Hypot(sqrt, dh, dist);
        var curmin, curmax := Min(p1.h, p2.h), Max(p1.h, p2.h);
        minh := Min(minh, curmin);
        maxh := Max(maxh, curmax);
        i := i + 1;
      }
      ascend := Abs(ascend);
      descend := Abs(descend);
      p := ProfileParameters(length, realLength, ascend, descend, minh, maxh);
      assert i == |vs| - 1;
      AnnotatedUpToComplete(vs, distance);
    }

    /**
     * The `vertices` getter: the track in order, each vertex with its own
     * position and elevation, the first at distance 0 and the distances never
     * decreasing.
     */
    function Vertices(): (vs: seq<Vertex>)
      reads this, vertices
      requires Valid()
      ensures |vs| == |track| && vs[0].dist == 0.0
      ensures forall i :: 0 <= i < |vs| ==>
        vs[i].lat == track[i].lat && vs[i].lon == track[i].lon && vs[i].h == track[i].h
      ensures forall i, j :: 0 <= i <= j < |vs| ==> vs[i].dist <= vs[j].dist
    {
      vertices[..]
    }

    /**
     * The `parameters` getter: `length` is the distance of the last vertex,
     * `ascend` and `descend` are non-negative with the net climb as their
     * difference, and the elevation range covers every vertex of a path with
     * at least one segment.
     */
    function Parameters(): (p: ProfileParameters)
      reads this, vertices
      requires Valid()
      ensures p.length == Vertices()[|track| - 1].dist
      ensures 0.0 <= p.ascend && 0.0 <= p.descend
      ensures p.ascend - p.descend == track[|track| - 1].h - track[0].h
      ensures IsSquareRoot(sqrt) ==> p.length <= p.realLength
      ensures |track| >= 2 ==> forall i :: 0 <= i < |track| ==> p.minh <= track[i].h <= p.maxh
      ensures |track| == 1 ==> p.minh == InitialMinH && p.maxh == InitialMaxH
      ensures |track| == 1 ==> p.length == 0.0 && p.realLength == 0.0 && p.ascend == 0.0 && p.descend == 0.0
    {
      parameters
    }
  }
}
