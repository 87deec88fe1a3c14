/**
 * Geometry normalisation of src/Calculator/Calculator.js: the inputs the
 * calculator accepts, the vertex record it builds, and the pure meaning of
 * `_formatVertex`, `_formatGeometry` and the `Feature` unwrapping done by the
 * constructor.
 */
module Geometry {
  import opened Wrappers

  /** A GeoJSON position `[longitude, latitude, elevation?]`. */
  datatype Position = Position(lon: real, lat: real, elevation: Option<real>)

  /** A normalised vertex `{lat, lon, h, dist}`; `dist` is the cumulative distance. */
  datatype Vertex = Vertex(lat: real, lon: real, h: real, dist: real)

  /**
   * The `type` member of a value the calculator does not know how to format:
   * absent (`undefined`), or a string other than the three tags it tests for.
   */
  type OtherTag = t: Option<string>
    | t != Some("Feature") && t != Some("LineString") && t != Some("MultiLineString")
    witness None

  /** The values a caller can hand to the calculator. */
  datatype Input =
    | Nullish                                    // null or undefined
    | Falsy                                      // another falsy value: false, 0, "" or NaN
    | PositionList(positions: seq<Position>)     // a bare array of positions
    | Feature(geometry: Input)                   // an object with type "Feature"
    | LineString(coordinates: seq<Position>)     // an object with type "LineString"
    | MultiLineString(parts: seq<seq<Position>>) // an object with type "MultiLineString"
    | Other(tag: OtherTag)                       // any other truthy value, e.g. a "Polygon"

  /** What the calculator throws. */
  datatype Error =
    | CannotReadType                         // reading `type` of null or undefined (a TypeError)
    | GeometryNotSet                         // "Geometry not set"
    | GeometryNotSupported(tag: Option<string>) // "Geometry is not supported: <type>"
    | NoFirstVertex                          // writing `dist` of a missing first vertex (a TypeError)

  /** The value of `g.type` for a value that is neither null nor undefined. */
  function TypeOf(g: Input): Option<string>
    requires !g.Nullish?
  {
    match g
    case Feature(_) => Some("Feature")
    case LineString(_) => Some("LineString")
    case MultiLineString(_) => Some("MultiLineString")
    case Other(t) => t
    case _ => None
  }

  /** JavaScript's `!g`. */
  predicate IsFalsy(g: Input) {
    g.Nullish? || g.Falsy?
  }

  /** JavaScript's `e || 0` for a member `e` that may be missing. */
  function OrZero(e: Option<real>): real {
    if e.Some? && e.value != 0.0 then e.value else 0.0
  }

  /**
   * `_formatVertex`: swaps the first two coordinates into `lat`/`lon`, takes
   * the elevation or 0 when it is missing, and starts `dist` at 0.
   */
  function FormatVertex(p: Position): (v: Vertex)
    ensures v.lat == p.lat && v.lon == p.lon && v.dist == 0.0
    ensures v.h == p.elevation.GetOr(0.0)
  {
    Vertex(p.lat, p.lon, OrZero(p.elevation), 0.0)
  }

  /** Formats every position of a list in turn, keeping their order. */
  function FormatPositions(ps: seq<Position>): (vs: seq<Vertex>)
    ensures |vs| == |ps|
    ensures forall i :: 0 <= i < |ps| ==>
      vs[i].lat == ps[i].lat && vs[i].lon == ps[i].lon &&
      vs[i].h == ps[i].elevation.GetOr(0.0) && vs[i].dist == 0.0
  {
    seq(|ps|, i requires 0 <= i < |ps| => FormatVertex(ps[i]))
  }

  /** The number of positions in all parts together. */
  function TotalCount(parts: seq<seq<Position>>): nat {
    if parts == [] then 0 else |parts[0]| + TotalCount(parts[1..])
  }

  /**
   * The vertices of a `MultiLineString`: the formatted parts concatenated in
   * order, with nothing between one part and the next.
   */
  function Flatten(parts: seq<seq<Position>>): (vs: seq<Vertex>)
    ensures |vs| == TotalCount(parts)
  {
    if parts == [] then [] else FormatPositions(parts[0]) + Flatten(parts[1..])
  }

  /** Flattening distributes over concatenation of part lists. */
  lemma {:induction false} FlattenAppend(a: seq<seq<Position>>, b: seq<seq<Position>>)
    ensures Flatten(a + b) == Flatten(a) + Flatten(b)
  {
    if a == [] {
      assert a + b == b;
    } else {
      assert (a + b)[0] == a[0];
      assert (a + b)[1..] == a[1..] + b;
      FlattenAppend(a[1..], b);
    }
  }

  /**
   * Position `k` of part `j` becomes the vertex that follows all vertices of
   * parts `0..j-1`.
   */
  lemma {:induction false} FlattenIndex(parts: seq<seq<Position>>, j: nat, k: nat)
    requires j < |parts| && k < |parts[j]|
    ensures TotalCount(parts[..j]) + k < |Flatten(parts)|
    ensures Flatten(parts)[TotalCount(parts[..j]) + k] == FormatVertex(parts[j][k])
  {
    if j == 0 {
      assert parts[..0] == [];
    } else {
      var tail := parts[1..];
      assert parts[..j][0] == parts[0];
      assert parts[..j][1..] == tail[..j - 1];
      assert parts[j] == tail[j - 1];
      FlattenIndex(tail, j - 1, k);
    }
  }

  /**
   * `_formatGeometry`: a falsy value is not set; an array is a list of
   * positions; otherwise only the `LineString` and `MultiLineString` tags are
   * supported.
   */
  function Normalized(g: Input): (r: Result<seq<Vertex>, Error>)
    ensures IsFalsy(g) ==> r == Failure(GeometryNotSet)
    ensures !IsFalsy(g) && !g.PositionList? ==>
      (r.Failure? <==> TypeOf(g) != Some("LineString") && TypeOf(g) != Some("MultiLineString"))
    ensures r.Failure? && !IsFalsy(g) ==> r == Failure(GeometryNotSupported(TypeOf(g)))
    ensures g.PositionList? ==> r == Success(FormatPositions(g.positions))
    ensures g.LineString? ==> r == Success(FormatPositions(g.coordinates))
    ensures g.MultiLineString? ==> r == Success(Flatten(g.parts))
  {
    if IsFalsy(g) then Failure(GeometryNotSet)
    else if g.PositionList? then Success(FormatPositions(g.positions))
    else
      var t := TypeOf(g);
      if t != Some("MultiLineString") && t != Some("LineString") then Failure(GeometryNotSupported(t))
      else if t == Some("MultiLineString") then Success(Flatten(g.parts))
      else Success(FormatPositions(g.coordinates))
  }

  /** The constructor's first step: unwrap one level of `Feature`. */
  function Unwrapped(input: Input): (r: Result<Input, Error>)
    ensures input.Nullish? <==> r == Failure(CannotReadType)
    ensures input.Feature? ==> r == Success(input.geometry)
    ensures !input.Nullish? && !input.Feature? ==> r == Success(input)
  {
    if input.Nullish? then Failure(CannotReadType)
    else if TypeOf(input) == Some("Feature") then Success(input.geometry)
    else Success(input)
  }

  /** The vertices the constructor formats from `input`, or what it throws. */
  function NormalizedInput(input: Input): (r: Result<seq<Vertex>, Error>)
    ensures input.Nullish? ==> r == Failure(CannotReadType)
    ensures input.Feature? ==> r == Normalized(input.geometry)
    ensures !input.Nullish? && !input.Feature? ==> r == Normalized(input)
  {
    match Unwrapped(input)
    case Failure(e) => Failure(e)
    case Success(g) => Normalized(g)
  }

  /**
   * The three encodings of one path give the same vertices: a bare array, a
   * `LineString` and a `MultiLineString` with that path as its only part.
   */
  lemma SinglePartEquivalence(c: seq<Position>)
    ensures Normalized(MultiLineString([c])) == Normalized(LineString(c))
    ensures Normalized(LineString(c)) == Normalized(PositionList(c))
  {
    assert [c][1..] == [];
    assert Flatten([c]) == FormatPositions(c) + [];
    assert FormatPositions(c) + [] == FormatPositions(c);
  }

  /**
   * The constructor unwraps exactly one `Feature`: a nested one is rejected by
   * its tag, and a feature without geometry is "not set".
   */
  lemma FeatureUnwrapsOnce(g: Input)
    ensures NormalizedInput(Feature(g)) == Normalized(g)
    ensures NormalizedInput(Feature(Feature(g))) == Failure(GeometryNotSupported(Some("Feature")))
    ensures NormalizedInput(Feature(Nullish)) == Failure(GeometryNotSet)
  {
  }
}
