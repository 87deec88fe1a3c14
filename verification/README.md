# Terrain profile calculator, modelled in Dafny

This project models the `Calculator` class of the terrain-profile library
(src/Calculator/Calculator.js). The class takes a GeoJSON `Feature`, a
`LineString`, a `MultiLineString` or a bare array of `[lon, lat, h?]`
positions. It normalises the input into an array of vertices
`{lat, lon, h, dist}`. It then makes one pass over consecutive vertices. The
pass writes into every vertex its distance along the path, and it
accumulates the profile parameters `length`, `realLength`, `ascend`,
`descend`, `minh` and `maxh`.

The project has five modules:

- `Wrappers` holds `Option` and `Result`.
- `Helpers` holds the numeric collaborators. The Haversine distance is a
  function value that is never negative, and `Math.sqrt` is a function
  value. Both are parameters of the calculator.
- `Geometry` holds the accepted inputs, the errors thrown, and the pure
  meaning of `_formatVertex`, `_formatGeometry` and the `Feature` unwrapping.
- `Profile` holds the specification functions. They give every
  accumulator of the loop after `k` segments, with the lemmas about them.
- `Calculator` holds the class. It has an `array<Vertex>` that
  `CalculateProfileParameters` annotates in place with a `while` loop. The
  loop is proved against the `Profile` functions. The constructor paths
  return a `Result` carrying what the JavaScript throws.

The model reproduces these behaviours of the code, which a reader may not expect:

- A path of a single vertex leaves `minh` and `maxh` at their seeds `10000`
  and `-10000`, and the four lengths and climbs at 0, because the loop body
  never runs.
- An input of `null` or `undefined` fails with a `TypeError` when `type` is
  read (line 12). It never reaches "Geometry not set".
- A `MultiLineString` is flattened with nothing between its parts. The step
  from the last vertex of one part to the first of the next is therefore
  counted as a segment, in `length` and in every other parameter.
- An empty path fails with a `TypeError` when `dist` of its first vertex is
  written (line 104). This is `NoFirstVertex` in the model.

## Model

| member | source | states |
|---|---|---|
| Geometry.FormatVertex | src/Calculator/Calculator.js:80-87 | `lat` and `lon` are swapped out of `[lon, lat]`, `h` is the elevation or 0 when it is missing, and `dist` starts at 0 |
| Geometry.FormatPositions | src/Calculator/Calculator.js:56-57 | mapping keeps the length, and vertex `i` is the formatted position `i` |
| Geometry.Flatten | src/Calculator/Calculator.js:63-68 | a `MultiLineString` yields exactly as many vertices as all its parts have positions |
| Geometry.FlattenAppend | src/Calculator/Calculator.js:64-67 | pushing part after part equals flattening the concatenated part lists |
| Geometry.FlattenIndex | src/Calculator/Calculator.js:64-67 | position `k` of part `j` becomes the vertex right after all vertices of the earlier parts, in order |
| Geometry.Normalized | src/Calculator/Calculator.js:53-73 | a falsy geometry is "not set"; an array is formatted; any other value fails with "not supported" and its `type` exactly when that type is neither `LineString` nor `MultiLineString`; otherwise the result is the formatted coordinates |
| Geometry.Unwrapped | src/Calculator/Calculator.js:11-14 | `null` or `undefined` throws when `type` is read; a `Feature` yields its geometry; anything else passes unchanged |
| Geometry.NormalizedInput | src/Calculator/Calculator.js:11-21 | the constructor's vertices before aggregation: `null` or `undefined` throws when `type` is read, a `Feature` formats its geometry, and any other value is formatted itself |
| Geometry.SinglePartEquivalence | src/Calculator/Calculator.js:56-71 | a one-part `MultiLineString`, a `LineString` and a bare array of the same positions give the same vertices |
| Geometry.FeatureUnwrapsOnce | src/Calculator/Calculator.js:11-14 | a `Feature` is unwrapped once: its geometry is formatted, a nested `Feature` is "not supported", and a missing geometry is "not set" |
| Helpers.SquareRootDominates | src/Calculator/Calculator.js:126 | with a true square root, every 3-D segment length is at least its planar length |
| Helpers.ObliqueTermBound | src/Calculator/Calculator.js:126 | with a true square root, a segment's 3-D length `sqrt(dh*dh + dist*dist)` is at least its planar length |
| Profile.CumulativeDistance | src/Calculator/Calculator.js:109-112 | the running `length` is never negative |
| Profile.AscentSum | src/Calculator/Calculator.js:118-123 | the running `ascend` is never negative |
| Profile.DescentSum | src/Calculator/Calculator.js:118-123 | the running `descend` is never positive |
| Profile.ObliqueLength | src/Calculator/Calculator.js:112-126 | the running `realLength` is never less than the running `length` after as many segments, whenever every 3-D segment is at least its planar length |
| Profile.LowestSeen | src/Calculator/Calculator.js:96-132 | the running `minh` never exceeds its seed 10000, and after a segment it is at most both elevations of the last segment |
| Profile.HighestSeen | src/Calculator/Calculator.js:97-133 | the running `maxh` is never below its seed -10000, and after a segment it is at least both elevations of the last segment |
| Profile.LowestSeenIsMinimum | src/Calculator/Calculator.js:96-132 | `minh` is at most the seed 10000 and equals the seed or an elevation seen; after at least one segment it is at most every elevation seen |
| Profile.HighestSeenIsMaximum | src/Calculator/Calculator.js:97-133 | `maxh` is at least the seed -10000 and equals the seed or an elevation seen; after at least one segment it is at least every elevation seen |
| Profile.CumulativeDistanceMonotone | src/Calculator/Calculator.js:109-115 | the distance written into a later vertex is never smaller than an earlier one's |
| Profile.CumulativeDistanceOrdered | src/Calculator/Calculator.js:109-115 | the same, for all pairs of vertices at once |
| Profile.Annotated | src/Calculator/Calculator.js:104-115 | after the pass, each vertex keeps its position and elevation, the first has `dist` 0, and the `dist` values never decrease |
| Profile.AnnotatedUpTo | src/Calculator/Calculator.js:104-115 | partway through the loop the array keeps its length |
| Profile.AnnotatedUpToAt | src/Calculator/Calculator.js:107-115 | partway through the loop every vertex keeps its position and elevation, and the vertices not yet reached are untouched |
| Profile.AnnotatedUpToPrefix | src/Calculator/Calculator.js:104-115 | every vertex already reached carries its final distance along the path |
| Profile.AnnotatedUpToComplete | src/Calculator/Calculator.js:106-115 | once the loop reaches the last vertex, the whole array is annotated |
| Profile.NetClimb | src/Calculator/Calculator.js:118-123 | ascent plus the signed descent is the net climb from the first vertex to vertex `k` |
| Profile.ProfileOf | src/Calculator/Calculator.js:93-147 | `length` is non-negative and is the last vertex's `dist`; `ascend` and `descend` are non-negative and differ by the net climb; `length <= realLength` under a true square root; `minh`/`maxh` bound every elevation when there is a segment, and for a single vertex they stay at the seeds while `length`, `realLength`, `ascend` and `descend` are 0 |
| Profile.SameTrackDistances | src/Calculator/Calculator.js:107-126 | `length` and `realLength` depend only on positions and elevations, not on the `dist` values |
| Profile.SameTrackElevations | src/Calculator/Calculator.js:118-133 | `ascend`, `descend`, `minh` and `maxh` depend only on elevations |
| Profile.AggregationIdempotent | src/Calculator/Calculator.js:93-147 | running the pass over an already annotated path changes no vertex and gives the same parameters |
| Calculator.Prepared | src/Calculator/Calculator.js:11-104 | the vertices the constructor works on, or what it throws: a failure of unwrapping or formatting is passed on unchanged, and an empty path throws when `dist` of its first vertex is written |
| Calculator.ShapeEquivalence | tests/calculator.test.js:10-32 | a `MultiLineString` of one part, a `LineString`, a bare array and a `Feature` around either object prepare the same vertices |
| Calculator.RejectedInputs | src/Calculator/Calculator.js:11-104 | what each non-path input throws: `undefined`, a falsy value, a `Feature` without geometry, an unsupported or missing type, and an empty path |
| Calculator.Calculator.FormatGeometry | src/Calculator/Calculator.js:53-73 | the loop that pushes the parts of a `MultiLineString` returns exactly `Normalized` of the geometry |
| Calculator.Calculator.Create | src/Calculator/Calculator.js:11-28 | construction fails exactly when `Prepared` fails, with the same error; otherwise it yields a fresh calculator that holds the annotated track and its parameters |
| Calculator.Calculator.constructor | src/Calculator/Calculator.js:21-27 | stores the formatted vertices in a fresh array and establishes `Valid()`: the array is annotated and `parameters` is `ProfileOf` the track |
| Calculator.Calculator.CalculateProfileParameters | src/Calculator/Calculator.js:93-147 | the loop leaves the array equal to `Annotated` of the old array, so only `dist` changes, and returns `ProfileOf` the old array |
| Calculator.Calculator.Vertices | src/Calculator/Calculator.js:35-37 | the `vertices` getter: the track in order, with positions and elevations kept, the first `dist` 0, and `dist` never decreasing |
| Calculator.Calculator.Parameters | src/Calculator/Calculator.js:44-46 | the `parameters` getter: `length` is the last vertex's `dist`; ascent and descent are non-negative and differ by the net climb; `length <= realLength` under a true square root; the elevation range and the single-vertex values as in `ProfileOf` |

## Left out

- The Haversine formula of src/helpers.js:16-27 and `deg2rad` (src/helpers.js:6-8) are left out because they involve trigonometry on floating point. The distance is a parameter of type `Distance`, and its only property used is that it is never negative.
- `Math.sqrt` is a parameter. The property `length <= realLength` is proved only for a function satisfying `IsSquareRoot`.
- Floating point is left out. All numbers are exact reals, so rounding, `NaN` and infinities are not modelled. This includes `NaN` elevations, which `|| 0` would turn into 0.
- Geometry.FormatVertex: a present elevation of exactly 0 and a missing one both give 0, as with `|| 0`. Non-numeric members of a position are not modelled.
- An object tagged `LineString` or `MultiLineString` with no `coordinates` member throws a `TypeError` in the code. The model's inputs always carry their coordinates.
- Calculator.Calculator.FormatGeometry: each part of a `MultiLineString` is pushed by spreading it into call arguments (line 66), so a very large part throws a `RangeError` in JavaScript engines. The model never fails there, because engine argument limits are not modelled.
- JavaScript vertices are shared objects, and the model's vertices are values. The getters return the array's contents rather than a reference to it, so later mutation by a caller is not modelled.
- The drawing code is not part of this model, because it is rendering and not calculation. This covers src/ElevationProfileDrawer.js, src/Drawer/Drawer.js, src/Drawer.js and src/Drawer/defaultOptions.js.
- The older bundle dist/terrain-profile.js and the re-exports of src/main.js are not part of this model.
- The numeric assertions of tests/calculator.test.js are left out because they need the real Haversine distance and a tolerance. An example is a length of 252 ± 1 m.
