/**
 * The numeric collaborators of the calculator: the Haversine distance of
 * src/helpers.js and `Math.sqrt`. Neither is computed here; each enters the
 * model as a function value with the one fact the calculator relies on.
 */
module Helpers {

  /** The part of a vertex that the distance function reads: `{lat, lon}`. */
  datatype LatLon = LatLon(lat: real, lon: real)

  /**
   * A great-circle distance in metres. The Haversine formula yields
   * `R * 2 * atan2(sqrt(a), sqrt(1 - a))` with both arguments of `atan2`
   * non-negative, so its value is never negative; that is all the model uses.
   */
  type Distance = f: (LatLon, LatLon) -> real | forall p, q :: 0.0 <= f(p, q)
    witness (p: LatLon, q: LatLon) => 0.0

  /** `sqrt` agrees with the real square root on every non-negative argument. */
  ghost predicate IsSquareRoot(sqrt: real -> real) {
    forall x :: 0.0 <= x ==> 0.0 <= sqrt(x) && sqrt(x) * sqrt(x) == x
  }

  /** Squaring is strictly increasing on the non-negative reals. */
  lemma SquareLess(a: real, b: real)
    ensures 0.0 <= a < b ==> a * a < b * b
  {
    if 0.0 <= a < b {
      var aa, ab, bb := a * a, a * b, b * b;
      assert aa <= ab;
      assert ab < bb;
    }
  }

  /** The length of the hypotenuse over legs `dh` and `d`: `sqrt(dh * dh + d * d)`. */
  function Hypot(sqrt: real -> real, dh: real, d: real): real {
    sqrt(dh * dh + d * d)
  }

  /** With a true square root, the hypotenuse is at least the non-negative leg `d`. */
  lemma ObliqueTermBound(sqrt: real -> real, dh: real, d: real)
    ensures IsSquareRoot(sqrt) && 0.0 <= d ==> d <= Hypot(sqrt, dh, d)
  {
    if IsSquareRoot(sqrt) && 0.0 <= d {
      var x := dh * dh + d * d;
      var s := sqrt(x);
      assert 0.0 <= dh * dh;
      assert 0.0 <= s && s * s == x;
      SquareLess(s, d);
    }
  }

  /** Every hypotenuse over a non-negative leg `d` is at least `d`. */
  ghost predicate HypotDominatesLeg(sqrt: real -> real) {
    forall dh, d {:trigger Hypot(sqrt, dh, d)} :: 0.0 <= d ==> d <= Hypot(sqrt, dh, d)
  }

  /** A true square root makes every hypotenuse dominate its leg. */
  lemma SquareRootDominates(sqrt: real -> real)
    ensures IsSquareRoot(sqrt) ==> HypotDominatesLeg(sqrt)
  {
    forall dh, d | 0.0 <= d
      ensures IsSquareRoot(sqrt) ==> d <= Hypot(sqrt, dh, d)
    {
      ObliqueTermBound(sqrt, dh, d);
    }
  }
}
