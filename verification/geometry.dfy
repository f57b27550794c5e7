/** Plane geometry shared by the player and the traffic: the value of
    JavaScript's `Math.PI`, the track circles (radius 225: the player's
    around the left arc centre (-arcCenterX, 0), the traffic's around the
    right arc centre (arcCenterX, 0)), and the distance test the collision
    detector uses. */
module Geometry {

  /** `Math.PI` as the IEEE double the program computes with, written as an
      exact rational (884279719003555 / 2^48). */
  const Pi: real := 884279719003555.0 / 281474976710656.0

  /** Radius shared by the player's circle and the traffic's circle. */
  const TrackRadius: real := 225.0

  /** Distance below which two hit zones collide. */
  const HitDistance: real := 40.0

  datatype Point = Point(x: real, y: real)

  /** What the simulation reads but does not compute itself: `cos` and `sin`
      are left uninterpreted, and `arcCenterX` is the track constant the
      setup code derives once with `asin`/`acos`. */
  datatype Trig = Trig(cos: real -> real, sin: real -> real, arcCenterX: real)

  /** `cos` and `sin` satisfy the Pythagorean identity, as the real ones do. */
  ghost predicate Pythagorean(trig: Trig)
  {
    forall a :: trig.cos(a) * trig.cos(a) + trig.sin(a) * trig.sin(a) == 1.0
  }

  /** The point at `angle` on the track circle whose centre is (centerX, 0):
      with a genuine `cos` and `sin` it lies exactly one track radius from
      that centre. */
  function OnCircle(trig: Trig, angle: real, centerX: real): (p: Point)
    ensures Pythagorean(trig) ==> DistanceSquared(Point(centerX, 0.0), p) == TrackRadius * TrackRadius
  {
    Point(trig.cos(angle) * TrackRadius + centerX, trig.sin(angle) * TrackRadius)
  }

  /** Square of the Euclidean distance between two points. */
  function DistanceSquared(p: Point, q: Point): (d: real)
    ensures d >= 0.0
  {
    var dx, dy := q.x - p.x, q.y - p.y;
    assert dx * dx >= 0.0 && dy * dy >= 0.0;
    dx * dx + dy * dy
  }

  /** A point is at distance zero from itself. */
  lemma DistanceToSelf(p: Point)
    ensures DistanceSquared(p, p) == 0.0
  {
  }

  /** Two points are within hitting range when their distance is below 40;
      the comparison is made on squares, so no square root is needed. */
  predicate WithinHitRange(p: Point, q: Point)
  {
    DistanceSquared(p, q) < HitDistance * HitDistance
  }

  /** Comparing squares decides the same as comparing distances: for the
      non-negative root `r` of a squared distance `d`, `r < 40` exactly when
      `d < 1600`. */
  lemma RootComparison(d: real, r: real)
    requires r >= 0.0 && r * r == d
    ensures r < HitDistance <==> d < HitDistance * HitDistance
  {
    if r < HitDistance {
      assert r * r <= r * HitDistance < HitDistance * HitDistance;
    } else {
      assert r * r >= r * HitDistance >= HitDistance * HitDistance;
    }
  }

  /** Moving both points by the same vector leaves their distance unchanged. */
  lemma DistanceIsTranslationInvariant(p: Point, q: Point, dx: real, dy: real)
    ensures DistanceSquared(Point(p.x + dx, p.y + dy), Point(q.x + dx, q.y + dy))
         == DistanceSquared(p, q)
  {
  }
}
