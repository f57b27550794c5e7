/** Collision detection as `hitDetection` performs it: two hit zones per
    vehicle, offset 15 units from its centre, and a hit when a pair of zones
    of the player and of a traffic car is closer than 40.

    Three peculiarities of the program are kept as written:
    - the offset direction is `(angle + clockwise) ? -π/2 : π/2`, so it does
      not follow the vehicle's heading (see `ZoneDirection`);
    - both hit zones of a traffic vehicle are computed with the same offset,
      so they are one point (see `HitDetection`);
    - only three of the four player/vehicle zone pairs are compared, and
      trucks are never compared at all. */
module Collision {
  import opened Geometry
  import opened Traffic

  /** Starting angle of the player: `Math.PI`. */
  const PlayerAngleInitial: real := Pi

  /** Distance from a vehicle's centre to its hit zones. */
  const ZoneOffset: real := 15.0

  /** Offset direction of `getHitZonePosition`. The expression
      `angle + clockwise ? -π/2 : π/2` is read by JavaScript as
      `(angle + clockwise) ? -π/2 : π/2`: the boolean adds as 1 or 0, and the
      sum selects the branch by being non-zero. */
  function ZoneDirection(angle: real, clockwise: bool): (dir: real)
    ensures dir == -Pi / 2.0 || dir == Pi / 2.0
    ensures dir == Pi / 2.0 <==> angle == (if clockwise then -1.0 else 0.0)
  {
    var sum := angle + (if clockwise then 1.0 else 0.0);
    if sum != 0.0 then -Pi / 2.0 else Pi / 2.0
  }

  /** The offset direction ignores the heading: any two angles outside the
      single degenerate value give the same direction. */
  lemma ZoneDirectionIgnoresHeading(a1: real, c1: bool, a2: real, c2: bool)
    requires a1 != (if c1 then -1.0 else 0.0)
    requires a2 != (if c2 then -1.0 else 0.0)
    ensures ZoneDirection(a1, c1) == ZoneDirection(a2, c2) == -Pi / 2.0
  {
  }

  /** The parse differs from the heading-relative reading
      `angle + (clockwise ? -π/2 : π/2)`: for a clockwise vehicle at angle π
      the two point in opposite directions. */
  lemma ZoneDirectionIsNotHeadingRelative()
    ensures ZoneDirection(Pi, true) != Pi + -Pi / 2.0
  {
  }

  /** `getHitZonePosition`: the point `distance` away from `center` in the
      offset direction. Outside the degenerate angle that direction is -π/2
      whatever the vehicle's heading, and with a genuine `cos` and `sin` the
      zone lies `|distance|` from the centre. */
  function HitZonePosition(trig: Trig, center: Point, angle: real, clockwise: bool, distance: real): (zone: Point)
    ensures distance == 0.0 ==> zone == center
    ensures angle != (if clockwise then -1.0 else 0.0) ==>
              zone == Point(center.x + trig.cos(-Pi / 2.0) * distance, center.y + trig.sin(-Pi / 2.0) * distance)
    ensures Pythagorean(trig) ==> DistanceSquared(center, zone) == distance * distance
  {
    var dir := ZoneDirection(angle, clockwise);
    Point(center.x + trig.cos(dir) * distance, center.y + trig.sin(dir) * distance)
  }

  /** Where `movePlayerCar` puts the player: on the track circle around the
      left arc centre (-arcCenterX, 0), at `π + playerAngleMoved`. */
  function PlayerPosition(trig: Trig, playerAngleMoved: real): (p: Point)
    ensures p.y == trig.sin(PlayerAngleInitial + playerAngleMoved) * TrackRadius
    ensures p.x + trig.arcCenterX == trig.cos(PlayerAngleInitial + playerAngleMoved) * TrackRadius
    ensures Pythagorean(trig) ==> DistanceSquared(Point(-trig.arcCenterX, 0.0), p) == TrackRadius * TrackRadius
  {
    OnCircle(trig, PlayerAngleInitial + playerAngleMoved, -trig.arcCenterX)
  }

  /** Where `moveOtherVehicles` puts a traffic vehicle: on the track circle
      around the right arc centre (arcCenterX, 0), at the vehicle's angle. */
  function VehiclePosition(trig: Trig, v: Vehicle): (p: Point)
    ensures p.y == trig.sin(v.angle) * TrackRadius
    ensures p.x - trig.arcCenterX == trig.cos(v.angle) * TrackRadius
    ensures Pythagorean(trig) ==> DistanceSquared(Point(trig.arcCenterX, 0.0), p) == TrackRadius * TrackRadius
  {
    OnCircle(trig, v.angle, trig.arcCenterX)
  }

  /** The player's front (`distance` 15) and back (`distance` -15) zones; the
      player always counts as clockwise. */
  function PlayerZone(trig: Trig, playerAngleMoved: real, distance: real): Point
  {
    HitZonePosition(trig, PlayerPosition(trig, playerAngleMoved),
                    PlayerAngleInitial + playerAngleMoved, true, distance)
  }

  /** A traffic vehicle's zone at the given offset. */
  function VehicleZone(trig: Trig, v: Vehicle, distance: real): Point
  {
    HitZonePosition(trig, VehiclePosition(trig, v), v.angle, v.clockwise, distance)
  }

  /** The callback of `otherVehicles.some`: a car hits the player when player
      zone 1 is near either vehicle zone, or player zone 2 is near vehicle
      zone 1. Both vehicle zones are computed with offset 15, so the three
      pairs come down to two, and a truck never hits. */
  function CarHits(trig: Trig, p1: Point, p2: Point, v: Vehicle): (hit: bool)
    ensures v.kind == Truck ==> !hit
    ensures hit <==> v.kind == Car && (WithinHitRange(p1, VehicleZone(trig, v, ZoneOffset)) ||
                                       WithinHitRange(p2, VehicleZone(trig, v, ZoneOffset)))
  {
    && v.kind == Car
    && var v1 := VehicleZone(trig, v, ZoneOffset);
       var v2 := VehicleZone(trig, v, ZoneOffset);
       WithinHitRange(p1, v1) || WithinHitRange(p1, v2) || WithinHitRange(p2, v1)
  }

  /** The zones at `distance` and `-distance` lie on opposite sides of the
      centre: the centre is their midpoint. */
  lemma ZonesMirrorThroughCentre(trig: Trig, center: Point, angle: real, clockwise: bool, distance: real)
    ensures var front := HitZonePosition(trig, center, angle, clockwise, distance);
            var back := HitZonePosition(trig, center, angle, clockwise, -distance);
            front.x + back.x == 2.0 * center.x && front.y + back.y == 2.0 * center.y
  {
  }

  /** `otherVehicles.some(...)`: scans the roster in order and stops at the
      first car that hits. True exactly when some vehicle of the roster hits. */
  function AnyCarHits(trig: Trig, p1: Point, p2: Point, traffic: seq<Vehicle>): (hit: bool)
    ensures hit <==> exists i :: 0 <= i < |traffic| && CarHits(trig, p1, p2, traffic[i])
  {
    if |traffic| == 0 then false
    else if CarHits(trig, p1, p2, traffic[0]) then true
    else
      assert forall i :: 1 <= i < |traffic| ==> traffic[i] == traffic[1..][i - 1];
      AnyCarHits(trig, p1, p2, traffic[1..])
  }

  /** `hitDetection`: whether the player, at `playerAngleMoved`, collides
      with any car of the roster. As both zones of a vehicle are the same
      point, the three compared pairs come down to two: the player's front or
      back zone near the car's zone. */
  function HitDetection(trig: Trig, playerAngleMoved: real, traffic: seq<Vehicle>): (hit: bool)
    ensures hit <==> (exists i :: 0 <= i < |traffic| && traffic[i].kind == Car &&
                        (WithinHitRange(PlayerZone(trig, playerAngleMoved, ZoneOffset), VehicleZone(trig, traffic[i], ZoneOffset)) ||
                         WithinHitRange(PlayerZone(trig, playerAngleMoved, -ZoneOffset), VehicleZone(trig, traffic[i], ZoneOffset))))
  {
    var p1 := PlayerZone(trig, playerAngleMoved, ZoneOffset);
    var p2 := PlayerZone(trig, playerAngleMoved, -ZoneOffset);
    AnyCarHits(trig, p1, p2, traffic)
  }

  /** The vehicles of the roster that are cars, in roster order. */
  function Cars(traffic: seq<Vehicle>): (cars: seq<Vehicle>)
    ensures |cars| <= |traffic|
    ensures forall v :: v in cars <==> v in traffic && v.kind == Car
  {
    if |traffic| == 0 then []
    else if traffic[0].kind == Car then [traffic[0]] + Cars(traffic[1..])
    else Cars(traffic[1..])
  }

  /** Trucks never take part in a hit: removing every truck from the roster
      leaves the verdict unchanged. */
  lemma {:induction false} TrucksNeverHit(trig: Trig, p1: Point, p2: Point, traffic: seq<Vehicle>)
    ensures AnyCarHits(trig, p1, p2, traffic) == AnyCarHits(trig, p1, p2, Cars(traffic))
  {
    if |traffic| > 0 {
      TrucksNeverHit(trig, p1, p2, traffic[1..]);
      assert AnyCarHits(trig, p1, p2, traffic) ==
        (CarHits(trig, p1, p2, traffic[0]) || AnyCarHits(trig, p1, p2, traffic[1..]));
      if traffic[0].kind == Car {
        var cars := [traffic[0]] + Cars(traffic[1..]);
        assert cars[1..] == Cars(traffic[1..]);
        assert AnyCarHits(trig, p1, p2, cars) ==
          (CarHits(trig, p1, p2, traffic[0]) || AnyCarHits(trig, p1, p2, Cars(traffic[1..])));
      }
    }
  }

  /** A roster of trucks only never stops the game, wherever they are. */
  lemma TruckRosterNeverHits(trig: Trig, playerAngleMoved: real, traffic: seq<Vehicle>)
    requires forall i :: 0 <= i < |traffic| ==> traffic[i].kind == Truck
    ensures !HitDetection(trig, playerAngleMoved, traffic)
  {
  }

  /** A car whose zone lies exactly on the player's front zone is a hit. */
  lemma CoincidentZonesHit(trig: Trig, playerAngleMoved: real, traffic: seq<Vehicle>, i: int)
    requires 0 <= i < |traffic| && traffic[i].kind == Car
    requires VehicleZone(trig, traffic[i], ZoneOffset) == PlayerZone(trig, playerAngleMoved, ZoneOffset)
    ensures HitDetection(trig, playerAngleMoved, traffic)
  {
    DistanceToSelf(PlayerZone(trig, playerAngleMoved, ZoneOffset));
  }

  /** Away from the degenerate angles, every zone is shifted from its centre by
      the same vector, so the front-zone pair is within range exactly when the
      two centres are. */
  lemma FrontPairComparesCentres(trig: Trig, playerAngleMoved: real, v: Vehicle)
    requires PlayerAngleInitial + playerAngleMoved != -1.0
    requires v.angle != (if v.clockwise then -1.0 else 0.0)
    ensures WithinHitRange(PlayerZone(trig, playerAngleMoved, ZoneOffset), VehicleZone(trig, v, ZoneOffset))
        <==> WithinHitRange(PlayerPosition(trig, playerAngleMoved), VehiclePosition(trig, v))
  {
    var dir := -Pi / 2.0;
    ZoneDirectionIgnoresHeading(PlayerAngleInitial + playerAngleMoved, true, v.angle, v.clockwise);
    DistanceIsTranslationInvariant(PlayerPosition(trig, playerAngleMoved), VehiclePosition(trig, v),
                                   trig.cos(dir) * ZoneOffset, trig.sin(dir) * ZoneOffset);
  }
}
