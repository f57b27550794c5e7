/** Traffic vehicles: how one is constructed from the random draws of
    `addVehicle` and `getVehicleSpeed`, and how `moveOtherVehicles` turns each
    one along the track every frame. */
module Traffic {
  import opened Geometry

  /** A value returned by `Math.random`: a real in [0, 1). */
  type Fraction = r: real | 0.0 <= r < 1.0

  /** Base angular speed, in radians per millisecond, shared by the player and
      the traffic. */
  const Speed: real := 0.0017

  datatype Kind = Car | Truck

  datatype Vehicle = Vehicle(kind: Kind, clockwise: bool, angle: real, speed: real)

  /** The three random draws of `addVehicle` that the simulation reads: the
      type, the direction, and the speed factor. The colour draw that `Car()`
      or `Truck()` makes between the first two only colours the mesh. */
  datatype SpawnDraw = SpawnDraw(kindDraw: Fraction, directionDraw: Fraction, speedDraw: Fraction)

  /** Lowest and highest speed factor of each kind. */
  function MinimumSpeed(kind: Kind): real
  {
    match kind
    case Car => 1.0
    case Truck => 0.6
  }

  function MaximumSpeed(kind: Kind): real
  {
    match kind
    case Car => 2.0
    case Truck => 1.5
  }

  /** The speed factor lies in the half-open range of the vehicle's kind. */
  predicate SpeedInRange(v: Vehicle)
  {
    MinimumSpeed(v.kind) <= v.speed < MaximumSpeed(v.kind)
  }

  /** `pickRandom(["car", "truck"])`: the element at index `floor(r * 2)`. */
  function PickKind(r: Fraction): (k: Kind)
    ensures k == Car <==> r < 0.5
  {
    var index := (r * 2.0).Floor;
    if index == 0 then Car else Truck
  }

  /** `getVehicleSpeed`: the minimum of the kind plus the draw times the
      width of the kind's range. */
  function VehicleSpeed(kind: Kind, r: Fraction): (s: real)
    ensures kind == Car ==> 1.0 <= s < 2.0
    ensures kind == Truck ==> 0.6 <= s < 1.5
  {
    MinimumSpeed(kind) + r * (MaximumSpeed(kind) - MinimumSpeed(kind))
  }

  /** The draw that makes `getVehicleSpeed` return `s`. */
  function SpeedDraw(kind: Kind, s: real): (r: Fraction)
    requires MinimumSpeed(kind) <= s < MaximumSpeed(kind)
    ensures VehicleSpeed(kind, r) == s
  {
    (s - MinimumSpeed(kind)) / (MaximumSpeed(kind) - MinimumSpeed(kind))
  }

  /** A larger draw gives a faster vehicle, so each speed comes from exactly
      one draw and every speed of the kind's range is reachable. */
  lemma VehicleSpeedIsStrictlyIncreasing(kind: Kind, r1: Fraction, r2: Fraction)
    ensures r1 < r2 <==> VehicleSpeed(kind, r1) < VehicleSpeed(kind, r2)
    ensures VehicleSpeed(kind, r1) == VehicleSpeed(kind, r2) ==> r1 == r2
  {
  }

  /** Heading (`rotation.z`) of a traffic vehicle: a quarter turn behind its
      angle when clockwise, a quarter turn ahead otherwise, so it always
      points along the direction of travel. */
  function Rotation(v: Vehicle): (heading: real)
    ensures heading == v.angle - Pi / 2.0 || heading == v.angle + Pi / 2.0
    ensures v.clockwise <==> heading < v.angle
  {
    v.angle + (if v.clockwise then -Pi / 2.0 else Pi / 2.0)
  }

  /** `addVehicle`: a vehicle of a random kind, clockwise when the direction
      draw exceeds one half, placed at the top (clockwise) or bottom of the
      circle, with a speed from its kind's range. */
  function NewVehicle(draw: SpawnDraw): (v: Vehicle)
    ensures v.kind == Car <==> draw.kindDraw < 0.5
    ensures v.clockwise <==> draw.directionDraw > 0.5
    ensures v.clockwise ==> v.angle == Pi / 2.0
    ensures !v.clockwise ==> v.angle == -Pi / 2.0
    ensures SpeedInRange(v)
    ensures Rotation(v) == 0.0
  {
    var kind := PickKind(draw.kindDraw);
    var clockwise := draw.directionDraw > 0.5;
    var angle := if clockwise then Pi / 2.0 else -Pi / 2.0;
    Vehicle(kind, clockwise, angle, VehicleSpeed(kind, draw.speedDraw))
  }

  /** The vehicle keeps its kind, direction and speed factor. */
  predicate SameVehicle(a: Vehicle, b: Vehicle)
  {
    a.kind == b.kind && a.clockwise == b.clockwise && a.speed == b.speed
  }

  /** `b` is `a` later in the same run: the same vehicle, turned no further
      back than where `a` was, in `a`'s direction of travel. */
  predicate Follows(a: Vehicle, b: Vehicle)
  {
    SameVehicle(a, b) && (if a.clockwise then b.angle <= a.angle else a.angle <= b.angle)
  }

  /** One vehicle's share of `moveOtherVehicles`: its angle falls (clockwise)
      or rises (otherwise) by `speed * timeDelta * vehicle.speed`. */
  function MoveVehicle(v: Vehicle, timeDelta: real): (w: Vehicle)
    ensures SameVehicle(v, w)
    ensures (if v.clockwise then v.angle - w.angle else w.angle - v.angle) == Speed * timeDelta * v.speed
    ensures timeDelta >= 0.0 && v.speed >= 0.0 ==> Follows(v, w)
    ensures timeDelta > 0.0 && v.speed > 0.0 ==> w.angle != v.angle
  {
    var step := Speed * timeDelta * v.speed;
    assert timeDelta >= 0.0 && v.speed >= 0.0 ==> step >= 0.0;
    assert timeDelta > 0.0 && v.speed > 0.0 ==> step > 0.0;
    if v.clockwise then v.(angle := v.angle - step) else v.(angle := v.angle + step)
  }

  /** A move turns the heading by exactly as much as the angle. */
  lemma RotationFollowsMove(v: Vehicle, timeDelta: real)
    ensures Rotation(MoveVehicle(v, timeDelta)) - Rotation(v) == MoveVehicle(v, timeDelta).angle - v.angle
  {
  }

  /** Turning back by the same time undoes a move. */
  lemma MoveVehicleInverse(v: Vehicle, timeDelta: real)
    ensures MoveVehicle(MoveVehicle(v, timeDelta), -timeDelta) == v
  {
    var w := MoveVehicle(v, timeDelta);
    assert Speed * -timeDelta * w.speed == -(Speed * timeDelta * v.speed);
  }

  /** Two moves add up to one move over the summed time. */
  lemma MoveVehicleAdditive(v: Vehicle, t1: real, t2: real)
    ensures MoveVehicle(MoveVehicle(v, t1), t2) == MoveVehicle(v, t1 + t2)
  {
    assert Speed * t1 * v.speed + Speed * t2 * v.speed == Speed * (t1 + t2) * v.speed;
  }

  /** `moveOtherVehicles`: every vehicle of the roster moves by the same time,
      in roster order. */
  function MoveOtherVehicles(traffic: seq<Vehicle>, timeDelta: real): (moved: seq<Vehicle>)
    ensures |moved| == |traffic|
    ensures forall i :: 0 <= i < |traffic| ==> moved[i] == MoveVehicle(traffic[i], timeDelta)
  {
    if |traffic| == 0 then []
    else [MoveVehicle(traffic[0], timeDelta)] + MoveOtherVehicles(traffic[1..], timeDelta)
  }

  /** Moving the roster and moving it back by the same time restores it. */
  lemma {:induction false} MoveOtherVehiclesInverse(traffic: seq<Vehicle>, timeDelta: real)
    ensures MoveOtherVehicles(MoveOtherVehicles(traffic, timeDelta), -timeDelta) == traffic
  {
    var back := MoveOtherVehicles(MoveOtherVehicles(traffic, timeDelta), -timeDelta);
    forall i | 0 <= i < |traffic|
      ensures back[i] == traffic[i]
    {
      MoveVehicleInverse(traffic[i], timeDelta);
    }
  }
}
