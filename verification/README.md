# Racetrack game simulation core, in Dafny

A model of the simulation logic of a top-down arcade driving game in
three.js. The player drives clockwise around a circular track, and traffic
vehicles spawn as the lap count grows. A collision ends the run. Only the
game state machine of `main.js` is modelled; the scene, meshes and textures
are not.

The model is functional. A `Game.State` value holds the `ready` flag, whether
the animation loop is installed (`running`), the angle the player has
turned, the score, the traffic roster, the timestamp of the last frame, and
the two held-key flags. Each handler is a pure function from state to state:
`reset`, `startGame`, keydown, keyup, and one `animation` frame.
`Game.Step` and `Game.Run` feed such events in order.

Modules:

- `Geometry`: `Math.PI` as the exact rational value of the IEEE double, the
  track circles, and squared distances. Both circles have radius 225. The
  player circles the left arc centre (−arcCenterX, 0) and the traffic circles
  the right arc centre (arcCenterX, 0). `cos`, `sin` and the setup constant
  `arcCenterX` are uninterpreted and arrive as a `Trig` parameter.
- `Traffic`: vehicles, their construction from the three random draws of
  `addVehicle` that the simulation reads, and their movement along the track.
  The colour draw that `Car()` or `Truck()` makes between the type draw and
  the direction draw is left out.
- `Collision`: hit zones and `hitDetection`.
- `Game`: the run state and its transitions.
- `Runs`: properties of event sequences. These cover the invariant every
  event keeps while frame timestamps do not go backwards, progress within a
  run, and what a reset or a stop guarantees.

The model keeps these behaviours of the program as written:

- `getHitZonePosition` computes `angle + clockwise ? -π/2 : π/2`, which
  JavaScript reads as `(angle + clockwise) ? …`. The hit-zone offset
  therefore always points in the direction `-π/2`, except in the one case
  where `angle + clockwise` is zero.
- Both hit zones of a traffic vehicle use offset 15, so they are the same
  point.
- Only three of the four zone pairs are compared.
- Trucks are never checked for collisions.
- `!lastTimestamp` treats a recorded timestamp of 0 like a missing one.
- `reset` does not uninstall a running animation loop; it only sets `ready`.
  As a result, a crash after a mid-run reset leaves `ready` set, and ArrowUp
  resumes the crashed game without another reset.
  `Runs.CrashAfterMidRunResetResumes` states this for every such state, and
  `Runs.ResumeAfterCrashFollowingMidRunReset` exhibits one trace.

## Model

| member | source | states |
|---|---|---|
| Geometry.DistanceSquared | main.js:704-708 | the squared distance between two points is never negative |
| Geometry.RootComparison | main.js:704-708 | for the non-negative root r of d, `r < 40` exactly when `d < 1600`, so the square comparison decides like the source's `sqrt(...) < 40` |
| Geometry.DistanceToSelf | main.js:704-708 | a point is at distance zero from itself |
| Geometry.DistanceIsTranslationInvariant | main.js:704-708 | shifting both points by one vector leaves their distance unchanged |
| Geometry.OnCircle | main.js:618-619 | when `cos` and `sin` satisfy cos² + sin² = 1, the point lies exactly 225 from the given centre |
| Traffic.PickKind | main.js:272-274 | `pickRandom(["car", "truck"])` yields a car exactly when the draw is below one half |
| Traffic.VehicleSpeed | main.js:597-608 | for a draw in [0, 1), a car's speed factor lies in [1, 2) and a truck's in [0.6, 1.5) |
| Traffic.SpeedDraw | main.js:597-608 | every speed in a kind's range is produced by a draw in [0, 1) |
| Traffic.VehicleSpeedIsStrictlyIncreasing | main.js:597-608 | a larger draw gives a strictly faster vehicle, so different draws give different speeds |
| Traffic.NewVehicle | main.js:582-595 | the new vehicle is a car iff the type draw is below 1/2, and clockwise iff the direction draw exceeds 1/2; it starts at π/2 (clockwise) or −π/2 (otherwise), its speed lies in its kind's range, and its rotation is 0 |
| Traffic.MoveVehicle | main.js:610-616 | a move keeps kind, direction and speed factor; the angle moves in the direction of travel by exactly `speed · Δt · vehicle.speed` (down when clockwise, up otherwise); with non-negative time and speed it never moves against the direction of travel, and it strictly changes when both are positive |
| Traffic.Rotation | main.js:620-621 | a vehicle's heading is its angle ∓ π/2, and it lies below the angle exactly when the vehicle is clockwise |
| Traffic.RotationFollowsMove | main.js:610-621 | a move turns the heading by exactly as much as it turns the angle |
| Traffic.MoveVehicleInverse | main.js:610-616 | moving by −Δt after Δt restores the vehicle |
| Traffic.MoveVehicleAdditive | main.js:610-616 | moving by t1 and then by t2 equals one move by t1 + t2 |
| Traffic.MoveOtherVehicles | main.js:610-627 | the roster keeps its length and order, and each vehicle makes its own move |
| Traffic.MoveOtherVehiclesInverse | main.js:610-627 | moving the roster back by the same time restores it |
| Collision.ZoneDirection | main.js:629-634 | the offset direction is −π/2 or π/2, and it is π/2 exactly when `angle + clockwise` is 0 |
| Collision.ZoneDirectionIgnoresHeading | main.js:629-634 | any two non-degenerate angles give the same offset direction, −π/2 |
| Collision.ZoneDirectionIsNotHeadingRelative | main.js:630 | the as-written parse differs from the heading-relative `angle + (clockwise ? −π/2 : π/2)` for a clockwise vehicle at angle π |
| Collision.HitZonePosition | main.js:629-635 | a zone at distance 0 is the centre; away from the degenerate angle the zone lies in direction −π/2 whatever the heading; when cos² + sin² = 1 the zone lies \|distance\| from the centre |
| Collision.ZonesMirrorThroughCentre | main.js:629-635 | the zones at `distance` and `−distance` have the centre as their midpoint |
| Collision.PlayerPosition | main.js:564-567 | the player sits at angle π + playerAngleMoved on the track circle around (−arcCenterX, 0), at distance 225 from that centre when cos² + sin² = 1 |
| Collision.VehiclePosition | main.js:618-619 | a traffic vehicle sits at its angle on the track circle around (arcCenterX, 0), at distance 225 from that centre when cos² + sin² = 1 |
| Collision.CarHits | main.js:653-674 | a truck never hits; a car hits exactly when the player's front or back zone is within 40 of the car's zone, because the car's two zones are one point |
| Collision.AnyCarHits | main.js:652-674 | the short-circuiting scan is true iff some roster vehicle is a car with one of the three compared zone pairs within 40 |
| Collision.HitDetection | main.js:637-674 | a hit occurs iff some car has the player's front or back zone within 40 of its (single) zone |
| Collision.Cars | main.js:652-653 | filtering keeps exactly the roster's cars |
| Collision.TrucksNeverHit | main.js:652-699 | removing every truck from the roster never changes the collision verdict |
| Collision.TruckRosterNeverHits | main.js:652-674 | a roster of trucks alone never causes a hit, wherever the trucks are |
| Collision.CoincidentZonesHit | main.js:669-673 | a car whose zone coincides with the player's front zone is a hit |
| Collision.FrontPairComparesCentres | main.js:629-669 | away from the degenerate angles, the front-zone pair is within range exactly when the two vehicle centres are |
| Game.Laps | main.js:542 | the lap count is the n ≥ 0 with n·π/2 ≤ \|angle\| < (n+1)·π/2 |
| Game.LapsMonotone | main.js:542 | turning further never lowers the lap count |
| Game.Reset | main.js:477-493 | whatever the prior state: angle 0, score 0, empty roster, no timestamp, ready set; the score matches the laps; the loop and key flags are kept |
| Game.Initial | main.js:462-475 | the game loads ready, with no loop installed and no key held |
| Game.StartGame | main.js:495-500 | when ready, it installs the loop, clears `ready` and changes nothing else; otherwise it changes nothing |
| Game.KeyDown | main.js:502-518 | ArrowUp starts the game and sets accelerate; ArrowDown sets decelerate; R or r resets; any other key changes nothing |
| Game.KeyUp | main.js:520-530 | releasing ArrowUp or ArrowDown clears only that key's flag |
| Game.PlayerSpeed | main.js:576-580 | accelerate gives 2·speed even when decelerate is also held; decelerate alone gives 0.5·speed; neither gives the base speed |
| Game.MovePlayerAngle | main.js:561-563 | the angle moved falls by the selected speed times Δt; it never rises for Δt ≥ 0 and strictly falls for Δt > 0 |
| Game.HasBaseline | main.js:533 | a frame has no baseline exactly when the recorded timestamp is missing or 0, since `!lastTimestamp` treats 0 as falsy |
| Game.ShouldSpawn | main.js:550-551 | `count < (laps + 1) / 5` over the reals holds iff `5·count < laps + 1` |
| Game.NextRoster | main.js:551-553 | the roster grows by one exactly when the spawn rule holds; earlier vehicles keep their places, moved; the spawned one comes last, moved too |
| Game.Animation | main.js:532-559 | with no baseline only the timestamp is recorded; otherwise the player turns, the score becomes the lap count, the roster follows the spawn rule, the loop stays installed iff it was and no hit is found, and the timestamp is recorded |
| Game.Step | main.js:498-530 | a frame while the loop is not installed changes nothing; only an ArrowUp press while ready installs the loop; only a press can set `ready`; a release changes only the held-key flags; without a frame the angle and score stay or are reset to 0; only an R or r press shrinks the roster |
| Game.Run | main.js:498-701 | with no key press the loop is never installed and `ready` is unchanged; with no frame the angle and score are either unchanged or reset to 0 |
| Game.RunConcat | main.js:498-701 | feeding two event sequences one after the other equals feeding their concatenation |
| Runs.ResetForgetsHistory | main.js:477-493 | any two resets agree on everything but the loop and key flags; a reset state satisfies the run invariant; reset is idempotent |
| Runs.StartGameIdempotent | main.js:495-500 | a second `startGame` is a no-op |
| Runs.PressThenRelease | main.js:502-530 | releasing ArrowUp or ArrowDown after pressing it clears that key's flag, whatever it was before the press; of the ArrowUp press only the start remains |
| Runs.SpeedRegimesOrdered | main.js:576-580 | decelerating is slower than the base speed, which is slower than accelerating; decelerate is ignored while accelerate is held |
| Runs.FrameNeverStarts | main.js:532-559 | a frame never installs the loop and never sets `ready` |
| Runs.StepKeepsClock | main.js:532-558 | each event keeps the recorded timestamp no later than the latest frame |
| Runs.FrameKeepsGood | main.js:532-559 | a full frame whose timestamp is not earlier than the last keeps the invariant and makes progress: the angle does not rise, the score does not fall, and the roster only grows with every vehicle moved along its own direction |
| Runs.PressKeepsGood | main.js:502-518 | a key press keeps the invariant, and any key but R or r leaves angle, score and roster as they were, and so makes progress |
| Runs.StepKeepsGood | main.js:532-559 | with in-order timestamps, each event keeps the invariant: angle ≤ 0, score equal to laps, at most one vehicle per five laps beyond the first, speeds in range; any event except a reset makes progress |
| Runs.RunKeepsGood | main.js:532-559 | the invariant holds after every event sequence whose frame timestamps do not decrease |
| Runs.RunMakesProgress | main.js:540-553 | within a run with no reset, the angle never rises and the score never falls; the roster only grows, and each vehicle keeps its identity and moves only in its own direction |
| Runs.StoppedStaysStopped | main.js:495-518 | with the loop uninstalled and `ready` clear, no event sequence without a reset reinstalls it; ArrowUp included |
| Runs.HitStopsUntilReset | main.js:701 | after a started game detects a hit, the loop stays uninstalled until a reset |
| Runs.BaselineFrameOnlyRecords | main.js:532-536 | a frame without a baseline leaves angle, score, roster and loop unchanged and records the timestamp |
| Runs.FrameSpawnsAtMostOne | main.js:550-551 | a frame adds at most one vehicle, and adds one exactly when there is a baseline and 5·count < laps + 1 |
| Runs.OneSecondAtBaseSpeed | main.js:538-551 | from the start, 1000 ms at base speed turns the player by −1.7; the score becomes 1 and the first vehicle spawns |
| Runs.FifthLapSpawnsSecondVehicle | main.js:550-551 | with one vehicle, reaching lap 5 spawns a second, and lap 4 does not |
| Runs.MidRunResetKeepsLoop | main.js:477-493 | an R or r press while the loop is installed leaves it installed and sets `ready` |
| Runs.CrashAfterMidRunResetResumes | main.js:477-701 | from any running state with `ready` set and a baseline, a frame that detects a hit uninstalls the loop but leaves `ready` set, and an ArrowUp press then reinstalls it |
| Runs.CollapsedCarHits | main.js:637-674 | when every point of the track is the origin, any roster holding a car causes a hit |
| Runs.ResumeAfterCrashFollowingMidRunReset | main.js:477-500 | one concrete trace: start, reset mid-run, then crash; the loop stops with `ready` still set, and ArrowUp restarts it |

## Left out

- Rendering, scene, camera, lights and `renderer.render`. Installing and uninstalling the loop with `setAnimationLoop` is modelled only as the `running` flag.
- Track geometry (`arcAngle1..4`, the island and field shapes). These are setup-only floating point; only `arcCenterX` reaches the simulation, and it is a parameter.
- The `Car`, `Truck`, `Wheel` and `Tree` meshes and the canvas textures: they are presentation only.
- `Math.random` and random colours. The three draws of `addVehicle` that the simulation reads are a `SpawnDraw` parameter of each frame, each value in [0, 1). The colour draw that `Car()` or `Truck()` makes between the type and direction draws only colours the mesh.
- DOM and event wiring (`addEventListener`, `scoreElement.innerText`). Key events are the `Press` and `Release` events of `Game.Step`.
- Concrete `cos`, `sin` and `sqrt` values. `cos` and `sin` are uninterpreted, and distances are compared squared.
- IEEE floating point. All arithmetic is exact over the reals; NaN and rounding are not modelled.
- The player's rotation (`rotation.z`): it is presentation only. The traffic rotation is `Traffic.Rotation`, but it is not stored in the state because nothing in the simulation reads it back.
- Geometry.DistanceSquared: the converse fact, that distance zero implies the same point, is not stated. The solver does not derive it without nonlinear arithmetic, and no other member needs it.
