/** The game loop controller: the run state, the transitions made by
    `reset`, `startGame` and the key handlers, and one frame of `animation`.
    The animation loop being installed (`renderer.setAnimationLoop`) is the
    `running` flag; the score shown on screen is `score`. */
module Game {
  import opened Geometry
  import opened Traffic
  import opened Collision

  datatype Option<T> = None | Some(value: T)

  datatype State = State(
    ready: bool,                    // `startGame` may install the loop
    running: bool,                  // the animation loop is installed
    playerAngleMoved: real,         // angle the player has turned since reset
    score: int,                     // quarter turns completed, as displayed
    otherVehicles: seq<Vehicle>,    // the traffic roster, in spawn order
    lastTimestamp: Option<real>,    // timestamp of the previous frame
    accelerate: bool,               // ArrowUp held
    decelerate: bool)               // ArrowDown held

  /** Quarter turns completed after turning `playerAngleMoved`:
      `floor(|playerAngleMoved| / (π/2))`. */
  function Laps(playerAngleMoved: real): (n: int)
    ensures n >= 0
    ensures (n as real) * (Pi / 2.0) <= Abs(playerAngleMoved) < ((n + 1) as real) * (Pi / 2.0)
  {
    (Abs(playerAngleMoved) / (Pi / 2.0)).Floor
  }

  function Abs(x: real): real
  {
    if x < 0.0 then -x else x
  }

  /** Turning further never loses a lap. */
  lemma LapsMonotone(a: real, b: real)
    requires Abs(a) <= Abs(b)
    ensures Laps(a) <= Laps(b)
  {
    var n, m := Laps(a), Laps(b);
    assert (n as real) * (Pi / 2.0) < ((m + 1) as real) * (Pi / 2.0);
  }

  /** The state every reset produces out of `s`: position, score, roster and
      frame clock start over and the game is ready; the loop, if installed,
      and the held keys are left as they are. */
  function Reset(s: State): (r: State)
    ensures r.ready && r.playerAngleMoved == 0.0 && r.score == 0
    ensures r.otherVehicles == [] && r.lastTimestamp == None
    ensures r.score == Laps(r.playerAngleMoved)
    ensures r.running == s.running && r.accelerate == s.accelerate && r.decelerate == s.decelerate
  {
    s.(playerAngleMoved := 0.0, score := 0, lastTimestamp := None, otherVehicles := [], ready := true)
  }

  /** The state after the script's top level: fields declared, keys released,
      no loop installed, then `reset()`. */
  function Initial(): (r: State)
    ensures r.ready && !r.running && !r.accelerate && !r.decelerate
  {
    Reset(State(false, false, 0.0, 0, [], None, false, false))
  }

  /** `startGame`: installs the loop and clears `ready`, but only when ready. */
  function StartGame(s: State): (r: State)
    ensures s.ready ==> !r.ready && r.running && r == s.(ready := false, running := true)
    ensures !s.ready ==> r == s
  {
    if s.ready then s.(ready := false, running := true) else s
  }

  /** The keydown handler. */
  function KeyDown(s: State, key: string): (r: State)
    ensures key == "ArrowUp" ==> r == StartGame(s).(accelerate := true)
    ensures key == "ArrowDown" ==> r == s.(decelerate := true)
    ensures key == "R" || key == "r" ==> r == Reset(s)
    ensures key !in {"ArrowUp", "ArrowDown", "R", "r"} ==> r == s
  {
    if key == "ArrowUp" then StartGame(s).(accelerate := true)
    else if key == "ArrowDown" then s.(decelerate := true)
    else if key == "R" || key == "r" then Reset(s)
    else s
  }

  /** The keyup handler: releasing a key clears its flag and nothing else. */
  function KeyUp(s: State, key: string): (r: State)
    ensures r.accelerate == (s.accelerate && key != "ArrowUp")
    ensures r.decelerate == (s.decelerate && key != "ArrowDown")
    ensures r.(accelerate := s.accelerate, decelerate := s.decelerate) == s
  {
    if key == "ArrowUp" then s.(accelerate := false)
    else if key == "ArrowDown" then s.(decelerate := false)
    else s
  }

  /** `getPlayerSpeed`: double speed while accelerating, which wins over
      decelerating; half speed while only decelerating; base speed otherwise. */
  function PlayerSpeed(accelerate: bool, decelerate: bool): (v: real)
    ensures accelerate ==> v == 2.0 * Speed
    ensures !accelerate && decelerate ==> v == 0.5 * Speed
    ensures !accelerate && !decelerate ==> v == Speed
  {
    if accelerate then Speed * 2.0
    else if decelerate then Speed * 0.5
    else Speed
  }

  /** The angle part of `movePlayerCar`: the player turns clockwise, so the
      angle moved falls with time at the selected speed. */
  function MovePlayerAngle(s: State, timeDelta: real): (moved: real)
    ensures timeDelta >= 0.0 ==> moved <= s.playerAngleMoved
    ensures timeDelta > 0.0 ==> moved < s.playerAngleMoved
    ensures s.playerAngleMoved - moved == PlayerSpeed(s.accelerate, s.decelerate) * timeDelta
  {
    s.playerAngleMoved - PlayerSpeed(s.accelerate, s.decelerate) * timeDelta
  }

  /** The spawn rule `otherVehicles.length < (laps + 1) / 5`, compared in the
      reals as JavaScript does: one vehicle from the start and one more at
      every fifth lap. */
  function ShouldSpawn(laps: int, count: nat): (spawn: bool)
    ensures spawn <==> 5 * count < laps + 1
  {
    (count as real) < ((laps + 1) as real) / 5.0
  }

  /** `!lastTimestamp` is false: a previous frame recorded a timestamp that is
      neither missing nor zero (zero is falsy in JavaScript). */
  function HasBaseline(s: State): (b: bool)
    ensures !b <==> s.lastTimestamp == None || s.lastTimestamp == Some(0.0)
  {
    s.lastTimestamp.Some? && s.lastTimestamp.value != 0.0
  }

  /** The roster after one frame: the spawned vehicle, if any, is appended
      before every vehicle moves. */
  function NextRoster(s: State, laps: int, draw: SpawnDraw, timeDelta: real): (roster: seq<Vehicle>)
    ensures |roster| == |s.otherVehicles| + (if ShouldSpawn(laps, |s.otherVehicles|) then 1 else 0)
    ensures forall i :: 0 <= i < |s.otherVehicles| ==> roster[i] == MoveVehicle(s.otherVehicles[i], timeDelta)
    ensures ShouldSpawn(laps, |s.otherVehicles|) ==> roster[|s.otherVehicles|] == MoveVehicle(NewVehicle(draw), timeDelta)
  {
    var spawned := if ShouldSpawn(laps, |s.otherVehicles|) then s.otherVehicles + [NewVehicle(draw)] else s.otherVehicles;
    MoveOtherVehicles(spawned, timeDelta)
  }

  /** `animation(timestamp)`: one frame. Without a baseline it only records
      the timestamp. Otherwise it turns the player, updates the score to the
      lap count, spawns at most one vehicle, moves the traffic, and uninstalls
      the loop on a hit. `draw` holds the random draws the spawn would use. */
  function Animation(trig: Trig, s: State, timestamp: real, draw: SpawnDraw): (r: State)
    ensures !HasBaseline(s) ==> r == s.(lastTimestamp := Some(timestamp))
    ensures HasBaseline(s) ==>
      var timeDelta := timestamp - s.lastTimestamp.value;
      && r.playerAngleMoved == MovePlayerAngle(s, timeDelta)
      && r.score == Laps(r.playerAngleMoved)
      && r.otherVehicles == NextRoster(s, r.score, draw, timeDelta)
      && (r.running <==> s.running && !HitDetection(trig, r.playerAngleMoved, r.otherVehicles))
      && r.lastTimestamp == Some(timestamp)
      && r.ready == s.ready && r.accelerate == s.accelerate && r.decelerate == s.decelerate
  {
    if !HasBaseline(s) then s.(lastTimestamp := Some(timestamp))
    else
      var timeDelta := timestamp - s.lastTimestamp.value;
      var moved := MovePlayerAngle(s, timeDelta);
      var laps := Laps(moved);
      var score := if laps != s.score then laps else s.score;
      var roster := NextRoster(s, laps, draw, timeDelta);
      var hit := HitDetection(trig, moved, roster);
      s.(playerAngleMoved := moved, score := score, otherVehicles := roster,
         running := if hit then false else s.running, lastTimestamp := Some(timestamp))
  }

  /** What reaches the controller: key presses and releases, and frames
      (each with the random draws a spawn in that frame would use). */
  datatype Event =
    | Press(key: string)
    | Release(key: string)
    | Frame(timestamp: real, draw: SpawnDraw)

  /** One event. Frames reach `animation` only while the loop is installed.
      Only an ArrowUp press while ready installs the loop; only a reset
      clears the roster, puts the player back, or lowers the score; a
      release touches nothing but the held-key flags. */
  function Step(trig: Trig, s: State, e: Event): (r: State)
    ensures e.Frame? && !s.running ==> r == s
    ensures r.running && !s.running ==> e == Press("ArrowUp") && s.ready
    ensures !e.Press? ==> (r.running ==> s.running) && r.ready == s.ready
    ensures e.Release? ==> r.(accelerate := s.accelerate, decelerate := s.decelerate) == s
    ensures !e.Frame? ==> (r.playerAngleMoved == s.playerAngleMoved && r.score == s.score) ||
                          (r.playerAngleMoved == 0.0 && r.score == 0)
    ensures |r.otherVehicles| < |s.otherVehicles| ==> e.Press? && (e.key == "R" || e.key == "r")
  {
    match e
    case Press(key) => KeyDown(s, key)
    case Release(key) => KeyUp(s, key)
    case Frame(timestamp, draw) => if s.running then Animation(trig, s, timestamp, draw) else s
  }

  /** The events in order. Without a key press nothing can install the loop
      or make the game ready; without a frame the player neither turns nor
      scores, short of being put back to the start. */
  function Run(trig: Trig, s: State, events: seq<Event>): (r: State)
    ensures (forall i :: 0 <= i < |events| ==> !events[i].Press?) ==> (r.running ==> s.running) && r.ready == s.ready
    ensures (forall i :: 0 <= i < |events| ==> !events[i].Frame?) ==>
              (r.playerAngleMoved == s.playerAngleMoved && r.score == s.score) ||
              (r.playerAngleMoved == 0.0 && r.score == 0)
    decreases |events|
  {
    if |events| == 0 then s
    else
      var next := Step(trig, s, events[0]);
      assert forall i :: 1 <= i < |events| ==> events[i] == events[1..][i - 1];
      Run(trig, next, events[1..])
  }

  /** Feeding two event sequences one after the other is feeding their
      concatenation. */
  lemma {:induction false} RunConcat(trig: Trig, s: State, first: seq<Event>, second: seq<Event>)
    ensures Run(trig, s, first + second) == Run(trig, Run(trig, s, first), second)
    decreases |first|
  {
    if |first| > 0 {
      assert (first + second)[0] == first[0];
      assert (first + second)[1..] == first[1..] + second;
      RunConcat(trig, Step(trig, s, first[0]), first[1..], second);
    } else {
      assert first + second == second;
    }
  }
}
