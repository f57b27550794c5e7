/** Properties of whole runs of the controller: what a reset and a start
    guarantee, the invariant every event keeps while frame timestamps do not
    go backwards, and what a run without a reset can and cannot change. */
module Runs {
  import opened Geometry
  import opened Traffic
  import opened Collision
  import opened Game

  /** Facts that hold from the first reset on: the player has only turned
      clockwise, the score is the lap count, the roster is at most one
      vehicle per five laps ahead of the start, and every speed factor lies in
      its kind's range. */
  predicate GoodState(s: State)
  {
    && s.playerAngleMoved <= 0.0
    && s.score == Laps(s.playerAngleMoved)
    && 5 * |s.otherVehicles| <= s.score + 5
    && forall i :: 0 <= i < |s.otherVehicles| ==> SpeedInRange(s.otherVehicles[i])
  }

  /** The frame clock of `s` lies no later than the bound `lo`. */
  predicate ClockBelow(s: State, lo: Option<real>)
  {
    s.lastTimestamp.Some? ==> lo.Some? && s.lastTimestamp.value <= lo.value
  }

  /** A frame event does not go back before the bound. */
  predicate InOrder(lo: Option<real>, e: Event)
  {
    e.Frame? ==> lo.None? || lo.value <= e.timestamp
  }

  function NextBound(lo: Option<real>, e: Event): Option<real>
  {
    if e.Frame? then Some(e.timestamp) else lo
  }

  /** Frame timestamps never decrease along the events, starting from `lo`. */
  predicate TimesFrom(lo: Option<real>, events: seq<Event>)
    decreases |events|
  {
    |events| == 0 || (InOrder(lo, events[0]) && TimesFrom(NextBound(lo, events[0]), events[1..]))
  }

  /** Pressing R or r. */
  predicate IsReset(e: Event)
  {
    e.Press? && (e.key == "R" || e.key == "r")
  }

  predicate NoReset(events: seq<Event>)
  {
    forall i :: 0 <= i < |events| ==> !IsReset(events[i])
  }

  /** `t` is `s` later in the same run: the player has turned no further
      back, the score has not fallen, and the roster has only grown, each
      earlier vehicle still there and moved along its own direction. */
  predicate Progress(s: State, t: State)
  {
    && t.playerAngleMoved <= s.playerAngleMoved
    && s.score <= t.score
    && |s.otherVehicles| <= |t.otherVehicles|
    && forall i :: 0 <= i < |s.otherVehicles| ==> Follows(s.otherVehicles[i], t.otherVehicles[i])
  }

  /** Every reset forgets the whole history of the game: two resets of any
      two states differ at most in the loop and held-key flags, and a reset
      state already satisfies the invariant. */
  lemma ResetForgetsHistory(s1: State, s2: State)
    ensures Reset(s1).(running := s2.running, accelerate := s2.accelerate, decelerate := s2.decelerate)
         == Reset(s2)
    ensures GoodState(Reset(s1))
    ensures Reset(Reset(s1)) == Reset(s1)
  {
    assert Laps(0.0) == 0;
  }

  /** A second `startGame` does nothing. */
  lemma StartGameIdempotent(s: State)
    ensures StartGame(StartGame(s)) == StartGame(s)
  {
  }

  /** Releasing a key after pressing it clears that key's flag, whatever it
      was before; of the press only the start the ArrowUp press may have made
      remains. */
  lemma PressThenRelease(s: State)
    ensures KeyUp(KeyDown(s, "ArrowUp"), "ArrowUp") == StartGame(s).(accelerate := false)
    ensures KeyUp(KeyDown(s, "ArrowDown"), "ArrowDown") == s.(decelerate := false)
  {
  }

  /** The three speed regimes are ordered slow, base, fast, and holding
      ArrowDown makes no difference while ArrowUp is held. */
  lemma SpeedRegimesOrdered()
    ensures 0.0 < PlayerSpeed(false, true) < PlayerSpeed(false, false) < PlayerSpeed(true, false)
    ensures PlayerSpeed(true, true) == PlayerSpeed(true, false)
  {
  }

  /** A frame installs nothing: it can only keep or uninstall the loop, and
      never sets `ready`. */
  lemma FrameNeverStarts(trig: Trig, s: State, timestamp: real, draw: SpawnDraw)
    ensures Animation(trig, s, timestamp, draw).running ==> s.running
    ensures Animation(trig, s, timestamp, draw).ready == s.ready
  {
  }

  /** One event keeps the frame clock below the next bound. */
  lemma StepKeepsClock(trig: Trig, s: State, e: Event, lo: Option<real>)
    requires ClockBelow(s, lo) && InOrder(lo, e)
    ensures ClockBelow(Step(trig, s, e), NextBound(lo, e))
  {
  }

  /** A full frame keeps the invariant and makes progress when time does
      not go backwards. */
  lemma FrameKeepsGood(trig: Trig, s: State, timestamp: real, draw: SpawnDraw)
    requires GoodState(s) && HasBaseline(s) && s.lastTimestamp.value <= timestamp
    ensures GoodState(Animation(trig, s, timestamp, draw))
    ensures Progress(s, Animation(trig, s, timestamp, draw))
  {
    var r := Animation(trig, s, timestamp, draw);
    var timeDelta := timestamp - s.lastTimestamp.value;
    LapsMonotone(s.playerAngleMoved, r.playerAngleMoved);
    var spawn := ShouldSpawn(r.score, |s.otherVehicles|);
    assert |r.otherVehicles| == |s.otherVehicles| + (if spawn then 1 else 0);
    forall i | 0 <= i < |r.otherVehicles|
      ensures SpeedInRange(r.otherVehicles[i])
    {
      if i < |s.otherVehicles| {
        assert SameVehicle(s.otherVehicles[i], r.otherVehicles[i]);
      } else {
        assert SameVehicle(NewVehicle(draw), r.otherVehicles[i]);
      }
    }
    forall i | 0 <= i < |s.otherVehicles|
      ensures Follows(s.otherVehicles[i], r.otherVehicles[i])
    {
      assert SpeedInRange(s.otherVehicles[i]);
    }
  }

  /** A key press keeps the invariant and, unless it resets, leaves angle,
      score and roster as they were (so it makes progress). */
  lemma PressKeepsGood(s: State, key: string)
    requires GoodState(s)
    ensures GoodState(KeyDown(s, key))
    ensures key != "R" && key != "r" ==>
              && KeyDown(s, key).playerAngleMoved == s.playerAngleMoved
              && KeyDown(s, key).score == s.score
              && KeyDown(s, key).otherVehicles == s.otherVehicles
    ensures key != "R" && key != "r" ==> Progress(s, KeyDown(s, key))
  {
    if key == "R" || key == "r" {
      ResetForgetsHistory(s, s);
    }
  }

  /** One event keeps the invariant and, unless it is a reset, makes
      progress. */
  lemma StepKeepsGood(trig: Trig, s: State, e: Event, lo: Option<real>)
    requires GoodState(s) && ClockBelow(s, lo) && InOrder(lo, e)
    ensures GoodState(Step(trig, s, e))
    ensures !IsReset(e) ==> Progress(s, Step(trig, s, e))
  {
    match e
    case Press(key) =>
      PressKeepsGood(s, key);
    case Release(key) =>
      assert KeyUp(s, key).otherVehicles == s.otherVehicles;
    case Frame(timestamp, draw) =>
      if s.running && HasBaseline(s) {
        FrameKeepsGood(trig, s, timestamp, draw);
      }
  }

  /** Along any events whose frames keep time, the invariant holds after
      every prefix. */
  lemma {:induction false} RunKeepsGood(trig: Trig, s: State, events: seq<Event>, lo: Option<real>)
    requires GoodState(s) && ClockBelow(s, lo) && TimesFrom(lo, events)
    ensures GoodState(Run(trig, s, events))
    decreases |events|
  {
    if |events| > 0 {
      StepKeepsGood(trig, s, events[0], lo);
      StepKeepsClock(trig, s, events[0], lo);
      RunKeepsGood(trig, Step(trig, s, events[0]), events[1..], NextBound(lo, events[0]));
    }
  }

  /** Within a run (no reset among the events) the player never turns back,
      the lap count and score never fall, and the roster never shrinks nor
      loses or reorders a vehicle: it is emptied only by a reset. */
  lemma {:induction false} RunMakesProgress(trig: Trig, s: State, events: seq<Event>, lo: Option<real>)
    requires GoodState(s) && ClockBelow(s, lo) && TimesFrom(lo, events) && NoReset(events)
    ensures Progress(s, Run(trig, s, events))
    decreases |events|
  {
    if |events| > 0 {
      var next := Step(trig, s, events[0]);
      StepKeepsGood(trig, s, events[0], lo);
      StepKeepsClock(trig, s, events[0], lo);
      assert NoReset(events[1..]) by {
        forall i | 0 <= i < |events[1..]|
          ensures !IsReset(events[1..][i])
        {
          assert events[1..][i] == events[i + 1];
        }
      }
      RunMakesProgress(trig, next, events[1..], NextBound(lo, events[0]));
      var last := Run(trig, s, events);
      assert last == Run(trig, next, events[1..]);
      forall i | 0 <= i < |s.otherVehicles|
        ensures Follows(s.otherVehicles[i], last.otherVehicles[i])
      {
        assert Follows(s.otherVehicles[i], next.otherVehicles[i]);
        assert Follows(next.otherVehicles[i], last.otherVehicles[i]);
      }
    }
  }

  /** Once the loop is uninstalled while `ready` is clear, no event but a
      reset brings it back: ArrowUp calls `startGame`, which refuses. */
  lemma {:induction false} StoppedStaysStopped(trig: Trig, s: State, events: seq<Event>)
    requires !s.ready && !s.running && NoReset(events)
    ensures !Run(trig, s, events).running && !Run(trig, s, events).ready
    decreases |events|
  {
    if |events| > 0 {
      var next := Step(trig, s, events[0]);
      assert !IsReset(events[0]);
      assert !next.ready && !next.running;
      assert NoReset(events[1..]) by {
        forall i | 0 <= i < |events[1..]|
          ensures !IsReset(events[1..][i])
        {
          assert events[1..][i] == events[i + 1];
        }
      }
      StoppedStaysStopped(trig, next, events[1..]);
    }
  }

  /** A frame that detects a hit uninstalls the loop; if the game was started
      (and not reset since), the stop is final until a reset. */
  lemma HitStopsUntilReset(trig: Trig, s: State, timestamp: real, draw: SpawnDraw, events: seq<Event>)
    requires !s.ready && HasBaseline(s)
    requires var r := Animation(trig, s, timestamp, draw);
             HitDetection(trig, r.playerAngleMoved, r.otherVehicles)
    requires NoReset(events)
    ensures !Run(trig, Animation(trig, s, timestamp, draw), events).running
  {
    StoppedStaysStopped(trig, Animation(trig, s, timestamp, draw), events);
  }

  /** A frame without a baseline only records its timestamp: angle, score,
      roster and loop are untouched. */
  lemma BaselineFrameOnlyRecords(trig: Trig, s: State, timestamp: real, draw: SpawnDraw)
    requires !HasBaseline(s)
    ensures var r := Animation(trig, s, timestamp, draw);
            && r.playerAngleMoved == s.playerAngleMoved && r.score == s.score
            && r.otherVehicles == s.otherVehicles && r.running == s.running
            && r.lastTimestamp == Some(timestamp)
  {
  }

  /** A frame adds at most one vehicle, and only when five times the roster
      size is below the new lap count plus one. */
  lemma FrameSpawnsAtMostOne(trig: Trig, s: State, timestamp: real, draw: SpawnDraw)
    ensures var r := Animation(trig, s, timestamp, draw);
            && |s.otherVehicles| <= |r.otherVehicles| <= |s.otherVehicles| + 1
            && (|r.otherVehicles| == |s.otherVehicles| + 1 <==> HasBaseline(s) && 5 * |s.otherVehicles| < r.score + 1)
  {
  }

  /** Driving one second at base speed from the start turns the player by
      -1.7 radians, one quarter turn: the score becomes 1 and the first
      vehicle appears. */
  lemma OneSecondAtBaseSpeed(trig: Trig, s: State, t0: real, draw: SpawnDraw)
    requires s.playerAngleMoved == 0.0 && !s.accelerate && !s.decelerate
    requires s.lastTimestamp == Some(t0) && t0 != 0.0 && s.otherVehicles == []
    ensures Animation(trig, s, t0 + 1000.0, draw).playerAngleMoved == -1.7
    ensures Animation(trig, s, t0 + 1000.0, draw).score == 1
    ensures |Animation(trig, s, t0 + 1000.0, draw).otherVehicles| == 1
  {
    var r := Animation(trig, s, t0 + 1000.0, draw);
    assert MovePlayerAngle(s, 1000.0) == -1.7;
    assert Pi / 2.0 <= 1.7 < 2.0 * (Pi / 2.0);
    assert Laps(-1.7) == 1;
    assert ShouldSpawn(1, 0);
  }

  /** With one vehicle on the track, reaching the fifth lap spawns the
      second: (5 + 1) / 5 = 1.2 exceeds 1, while (4 + 1) / 5 = 1 does not. */
  lemma FifthLapSpawnsSecondVehicle(trig: Trig, s: State, timestamp: real, draw: SpawnDraw)
    requires HasBaseline(s) && |s.otherVehicles| == 1
    ensures var r := Animation(trig, s, timestamp, draw);
            r.score == 5 ==> |r.otherVehicles| == 2
    ensures var r := Animation(trig, s, timestamp, draw);
            r.score == 4 ==> |r.otherVehicles| == 1
  {
  }

  /** A reset while the loop runs leaves it running with `ready` set, so a
      hit detected by a later frame uninstalls the loop but keeps `ready`,
      and ArrowUp then reinstalls it without a further reset. */
  lemma CrashAfterMidRunResetResumes(trig: Trig, s: State, timestamp: real, draw: SpawnDraw)
    requires s.running && s.ready && HasBaseline(s)
    requires var r := Animation(trig, s, timestamp, draw);
             HitDetection(trig, r.playerAngleMoved, r.otherVehicles)
    ensures var r := Step(trig, s, Frame(timestamp, draw));
            && !r.running && r.ready
            && Step(trig, r, Press("ArrowUp")).running
  {
  }

  /** Every running state a reset leaves behind is ready and still running. */
  lemma MidRunResetKeepsLoop(s: State, key: string)
    requires s.running && (key == "R" || key == "r")
    ensures KeyDown(s, key).running && KeyDown(s, key).ready
  {
  }

  /** Trigonometry that puts every point of the track at the origin, so that
      every hit zone coincides. */
  function Collapsed(): Trig
  {
    Trig(x => 0.0, x => 0.0, 0.0)
  }

  /** On the collapsed track every car of the roster hits the player. */
  lemma CollapsedCarHits(playerAngleMoved: real, traffic: seq<Vehicle>, i: int)
    requires 0 <= i < |traffic| && traffic[i].kind == Car
    ensures HitDetection(Collapsed(), playerAngleMoved, traffic)
  {
    var trig := Collapsed();
    assert PlayerZone(trig, playerAngleMoved, ZoneOffset) == Point(0.0, 0.0);
    assert VehicleZone(trig, traffic[i], ZoneOffset) == Point(0.0, 0.0);
    CoincidentZonesHit(trig, playerAngleMoved, traffic, i);
  }

  /** An instance of `CrashAfterMidRunResetResumes` from the initial state,
      on the collapsed track: start, reset, take a baseline frame, then a
      frame that spawns a car, which hits. */
  lemma ResumeAfterCrashFollowingMidRunReset()
    ensures var car := SpawnDraw(0.0, 0.0, 0.0);
            var crashed := Run(Collapsed(), Initial(),
                               [Press("ArrowUp"), Press("r"), Frame(10.0, car), Frame(20.0, car)]);
            && !crashed.running && crashed.ready
            && KeyDown(crashed, "ArrowUp").running
  {
    var trig, car := Collapsed(), SpawnDraw(0.0, 0.0, 0.0);
    var s0 := Initial();
    var s1 := KeyDown(s0, "ArrowUp");
    var s2 := KeyDown(s1, "r");
    assert s2.running && s2.ready && s2.lastTimestamp == None;
    var s3 := Animation(trig, s2, 10.0, car);
    assert s3 == s2.(lastTimestamp := Some(10.0));
    var a4 := Animation(trig, s3, 20.0, car);
    assert ShouldSpawn(Laps(MovePlayerAngle(s3, 10.0)), 0);
    CollapsedCarHits(a4.playerAngleMoved, a4.otherVehicles, 0);
    CrashAfterMidRunResetResumes(trig, s3, 20.0, car);
    var s4 := Step(trig, s3, Frame(20.0, car));
    var events := [Press("ArrowUp"), Press("r"), Frame(10.0, car), Frame(20.0, car)];
    assert Run(trig, s0, events) == Run(trig, s1, events[1..]);
    assert Run(trig, s1, events[1..]) == Run(trig, s2, events[2..]);
    assert Run(trig, s2, events[2..]) == Run(trig, s3, events[3..]);
    assert Run(trig, s3, events[3..]) == Run(trig, s4, []);
  }
}
