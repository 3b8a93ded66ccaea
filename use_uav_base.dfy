/**
 The `useUavBase` hook: the shared flight-parameter record, the keyboard map
 its key handlers write, and the per-frame update methods that mutate the
 record in place. Each method is proved equal to its rule in `FlightRules`.
 */
module UseUavBase {
  import opened FlightRules
  import FlightProperties

  /** The key names of the six directions. */
  const UP := "w"
  const DOWN := "s"
  const LEFT := "a"
  const RIGHT := "d"
  const SPEED_UP := "q"
  const SPEED_DOWN := "e"

  const DIRECTIONS: set<string> := {UP, DOWN, LEFT, RIGHT, SPEED_UP, SPEED_DOWN}

  /** The keyboard map as the hook creates it: every direction released. */
  const INITIAL_KEYBOARD: map<string, bool> :=
    map[UP := false, DOWN := false, LEFT := false, RIGHT := false,
        SPEED_UP := false, SPEED_DOWN := false]

  /** What a key handler does to the map: a key already in the map gets the
      new flag; any other key is ignored. */
  function SetFlag(m: map<string, bool>, key: string, held: bool): (r: map<string, bool>)
    ensures r.Keys == m.Keys
    ensures key in m ==> r[key] == held
    ensures forall k :: k in m && k != key ==> r[k] == m[k]
    ensures key !in m ==> r == m
  {
    if key in m then m[key := held] else m
  }

  /** A lookup of the map; a missing key reads as not held. */
  function IsHeld(m: map<string, bool>, key: string): bool
  {
    key in m && m[key]
  }

  function HeldOf(m: map<string, bool>): Held
  {
    Held(IsHeld(m, UP), IsHeld(m, DOWN), IsHeld(m, LEFT), IsHeld(m, RIGHT),
         IsHeld(m, SPEED_UP), IsHeld(m, SPEED_DOWN))
  }

  /** A handler on a map keyed by the six directions sets exactly the flag of
      its key and no other; any other key leaves every flag as it was. */
  lemma KeyHandlerRule(m: map<string, bool>, key: string, held: bool)
    requires m.Keys == DIRECTIONS
    ensures var h := HeldOf(m); var r := HeldOf(SetFlag(m, key, held));
      (key == UP ==> r == h.(up := held)) &&
      (key == DOWN ==> r == h.(down := held)) &&
      (key == LEFT ==> r == h.(left := held)) &&
      (key == RIGHT ==> r == h.(right := held)) &&
      (key == SPEED_UP ==> r == h.(speedUp := held)) &&
      (key == SPEED_DOWN ==> r == h.(speedDown := held)) &&
      (key !in DIRECTIONS ==> SetFlag(m, key, held) == m)
  {
  }

  /** Key names are case-sensitive: the upper-case letters are ignored. */
  lemma UpperCaseIgnored(m: map<string, bool>, held: bool)
    requires m.Keys == DIRECTIONS
    ensures SetFlag(m, "W", held) == m && SetFlag(m, "S", held) == m
    ensures SetFlag(m, "A", held) == m && SetFlag(m, "D", held) == m
    ensures SetFlag(m, "Q", held) == m && SetFlag(m, "E", held) == m
  {
  }

  /** The shared, mutable flight-parameter record. */
  class FlightParams {
    var lat: real
    var lng: real
    var altitude: real
    var heading: real
    var pitch: real
    var roll: real
    var correction: real
    var speed: real

    function Snapshot(): State
      reads this
    {
      State(lat, lng, altitude, heading, pitch, roll, correction, speed)
    }

    constructor ()
      ensures Snapshot() == DEFAULTS
    {
      lat := 39.9042;
      lng := 116.4074;
      altitude := 2000.0;
      heading := 4.7;
      pitch := 0.0;
      roll := 0.0;
      correction := 1.0;
      speed := 700.0;
    }
  }

  /** One instance of the hook: its keyboard map and the record it drives. */
  class UavBase {
    var keyboardMap: map<string, bool>
    const params: FlightParams

    constructor (params: FlightParams)
      ensures this.params == params
      ensures keyboardMap == INITIAL_KEYBOARD && keyboardMap.Keys == DIRECTIONS
      ensures HeldOf(keyboardMap) == NO_KEYS
    {
      this.params := params;
      keyboardMap := INITIAL_KEYBOARD;
    }

    /** The keydown handler's body. */
    method OnKeyDown(key: string)
      modifies this`keyboardMap
      ensures keyboardMap == SetFlag(old(keyboardMap), key, true)
    {
      if key in keyboardMap {
        keyboardMap := keyboardMap[key := true];
      }
    }

    /** The keyup handler's body. */
    method OnKeyUp(key: string)
      modifies this`keyboardMap
      ensures keyboardMap == SetFlag(old(keyboardMap), key, false)
    {
      if key in keyboardMap {
        keyboardMap := keyboardMap[key := false];
      }
    }

    /** The attitude updater, `obAdjustParams`: its blocks in the source's
        order, each a method below. */
    method AdjustParams(trig: Trig)
      modifies params
      ensures params.Snapshot() == AttitudeUpdate(old(params.Snapshot()), HeldOf(keyboardMap), trig)
    {
      ControlSpeed();
      ClimbStep(trig);
      DiveStep(trig);
      TurnLeftStep();
      TurnRightStep();
      CorrectAndSnap(trig);
      RelaxStep();
    }

    method ControlSpeed()
      modifies params
      ensures params.Snapshot() == SpeedControl(old(params.Snapshot()), HeldOf(keyboardMap))
    {
      if IsHeld(keyboardMap, SPEED_UP) {
        params.speed := params.speed + SPEED_STEP;
      }
      if IsHeld(keyboardMap, SPEED_DOWN) {
        if params.speed >= SPEED_DOWN_MIN {
          params.speed := params.speed - SPEED_STEP;
        }
      }
    }

    method ClimbStep(trig: Trig)
      modifies params
      ensures params.Snapshot() == Climb(old(params.Snapshot()), HeldOf(keyboardMap), trig)
    {
      if IsHeld(keyboardMap, UP) && params.pitch <= PITCH_LIMIT {
        params.pitch := params.pitch + CLIMB_RATE;
        if params.pitch > 0.0 {
          var pitch, speed := params.pitch, params.speed;
          var temp := speed / 60.0 / 60.0 / 60.0 * 110.0;
          params.altitude := params.altitude + temp * trig.sin(pitch);
        }
      }
    }

    method DiveStep(trig: Trig)
      modifies params
      ensures params.Snapshot() == Dive(old(params.Snapshot()), HeldOf(keyboardMap), trig)
    {
      if IsHeld(keyboardMap, DOWN) && params.pitch >= -PITCH_LIMIT {
        params.pitch := params.pitch - DIVE_RATE;
        if params.pitch < 0.0 {
          var pitch, speed := params.pitch, params.speed;
          var temp := speed / 60.0 / 60.0 / 60.0 * 110.0;
          params.altitude := params.altitude + temp * trig.sin(pitch);
        }
      }
    }

    method TurnLeftStep()
      modifies params
      ensures params.Snapshot() == TurnLeft(old(params.Snapshot()), HeldOf(keyboardMap))
    {
      if IsHeld(keyboardMap, LEFT) {
        params.heading := params.heading - TURN_RATE;
        if params.roll > -ROLL_LIMIT {
          params.roll := params.roll - TURN_RATE;
        }
      }
    }

    method TurnRightStep()
      modifies params
      ensures params.Snapshot() == TurnRight(old(params.Snapshot()), HeldOf(keyboardMap))
    {
      if IsHeld(keyboardMap, RIGHT) {
        params.heading := params.heading + TURN_RATE;
        if params.roll < ROLL_LIMIT {
          params.roll := params.roll + TURN_RATE;
        }
      }
    }

    /** Correction from the attitude as it stands, then the dead band, both
        on values read once before either writes. */
    method CorrectAndSnap(trig: Trig)
      modifies params
      ensures params.Snapshot() == DeadBandSnap(Recorrect(old(params.Snapshot()), trig))
    {
      var heading, pitch, roll := params.heading, params.pitch, params.roll;
      params.correction := Abs(trig.cos(heading) * trig.cos(pitch));
      if Abs(heading) < DEAD_BAND { params.heading := 0.0; }
      if Abs(roll) < DEAD_BAND { params.roll := 0.0; }
      if Abs(pitch) < DEAD_BAND { params.pitch := 0.0; }
    }

    /** Relaxation of roll and pitch; heading is not relaxed. */
    method RelaxStep()
      modifies params
      ensures params.Snapshot() == Relax(old(params.Snapshot()))
    {
      if params.roll > 0.0 { params.roll := params.roll - ROLL_RELAX; }
      if params.roll < 0.0 { params.roll := params.roll + ROLL_RELAX; }
      if params.pitch < 0.0 { params.pitch := params.pitch + PITCH_RELAX_UP; }
      if params.pitch > 0.0 { params.pitch := params.pitch - PITCH_RELAX_DOWN; }
    }

    /** The position integrator, `onAdjustAttitude`, up to handing the pose
        to the renderer: the pose is returned. */
    method AdjustAttitude(trig: Trig) returns (pose: Pose)
      modifies params
      ensures params.Snapshot() == Integrate(old(params.Snapshot()), trig)
      ensures pose == PoseOf(old(params.Snapshot()), trig)
    {
      var temp := params.speed / 60.0 / 60.0 / 60.0 / 110.0;
      params.lng := params.lng + temp * trig.cos(params.heading);
      params.lat := params.lat - temp * trig.sin(params.heading);
      var lng, lat, altitude, heading, pitch, roll :=
        params.lng, params.lat, params.altitude, params.heading, params.pitch, params.roll;
      params.altitude := params.altitude + temp * trig.sin(pitch) * 110.0 * 1000.0 * 10.0;
      pose := Pose(lng, lat, altitude, heading, pitch, roll);
    }

    /** One frame of `renderer`: the attitude updater, then the integrator.
        The flight envelope is kept. */
    method Renderer(trig: Trig) returns (pose: Pose)
      modifies params
      ensures params.Snapshot() == FrameStep(old(params.Snapshot()), HeldOf(keyboardMap), trig)
      ensures pose == FramePose(old(params.Snapshot()), HeldOf(keyboardMap), trig)
      ensures Envelope(old(params.Snapshot())) ==> Envelope(params.Snapshot())
    {
      AdjustParams(trig);
      pose := AdjustAttitude(trig);
      if Envelope(old(params.Snapshot())) {
        FlightProperties.FrameKeepsEnvelope(old(params.Snapshot()), HeldOf(keyboardMap), trig);
      }
    }
  }
}
