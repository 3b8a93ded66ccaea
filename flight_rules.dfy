/**
 The per-frame flight rules of the UAV simulation, as pure functions on a
 snapshot of the flight-parameter record.

 `AttitudeUpdate` is the attitude updater (`obAdjustParams`): the fixed
 sequence of guarded assignments, one function per step, composed in the
 order the source runs them. `Integrate` and `PoseOf` are the position
 integrator (`onAdjustAttitude`), and `FrameStep` is one rendered frame.
 `Run` iterates frames over a sequence of key states; the source's frame loop
 never ends, so it exists only to state properties of many frames.

 Math.sin and Math.cos are not modelled: they are the two fields of a `Trig`
 value passed in, and `ValidTrig` gives the only facts the proofs use.
 */
module FlightRules {

  /** The flight-parameter record: degrees, metres, radians and a speed. */
  datatype State = State(
    lat: real,
    lng: real,
    altitude: real,
    heading: real,
    pitch: real,
    roll: real,
    correction: real,
    speed: real)

  /** Which of the six directions are held during a frame. */
  datatype Held = Held(
    up: bool,
    down: bool,
    left: bool,
    right: bool,
    speedUp: bool,
    speedDown: bool)

  /** The argument values handed to the rendering engine for the entity pose:
      the position (lng, lat, altitude) and the heading/pitch/roll. */
  datatype Pose = Pose(
    lng: real,
    lat: real,
    altitude: real,
    heading: real,
    pitch: real,
    roll: real)

  /** Stand-ins for Math.sin and Math.cos. */
  datatype Trig = Trig(sin: real -> real, cos: real -> real)

  /** The facts about sine and cosine the proofs rely on, and nothing more. */
  ghost predicate ValidTrig(t: Trig)
  {
    (forall x :: -1.0 <= t.sin(x) <= 1.0) &&
    (forall x :: -1.0 <= t.cos(x) <= 1.0) &&
    t.sin(0.0) == 0.0 &&
    t.cos(0.0) == 1.0
  }

  /** The initial values of the record. */
  const DEFAULTS: State := State(39.9042, 116.4074, 2000.0, 4.7, 0.0, 0.0, 1.0, 700.0)

  const NO_KEYS: Held := Held(false, false, false, false, false, false)

  const SPEED_STEP := 100.0
  /** Speed-down only applies from this speed upwards. */
  const SPEED_DOWN_MIN := 500.0
  const CLIMB_RATE := 0.005
  const DIVE_RATE := 0.006
  /** Climb applies while pitch <= PITCH_LIMIT, dive while pitch >= -PITCH_LIMIT. */
  const PITCH_LIMIT := 0.3
  const TURN_RATE := 0.005
  /** Roll follows a turn only while strictly inside (-ROLL_LIMIT, ROLL_LIMIT). */
  const ROLL_LIMIT := 0.785
  /** Values of magnitude below this are snapped to zero. */
  const DEAD_BAND := 0.001
  const ROLL_RELAX := 0.003
  /** Pitch relaxation: added when negative, subtracted when positive. */
  const PITCH_RELAX_UP := 0.005
  const PITCH_RELAX_DOWN := 0.003

  function Abs(x: real): real
  {
    if x < 0.0 then -x else x
  }

  function Snap(x: real): real
  {
    if Abs(x) < DEAD_BAND then 0.0 else x
  }

  /** The altitude nudge of the climb and dive branches, with the source's
      constant `speed / 60 / 60 / 60 * 110`. */
  function Nudge(speed: real, pitch: real, t: Trig): real
  {
    speed / 60.0 / 60.0 / 60.0 * 110.0 * t.sin(pitch)
  }

  /** The integrator's per-frame step, `speed / 60 / 60 / 60 / 110`. */
  function Step(speed: real): real
  {
    speed / 60.0 / 60.0 / 60.0 / 110.0
  }

  // ---- the attitude updater, step by step ----

  /** Speed-up, then speed-down; the speed-down guard reads the speed-up result. */
  function SpeedControl(s: State, h: Held): State
  {
    var v1 := if h.speedUp then s.speed + SPEED_STEP else s.speed;
    var v2 := if h.speedDown && v1 >= SPEED_DOWN_MIN then v1 - SPEED_STEP else v1;
    s.(speed := v2)
  }

  function Climb(s: State, h: Held, t: Trig): State
  {
    if h.up && s.pitch <= PITCH_LIMIT then
      var p := s.pitch + CLIMB_RATE;
      if p > 0.0 then s.(pitch := p, altitude := s.altitude + Nudge(s.speed, p, t))
      else s.(pitch := p)
    else s
  }

  function Dive(s: State, h: Held, t: Trig): State
  {
    if h.down && s.pitch >= -PITCH_LIMIT then
      var p := s.pitch - DIVE_RATE;
      if p < 0.0 then s.(pitch := p, altitude := s.altitude + Nudge(s.speed, p, t))
      else s.(pitch := p)
    else s
  }

  function TurnLeft(s: State, h: Held): State
  {
    if h.left then
      s.(heading := s.heading - TURN_RATE,
         roll := if s.roll > -ROLL_LIMIT then s.roll - TURN_RATE else s.roll)
    else s
  }

  function TurnRight(s: State, h: Held): State
  {
    if h.right then
      s.(heading := s.heading + TURN_RATE,
         roll := if s.roll < ROLL_LIMIT then s.roll + TURN_RATE else s.roll)
    else s
  }

  /** The state after the five input-driven steps. */
  function InputSteps(s: State, h: Held, t: Trig): State
  {
    TurnRight(TurnLeft(Dive(Climb(SpeedControl(s, h), h, t), h, t), h), h)
  }

  function Recorrect(s: State, t: Trig): State
  {
    s.(correction := Abs(t.cos(s.heading) * t.cos(s.pitch)))
  }

  function DeadBandSnap(s: State): State
  {
    s.(heading := Snap(s.heading), roll := Snap(s.roll), pitch := Snap(s.pitch))
  }

  /** Two sequential ifs for roll, then two for pitch; the second of each pair
      reads the value the first may have written. Heading is not relaxed. */
  function Relax(s: State): State
  {
    var r1 := if s.roll > 0.0 then s.roll - ROLL_RELAX else s.roll;
    var r2 := if r1 < 0.0 then r1 + ROLL_RELAX else r1;
    var p1 := if s.pitch < 0.0 then s.pitch + PITCH_RELAX_UP else s.pitch;
    var p2 := if p1 > 0.0 then p1 - PITCH_RELAX_DOWN else p1;
    s.(roll := r2, pitch := p2)
  }

  /** The whole attitude updater. */
  function AttitudeUpdate(s: State, h: Held, t: Trig): State
  {
    Relax(DeadBandSnap(Recorrect(InputSteps(s, h, t), t)))
  }

  // ---- the position integrator ----

  /** Advances lng and lat, then adds the second altitude term. */
  function Integrate(s: State, t: Trig): (r: State)
    ensures r.heading == s.heading && r.pitch == s.pitch && r.roll == s.roll
    ensures r.speed == s.speed && r.correction == s.correction
  {
    var k := Step(s.speed);
    var lng := s.lng + k * t.cos(s.heading);
    var lat := s.lat - k * t.sin(s.heading);
    s.(lng := lng, lat := lat,
       altitude := s.altitude + k * t.sin(s.pitch) * 110.0 * 1000.0 * 10.0)
  }

  /** The pose handed to the renderer: the new lng and lat, but the altitude
      as it was before this integrator's increment. */
  function PoseOf(s: State, t: Trig): Pose
  {
    var r := Integrate(s, t);
    Pose(r.lng, r.lat, s.altitude, s.heading, s.pitch, s.roll)
  }

  // ---- frames ----

  function FrameStep(s: State, h: Held, t: Trig): State
  {
    Integrate(AttitudeUpdate(s, h, t), t)
  }

  function FramePose(s: State, h: Held, t: Trig): Pose
  {
    PoseOf(AttitudeUpdate(s, h, t), t)
  }

  /** The state after one frame per element of `hs`, in order. */
  function Run(s: State, hs: seq<Held>, t: Trig): State
    decreases |hs|
  {
    if hs == [] then s else Run(FrameStep(s, hs[0], t), hs[1..], t)
  }

  // ---- bands the update keeps ----

  ghost predicate PitchInBand(p: real)
  {
    -(PITCH_LIMIT + DIVE_RATE) <= p <= PITCH_LIMIT + CLIMB_RATE
  }

  ghost predicate RollInBand(r: real)
  {
    -(ROLL_LIMIT + TURN_RATE) <= r <= ROLL_LIMIT + TURN_RATE
  }

  /** The envelope the default state starts in and every frame keeps. */
  ghost predicate Envelope(s: State)
  {
    s.speed >= SPEED_DOWN_MIN - SPEED_STEP && PitchInBand(s.pitch) && RollInBand(s.roll)
  }
}
