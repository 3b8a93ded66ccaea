/**
 Properties of the flight rules: what one attitude update does to each
 parameter, what the integrator does, and what holds over any number of
 frames.
 */
module FlightProperties {
  import opened FlightRules

  const CLIMB_ONLY: Held := NO_KEYS.(up := true)
  const RIGHT_ONLY: Held := NO_KEYS.(right := true)

  // ---- one attitude update ----

  /** Speed-up adds exactly 100; speed-down subtracts 100 only when the speed
      after speed-up is at least 500. */
  lemma SpeedRule(s: State, h: Held, t: Trig)
    ensures var v := AttitudeUpdate(s, h, t).speed;
      (!h.speedUp && !h.speedDown ==> v == s.speed) &&
      (h.speedUp && !h.speedDown ==> v == s.speed + 100.0) &&
      (!h.speedUp && h.speedDown ==> v == if s.speed >= 500.0 then s.speed - 100.0 else s.speed) &&
      (h.speedUp && h.speedDown ==> v == if s.speed >= 400.0 then s.speed else s.speed + 100.0)
  {
  }

  /** The reachable floor is 400: a speed of at least 400 never drops below it. */
  lemma SpeedFloor(s: State, h: Held, t: Trig)
    requires s.speed >= 400.0
    ensures AttitudeUpdate(s, h, t).speed >= 400.0
  {
  }

  /** Pitch that starts in [-0.306, 0.305] stays there under any keys. */
  lemma PitchBand(s: State, h: Held, t: Trig)
    requires PitchInBand(s.pitch)
    ensures PitchInBand(AttitudeUpdate(s, h, t).pitch)
  {
  }

  /** Both pitch keys held: climb then dive nets -0.001 wherever climb's guard
      passes, because dive's guard reads the climbed pitch; dive alone below
      -0.3 does nothing. */
  lemma DiveReadsClimbedPitch(s: State, t: Trig)
    ensures -0.305 <= s.pitch <= 0.3 ==>
      InputSteps(s, NO_KEYS.(up := true, down := true), t).pitch == s.pitch - 0.001
    ensures s.pitch < -0.3 ==> InputSteps(s, NO_KEYS.(down := true), t).pitch == s.pitch
  {
  }

  /** Roll moves by 0.005 against (left) or with (right) the turn only while
      strictly inside (-0.785, 0.785). With both keys held the right turn's
      guard reads the roll the left turn wrote, so the two cancel except at
      the edges: at or below -0.785 only the right turn applies, and from
      0.79 up only the left turn does. */
  lemma RollFollowsTurn(s: State, h: Held, t: Trig)
    ensures h.left && !h.right ==>
      InputSteps(s, h, t).roll == if s.roll > -0.785 then s.roll - 0.005 else s.roll
    ensures !h.left && h.right ==>
      InputSteps(s, h, t).roll == if s.roll < 0.785 then s.roll + 0.005 else s.roll
    ensures !h.left && !h.right ==> InputSteps(s, h, t).roll == s.roll
    ensures h.left && h.right ==>
      InputSteps(s, h, t).roll ==
        if s.roll <= -0.785 then s.roll + 0.005
        else if s.roll >= 0.79 then s.roll - 0.005
        else s.roll
  {
  }

  /** Roll that starts in [-0.79, 0.79] stays there under any keys. */
  lemma RollBand(s: State, h: Held, t: Trig)
    requires RollInBand(s.roll)
    ensures RollInBand(AttitudeUpdate(s, h, t).roll)
  {
  }

  /** Heading moves only by the turn keys, then the dead band; both keys held
      cancel exactly. */
  lemma HeadingRule(s: State, h: Held, t: Trig)
    ensures AttitudeUpdate(s, h, t).heading ==
      Snap(s.heading - (if h.left then 0.005 else 0.0) + (if h.right then 0.005 else 0.0))
    ensures h.left == h.right ==> AttitudeUpdate(s, h, t).heading == Snap(s.heading)
  {
  }

  /** The attitude step changes altitude only in the climb branch when the new
      pitch is positive and in the dive branch when it is negative, each time
      by speed / 216000 * 110 * sin(pitch) with the updated speed and pitch.
      It never moves lat or lng. */
  lemma AltitudeNudge(s: State, h: Held, t: Trig)
    ensures !h.up && !h.down ==> AttitudeUpdate(s, h, t).altitude == s.altitude
    ensures h.up && !h.down ==>
      var v, p := SpeedControl(s, h).speed, s.pitch + 0.005;
      AttitudeUpdate(s, h, t).altitude ==
        s.altitude + (if s.pitch <= 0.3 && p > 0.0 then v / 216000.0 * 110.0 * t.sin(p) else 0.0)
    ensures !h.up && h.down ==>
      var v, p := SpeedControl(s, h).speed, s.pitch - 0.006;
      AttitudeUpdate(s, h, t).altitude ==
        s.altitude + (if s.pitch >= -0.3 && p < 0.0 then v / 216000.0 * 110.0 * t.sin(p) else 0.0)
    ensures AttitudeUpdate(s, h, t).lat == s.lat && AttitudeUpdate(s, h, t).lng == s.lng
  {
  }

  /** Both pitch keys held: climb's nudge uses the climbed pitch, and dive's
      guard and nudge use the pitch climb has just written. */
  lemma BothPitchKeysNudge(s: State, h: Held, t: Trig)
    requires h.up && h.down
    ensures var v := SpeedControl(s, h).speed;
      var p1 := if s.pitch <= 0.3 then s.pitch + 0.005 else s.pitch;
      var a1 := if s.pitch <= 0.3 && p1 > 0.0 then v / 216000.0 * 110.0 * t.sin(p1) else 0.0;
      var p2 := if p1 >= -0.3 then p1 - 0.006 else p1;
      var a2 := if p1 >= -0.3 && p2 < 0.0 then v / 216000.0 * 110.0 * t.sin(p2) else 0.0;
      AttitudeUpdate(s, h, t).altitude == s.altitude + a1 + a2
  {
    var s1 := SpeedControl(s, h);
    var s2 := Climb(s1, h, t);
    var s3 := Dive(s2, h, t);
    assert AttitudeUpdate(s, h, t).altitude == s3.altitude;
  }

  /** Correction is |cos(heading) * cos(pitch)| of the attitude after the
      input steps, before the dead band and the relaxation. */
  lemma CorrectionRule(s: State, h: Held, t: Trig)
    ensures var i := InputSteps(s, h, t);
      AttitudeUpdate(s, h, t).correction == Abs(t.cos(i.heading) * t.cos(i.pitch))
  {
  }

  lemma ProductBound(a: real, b: real)
    requires -1.0 <= a <= 1.0 && -1.0 <= b <= 1.0
    ensures Abs(a * b) <= 1.0
  {
    if a >= 0.0 && b >= 0.0 {
      assert a * b <= 1.0 * b;
    } else if a >= 0.0 {
      assert a * -b <= 1.0 * -b;
    } else if b >= 0.0 {
      assert -a * b <= 1.0 * b;
    } else {
      assert -a * -b <= 1.0 * -b;
    }
  }

  lemma CorrectionBounds(s: State, h: Held, t: Trig)
    requires ValidTrig(t)
    ensures 0.0 <= AttitudeUpdate(s, h, t).correction <= 1.0
  {
    var i := InputSteps(s, h, t);
    ProductBound(t.cos(i.heading), t.cos(i.pitch));
  }

  /** Correction can disagree with the frame's final pitch: with no key held
      and pitch 0.1 it is taken at 0.1 while the pitch ends at 0.097, so for
      any cosine that tells 0.1 from 0.097 it is not |cos heading * cos pitch|
      of the record the frame leaves. */
  lemma CorrectionMayBeStale(s: State, t: Trig)
    requires ValidTrig(t)
    requires s.heading == 0.0 && s.pitch == 0.1
    ensures AttitudeUpdate(s, NO_KEYS, t).pitch == 0.097
    ensures AttitudeUpdate(s, NO_KEYS, t).correction == Abs(t.cos(0.1))
    ensures Abs(t.cos(0.1)) != Abs(t.cos(0.097)) ==>
      var r := AttitudeUpdate(s, NO_KEYS, t);
      r.correction != Abs(t.cos(r.heading) * t.cos(r.pitch))
  {
  }

  /** The dead band: heading, roll or pitch of magnitude below 0.001 after the
      input steps ends the update at exactly 0; a heading outside it is kept. */
  lemma DeadBandRule(s: State, h: Held, t: Trig)
    ensures var i := InputSteps(s, h, t); var r := AttitudeUpdate(s, h, t);
      (Abs(i.heading) < 0.001 ==> r.heading == 0.0) &&
      (Abs(i.heading) >= 0.001 ==> r.heading == i.heading) &&
      (Abs(i.roll) < 0.001 ==> r.roll == 0.0) &&
      (Abs(i.pitch) < 0.001 ==> r.pitch == 0.0)
  {
  }

  /** Roll relaxation, which runs every frame whatever is held: from the roll
      the input steps leave, the dead band and the two sequential ifs. */
  lemma RollRelaxation(s: State, h: Held, t: Trig)
    ensures var i := InputSteps(s, h, t).roll; var r := AttitudeUpdate(s, h, t).roll;
      (i >= 0.003 ==> r == i - 0.003) &&
      (0.001 <= i < 0.003 ==> r == i) &&
      (Abs(i) < 0.001 ==> r == 0.0) &&
      (i <= -0.001 ==> r == i + 0.003)
  {
  }

  /** Pitch relaxation, which runs every frame whatever is held. */
  lemma PitchRelaxation(s: State, h: Held, t: Trig)
    ensures var i := InputSteps(s, h, t).pitch; var p := AttitudeUpdate(s, h, t).pitch;
      (i >= 0.001 ==> p == i - 0.003) &&
      (Abs(i) < 0.001 ==> p == 0.0) &&
      (-0.005 < i <= -0.001 ==> p == i + 0.002) &&
      (i <= -0.005 ==> p == i + 0.005)
  {
  }

  /** Level attitude with no key held is a fixed point; correction becomes 1. */
  lemma LevelFixedPoint(s: State, t: Trig)
    requires ValidTrig(t)
    requires s.heading == 0.0 && s.pitch == 0.0 && s.roll == 0.0
    ensures AttitudeUpdate(s, NO_KEYS, t) == s.(correction := 1.0)
  {
  }

  // ---- the integrator ----

  /** With k = speed / 23,760,000: lng += k cos(heading), lat -= k sin(heading),
      altitude += k sin(pitch) * 1,100,000. */
  lemma IntegrateRule(s: State, t: Trig)
    ensures var k := s.speed / 23760000.0; var r := Integrate(s, t);
      r.lng == s.lng + k * t.cos(s.heading) &&
      r.lat == s.lat - k * t.sin(s.heading) &&
      r.altitude == s.altitude + k * t.sin(s.pitch) * 1100000.0
  {
  }

  /** Level pitch leaves altitude unchanged; zero heading moves only lng. */
  lemma LevelIntegrate(s: State, t: Trig)
    requires ValidTrig(t)
    ensures s.pitch == 0.0 ==> Integrate(s, t).altitude == s.altitude
    ensures s.heading == 0.0 ==>
      Integrate(s, t).lat == s.lat && Integrate(s, t).lng == s.lng + Step(s.speed)
  {
  }

  /** The pose carries the new lng and lat but the altitude from before the
      increment, so it lags whenever the increment is not zero. */
  lemma PoseLagsAltitude(s: State, t: Trig)
    ensures PoseOf(s, t).lng == Integrate(s, t).lng && PoseOf(s, t).lat == Integrate(s, t).lat
    ensures PoseOf(s, t).altitude == s.altitude
    ensures s.speed != 0.0 && t.sin(s.pitch) != 0.0 ==> PoseOf(s, t).altitude != Integrate(s, t).altitude
  {
    if s.speed != 0.0 && t.sin(s.pitch) != 0.0 {
      var k := Step(s.speed);
      assert k != 0.0;
      assert k * t.sin(s.pitch) != 0.0;
    }
  }

  // ---- frames ----

  lemma FrameKeepsEnvelope(s: State, h: Held, t: Trig)
    requires Envelope(s)
    ensures Envelope(FrameStep(s, h, t))
  {
    SpeedFloor(s, h, t);
    PitchBand(s, h, t);
    RollBand(s, h, t);
  }

  /** The speed floor and the pitch and roll bands hold after any number of
      frames under any keys, each on its own. */
  lemma {:induction false} RunKeepsBands(s: State, hs: seq<Held>, t: Trig)
    ensures s.speed >= 400.0 ==> Run(s, hs, t).speed >= 400.0
    ensures PitchInBand(s.pitch) ==> PitchInBand(Run(s, hs, t).pitch)
    ensures RollInBand(s.roll) ==> RollInBand(Run(s, hs, t).roll)
    decreases |hs|
  {
    if hs != [] {
      if s.speed >= 400.0 { SpeedFloor(s, hs[0], t); }
      if PitchInBand(s.pitch) { PitchBand(s, hs[0], t); }
      if RollInBand(s.roll) { RollBand(s, hs[0], t); }
      RunKeepsBands(FrameStep(s, hs[0], t), hs[1..], t);
    }
  }

  ghost predicate OnlySpeedDown(hs: seq<Held>)
  {
    forall i :: 0 <= i < |hs| ==> hs[i].speedDown && !hs[i].speedUp
  }

  ghost predicate AllReleased(hs: seq<Held>)
  {
    forall i :: 0 <= i < |hs| ==> hs[i] == NO_KEYS
  }

  ghost predicate OnlyClimb(hs: seq<Held>)
  {
    forall i :: 0 <= i < |hs| ==> hs[i] == CLIMB_ONLY
  }

  /** Holding speed-down from a speed in [400, 500) changes nothing. */
  lemma {:induction false} SpeedDownSettles(s: State, hs: seq<Held>, t: Trig)
    requires 400.0 <= s.speed < 500.0 && OnlySpeedDown(hs)
    ensures Run(s, hs, t).speed == s.speed
    decreases |hs|
  {
    if hs != [] {
      SpeedRule(s, hs[0], t);
      SpeedDownSettles(FrameStep(s, hs[0], t), hs[1..], t);
    }
  }

  /** Holding speed-down from 500 for one frame or more ends at 400. */
  lemma SpeedDownFrom500(s: State, hs: seq<Held>, t: Trig)
    requires s.speed == 500.0 && |hs| >= 1 && OnlySpeedDown(hs)
    ensures Run(s, hs, t).speed == 400.0
  {
    SpeedRule(s, hs[0], t);
    SpeedDownSettles(FrameStep(s, hs[0], t), hs[1..], t);
  }

  /** A positive roll in [0.001, 0.003) with no key held never changes. */
  lemma {:induction false} SmallRollPersists(s: State, hs: seq<Held>, t: Trig)
    requires 0.001 <= s.roll < 0.003 && AllReleased(hs)
    ensures Run(s, hs, t).roll == s.roll
    decreases |hs|
  {
    if hs != [] {
      RollRelaxation(s, NO_KEYS, t);
      SmallRollPersists(FrameStep(s, hs[0], t), hs[1..], t);
    }
  }

  /** Level flight with no key held: the attitude stays zero, speed, lat and
      altitude stay put and lng advances by one step per frame. */
  lemma {:induction false} LevelFlight(s: State, hs: seq<Held>, t: Trig)
    requires ValidTrig(t)
    requires s.heading == 0.0 && s.pitch == 0.0 && s.roll == 0.0 && AllReleased(hs)
    ensures var r := Run(s, hs, t);
      r.heading == 0.0 && r.pitch == 0.0 && r.roll == 0.0 &&
      r.speed == s.speed && r.lat == s.lat && r.altitude == s.altitude &&
      r.lng == s.lng + |hs| as real * Step(s.speed) &&
      (hs != [] ==> r.correction == 1.0)
    decreases |hs|
  {
    if hs != [] {
      var s1 := FrameStep(s, hs[0], t);
      LevelFixedPoint(s, t);
      LevelIntegrate(AttitudeUpdate(s, NO_KEYS, t), t);
      assert s1 == s.(correction := 1.0, lng := s.lng + Step(s.speed));
      LevelFlight(s1, hs[1..], t);
      assert |hs| as real * Step(s.speed) == Step(s.speed) + |hs[1..]| as real * Step(s.speed);
    }
  }

  /** The pitch one frame with no key held gives, written as a map on pitch
      alone: the dead band, then the two relaxation steps. */
  function ReleasedPitch(p: real): real
  {
    if Abs(p) < 0.001 then 0.0
    else if p >= 0.001 then p - 0.003
    else if p > -0.005 then p + 0.002
    else p + 0.005
  }

  /** `ReleasedPitch` applied `n` times. */
  function ReleasedPitchIter(p: real, n: nat): real
    decreases n
  {
    if n == 0 then p else ReleasedPitchIter(ReleasedPitch(p), n - 1)
  }

  /** With no key held, the pitch after any run is the iterate of
      `ReleasedPitch`, whatever the other parameters are. */
  lemma {:induction false} ReleasedRunPitch(s: State, hs: seq<Held>, t: Trig)
    requires AllReleased(hs)
    ensures Run(s, hs, t).pitch == ReleasedPitchIter(s.pitch, |hs|)
    decreases |hs|
  {
    if hs != [] {
      PitchRelaxation(s, NO_KEYS, t);
      ReleasedRunPitch(FrameStep(s, hs[0], t), hs[1..], t);
    }
  }

  lemma {:induction false} ReleasedZeroStays(n: nat)
    ensures ReleasedPitchIter(0.0, n) == 0.0
  {
    if n > 0 { ReleasedZeroStays(n - 1); }
  }

  /** Pitch in [-0.005, 0.004) reaches 0 within four frames and stays. */
  lemma ReleasedSmallPitchSettles(p: real, n: nat)
    requires -0.005 <= p < 0.004 && n >= 4
    ensures ReleasedPitchIter(p, n) == 0.0
  {
    var p1 := ReleasedPitch(p);
    var p2 := ReleasedPitch(p1);
    var p3 := ReleasedPitch(p2);
    var p4 := ReleasedPitch(p3);
    assert ReleasedPitchIter(p, n) == ReleasedPitchIter(p1, n - 1);
    assert ReleasedPitchIter(p1, n - 1) == ReleasedPitchIter(p2, n - 2);
    assert ReleasedPitchIter(p2, n - 2) == ReleasedPitchIter(p3, n - 3);
    assert ReleasedPitchIter(p3, n - 3) == ReleasedPitchIter(p4, n - 4);
    assert p4 == 0.0;
    ReleasedZeroStays(n - 4);
  }

  /** A pitch of magnitude at most k / 1000 reaches exactly 0 after k + 4
      frames with no key held, and stays there. */
  lemma {:induction false} ReleasedPitchSettles(p: real, k: nat, n: nat)
    requires Abs(p) <= k as real / 1000.0 && n >= k + 4
    ensures ReleasedPitchIter(p, n) == 0.0
    decreases k
  {
    if -0.005 <= p < 0.004 {
      ReleasedSmallPitchSettles(p, n);
    } else {
      assert k >= 4;
      assert Abs(ReleasedPitch(p)) <= (k - 1) as real / 1000.0;
      ReleasedPitchSettles(ReleasedPitch(p), k - 1, n - 1);
    }
  }

  /** With no key held, pitch always settles at exactly 0: from magnitude at
      most k / 1000 it is 0 after any run of k + 4 frames or more. */
  lemma PitchSettles(s: State, hs: seq<Held>, t: Trig, k: nat)
    requires AllReleased(hs) && Abs(s.pitch) <= k as real / 1000.0 && |hs| >= k + 4
    ensures Run(s, hs, t).pitch == 0.0
  {
    ReleasedRunPitch(s, hs, t);
    ReleasedPitchSettles(s.pitch, k, |hs|);
  }

  /** The roll one frame with no key held gives, written as a map on roll
      alone: the dead band, then the two relaxation steps. */
  function ReleasedRoll(r: real): real
  {
    if Abs(r) < 0.001 then 0.0
    else if r >= 0.003 then r - 0.003
    else if r >= 0.001 then r
    else r + 0.003
  }

  /** `ReleasedRoll` applied `n` times. */
  function ReleasedRollIter(r: real, n: nat): real
    decreases n
  {
    if n == 0 then r else ReleasedRollIter(ReleasedRoll(r), n - 1)
  }

  /** Where roll comes to rest with no key held: exactly 0, or a value in
      [0.001, 0.003) that relaxation subtracts and adds back. */
  ghost predicate RollAtRest(r: real)
  {
    r == 0.0 || 0.001 <= r < 0.003
  }

  /** With no key held, the roll after any run is the iterate of
      `ReleasedRoll`, whatever the other parameters are. */
  lemma {:induction false} ReleasedRunRoll(s: State, hs: seq<Held>, t: Trig)
    requires AllReleased(hs)
    ensures Run(s, hs, t).roll == ReleasedRollIter(s.roll, |hs|)
    decreases |hs|
  {
    if hs != [] {
      RollRelaxation(s, NO_KEYS, t);
      ReleasedRunRoll(FrameStep(s, hs[0], t), hs[1..], t);
    }
  }

  /** A roll at rest stays where it is. */
  lemma {:induction false} ReleasedRollAtRestStays(r: real, n: nat)
    requires RollAtRest(r)
    ensures ReleasedRollIter(r, n) == r
    decreases n
  {
    if n > 0 {
      assert ReleasedRoll(r) == r;
      ReleasedRollAtRestStays(r, n - 1);
    }
  }

  /** A roll of magnitude at most 0.003 comes to rest within two frames. */
  lemma ReleasedSmallRollSettles(r: real, n: nat)
    requires Abs(r) <= 0.003 && n >= 2
    ensures RollAtRest(ReleasedRollIter(r, n))
  {
    var r1 := ReleasedRoll(r);
    var r2 := ReleasedRoll(r1);
    assert ReleasedRollIter(r, n) == ReleasedRollIter(r1, n - 1);
    assert ReleasedRollIter(r1, n - 1) == ReleasedRollIter(r2, n - 2);
    assert RollAtRest(r2);
    ReleasedRollAtRestStays(r2, n - 2);
  }

  /** A roll of magnitude at most k / 1000 comes to rest after k + 2 frames
      with no key held, and stays there. */
  lemma {:induction false} ReleasedRollSettles(r: real, k: nat, n: nat)
    requires Abs(r) <= k as real / 1000.0 && n >= k + 2
    ensures RollAtRest(ReleasedRollIter(r, n))
    decreases k
  {
    if Abs(r) <= 0.003 {
      ReleasedSmallRollSettles(r, n);
    } else {
      assert k >= 4;
      assert Abs(ReleasedRoll(r)) <= (k - 1) as real / 1000.0;
      ReleasedRollSettles(ReleasedRoll(r), k - 1, n - 1);
    }
  }

  /** With no key held, roll comes to rest: from magnitude at most k / 1000,
      after any run of k + 2 frames or more it is 0 or in [0.001, 0.003),
      and a roll at rest never moves again. */
  lemma RollSettles(s: State, hs: seq<Held>, t: Trig, k: nat)
    requires AllReleased(hs) && Abs(s.roll) <= k as real / 1000.0 && |hs| >= k + 2
    ensures Run(s, hs, t).roll == 0.0 || 0.001 <= Run(s, hs, t).roll < 0.003
  {
    ReleasedRunRoll(s, hs, t);
    ReleasedRollSettles(s.roll, k, |hs|);
  }

  /** Holding climb from a pitch in [0, 0.305] keeps it there, and after one
      frame or more it lies in [0.002, 0.302]: the guard is read before the
      increment, and relaxation takes back 0.003 every frame. */
  lemma {:induction false} ClimbHeldPitch(s: State, hs: seq<Held>, t: Trig)
    requires 0.0 <= s.pitch <= 0.305 && OnlyClimb(hs)
    ensures 0.0 <= Run(s, hs, t).pitch <= 0.305
    ensures hs != [] ==> 0.002 <= Run(s, hs, t).pitch <= 0.302
    decreases |hs|
  {
    if hs != [] {
      var s1 := FrameStep(s, hs[0], t);
      assert 0.002 <= s1.pitch <= 0.302;
      ClimbHeldPitch(s1, hs[1..], t);
    }
  }

  /** From the default record, one frame holding turn-right. Roll ends at
      0.002 because relaxation follows the turn in the same frame. */
  lemma TurnRightFromDefaults(t: Trig)
    requires ValidTrig(t)
    ensures AttitudeUpdate(DEFAULTS, RIGHT_ONLY, t) ==
      DEFAULTS.(heading := 4.705, roll := 0.002, correction := Abs(t.cos(4.705)))
    ensures var r := FrameStep(DEFAULTS, RIGHT_ONLY, t); var k := 700.0 / 23760000.0;
      r.lng == 116.4074 + k * t.cos(4.705) &&
      r.lat == 39.9042 - k * t.sin(4.705) &&
      r.altitude == 2000.0
  {
  }
}
