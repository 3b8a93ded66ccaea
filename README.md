# UAV flight core

This project models the per-frame flight update of a keyboard-driven UAV
simulation (the `useUavBase` hook). The model has three parts:

- **The flight-parameter record** `params`: lat, lng, altitude, heading,
  pitch, roll, correction and speed. It is the class
  `UseUavBase.FlightParams`, and `FlightRules.State` is its value.
- **The keyboard map.** It holds six flags keyed by `"w"`, `"s"`, `"a"`,
  `"d"`, `"q"`, `"e"` and is written in place by the keydown and keyup
  handlers. It is the field `keyboardMap: map<string, bool>` of
  `UseUavBase.UavBase`.
- **The frame.** `renderer` runs the attitude updater `obAdjustParams` and
  then the position integrator `onAdjustAttitude`.

The model is in three files:

- `flight_rules.dfy`, module `FlightRules`. The rules as pure functions:
  one function per block of the attitude updater (`SpeedControl`, `Climb`,
  `Dive`, `TurnLeft`, `TurnRight`, `Recorrect`, `DeadBandSnap`, `Relax`),
  composed in the source's order as `AttitudeUpdate`. It also holds the
  integrator `Integrate`, the pose `PoseOf`, one frame `FrameStep`, and
  `Run`, which applies one frame per element of a sequence of key states.
- `use_uav_base.dfy`, module `UseUavBase`. The imperative model. Its methods
  mutate the record field by field through the same guarded assignments as
  the source, and each one is proved equal to its rule.
- `flight_properties.dfy`, module `FlightProperties`. Lemmas about one
  update, the integrator and any number of frames.

Numbers are exact reals. `Math.sin` and `Math.cos` are not modelled: every
operation takes a `Trig` value that holds two total functions. The lemmas
that need facts about them require `ValidTrig`, which gives only these:
|sin x| ≤ 1, |cos x| ≤ 1, sin 0 = 0 and cos 0 = 1.

Behaviour of the code worth noting:

- The climb and dive altitude nudge is `speed / 60 / 60 / 60 * 110`, which
  is speed / 216000 * 110 (`AltitudeNudge`).
- The integrator step is `speed / 60 / 60 / 60 / 110`, which is
  speed / 23,760,000. The integrator's altitude factor is
  110 * 1000 * 10 = 1,100,000 (`IntegrateRule`).
- Speed-down is gated on speed ≥ 500 before it subtracts 100. So holding it
  from 500 ends at 400, and the lowest speed it can reach is 400
  (`SpeedDownFrom500`, `SpeedFloor`).
- `correction` is computed from the heading and pitch before the dead band
  and the relaxation. So at the end of a frame it can disagree with the
  final pitch (`CorrectionMayBeStale`).
- One frame of turn-right from the initial record ends with roll 0.002,
  because relaxation follows the turn in the same frame
  (`TurnRightFromDefaults`).
- With no key held, roll settles within k + 2 frames from magnitude at
  most k / 1000. It ends at 0 or at a value in [0.001, 0.003), and a roll
  in [0.001, 0.003) never changes (`RollSettles`, `SmallRollPersists`). Pitch does settle at exactly 0,
  though not monotonically (for example -0.001, 0.001, -0.002, 0):
  from magnitude at most k / 1000 it is 0 after k + 4 frames
  (`PitchSettles`).

## Model

| member | source | states |
|---|---|---|
| `UseUavBase.FlightParams.constructor` | src/hooks/useUavBase.ts:5-14 | the record starts at lat 39.9042, lng 116.4074, altitude 2000, heading 4.7, pitch 0, roll 0, correction 1, speed 700 |
| `UseUavBase.UavBase.constructor` | src/hooks/useUavBase.ts:21-37 | the keyboard map has exactly the six direction keys, all released |
| `UseUavBase.SetFlag` | src/hooks/useUavBase.ts:93-102 | a key in the map gets the new flag, every other entry is kept and the key set is unchanged; a key not in the map leaves the map as it was |
| `UseUavBase.UavBase.OnKeyDown` | src/hooks/useUavBase.ts:93-97 | the keydown handler's new map is `SetFlag(old map, key, true)` |
| `UseUavBase.UavBase.OnKeyUp` | src/hooks/useUavBase.ts:98-102 | the keyup handler's new map is `SetFlag(old map, key, false)` |
| `UseUavBase.KeyHandlerRule` | src/hooks/useUavBase.ts:21-37 | on the six-key map, a handler for one of `w,s,a,d,q,e` changes exactly that direction's flag; any other key changes nothing |
| `UseUavBase.UpperCaseIgnored` | src/hooks/useUavBase.ts:94-100 | `W,S,A,D,Q,E` are not direction keys and leave the map unchanged |
| `UseUavBase.UavBase.AdjustParams` | src/hooks/useUavBase.ts:106-161 | the record after the attitude updater is `AttitudeUpdate` of the record before it and the held keys |
| `UseUavBase.UavBase.ControlSpeed` | src/hooks/useUavBase.ts:107-114 | the speed block in place equals `SpeedControl` |
| `UseUavBase.UavBase.ClimbStep` | src/hooks/useUavBase.ts:116-124 | the climb block in place equals `Climb` |
| `UseUavBase.UavBase.DiveStep` | src/hooks/useUavBase.ts:126-134 | the dive block in place equals `Dive` |
| `UseUavBase.UavBase.TurnLeftStep` | src/hooks/useUavBase.ts:136-141 | the turn-left block in place equals `TurnLeft` |
| `UseUavBase.UavBase.TurnRightStep` | src/hooks/useUavBase.ts:143-148 | the turn-right block in place equals `TurnRight` |
| `UseUavBase.UavBase.CorrectAndSnap` | src/hooks/useUavBase.ts:149-153 | correction is set from the attitude as it stands, then the dead band is applied to values read before either write |
| `UseUavBase.UavBase.RelaxStep` | src/hooks/useUavBase.ts:155-160 | the two sequential ifs for roll and the two for pitch equal `Relax`; heading is not relaxed |
| `UseUavBase.UavBase.AdjustAttitude` | src/hooks/useUavBase.ts:164-175 | the record after the integrator is `Integrate` of the record before it, and the returned pose is `PoseOf` it |
| `UseUavBase.UavBase.Renderer` | src/hooks/useUavBase.ts:65-69 | one frame is the attitude updater then the integrator (`FrameStep`, `FramePose`), and it keeps the flight envelope (speed ≥ 400, pitch and roll bands) |
| `FlightRules.SpeedControl` | src/hooks/useUavBase.ts:107-114 | no contract of its own: speed-up then speed-down as the source writes it; specified by `SpeedRule`, `SpeedFloor`, `SpeedDownSettles`, `SpeedDownFrom500` |
| `FlightRules.Climb` | src/hooks/useUavBase.ts:116-124 | no contract of its own: the climb block; specified by `PitchBand`, `AltitudeNudge`, `BothPitchKeysNudge`, `ClimbHeldPitch` |
| `FlightRules.Dive` | src/hooks/useUavBase.ts:126-134 | no contract of its own: the dive block; specified by `PitchBand`, `DiveReadsClimbedPitch`, `AltitudeNudge`, `BothPitchKeysNudge` |
| `FlightRules.TurnLeft` | src/hooks/useUavBase.ts:136-141 | no contract of its own: the turn-left block; specified by `HeadingRule`, `RollFollowsTurn`, `RollBand` |
| `FlightRules.TurnRight` | src/hooks/useUavBase.ts:143-148 | no contract of its own: the turn-right block; specified by `HeadingRule`, `RollFollowsTurn`, `RollBand` |
| `FlightRules.InputSteps` | src/hooks/useUavBase.ts:107-148 | no contract of its own: the five input blocks composed in the source's order; specified by `DiveReadsClimbedPitch`, `RollFollowsTurn`, `CorrectionRule`, `DeadBandRule`, `RollRelaxation`, `PitchRelaxation` |
| `FlightRules.Recorrect` | src/hooks/useUavBase.ts:149-150 | no contract of its own: sets correction from heading and pitch; specified by `CorrectionRule`, `CorrectionBounds`, `CorrectionMayBeStale` |
| `FlightRules.DeadBandSnap` | src/hooks/useUavBase.ts:151-153 | no contract of its own: the three snaps; specified by `DeadBandRule` |
| `FlightRules.Relax` | src/hooks/useUavBase.ts:155-160 | no contract of its own: the four sequential relaxation ifs; specified by `RollRelaxation`, `PitchRelaxation`, `SmallRollPersists`, `RollSettles`, `PitchSettles` |
| `FlightRules.AttitudeUpdate` | src/hooks/useUavBase.ts:106-161 | no contract of its own: the blocks above composed in the source's order; specified by the per-update lemmas below and `LevelFixedPoint` |
| `FlightRules.PoseOf` | src/hooks/useUavBase.ts:168-171 | no contract of its own: the values handed to the renderer; specified by `PoseLagsAltitude` |
| `FlightRules.FrameStep` | src/hooks/useUavBase.ts:65-69 | no contract of its own: the attitude updater then the integrator; specified by `FrameKeepsEnvelope` and `UavBase.Renderer` |
| `FlightRules.FramePose` | src/hooks/useUavBase.ts:65-69 | no contract of its own: the pose of one frame; specified by `PoseLagsAltitude` and `UavBase.Renderer` |
| `FlightRules.Run` | src/hooks/useUavBase.ts:65-69 | no contract of its own: one frame per key state, standing for the repeated frame loop; specified by `RunKeepsBands`, `SpeedDownSettles`, `SmallRollPersists`, `LevelFlight`, `ClimbHeldPitch`, `RollSettles`, `PitchSettles` |
| `FlightRules.Integrate` | src/hooks/useUavBase.ts:165-169 | the integrator leaves heading, pitch, roll, speed and correction unchanged |
| `FlightProperties.SpeedRule` | src/hooks/useUavBase.ts:107-114 | speed-up alone adds 100; speed-down alone subtracts 100 iff speed ≥ 500; both held keep a speed ≥ 400 and add 100 below it; neither leaves it |
| `FlightProperties.SpeedFloor` | src/hooks/useUavBase.ts:107-114 | a speed of at least 400 is at least 400 after the update |
| `FlightProperties.PitchBand` | src/hooks/useUavBase.ts:116-134 | a pitch in [-0.306, 0.305] stays in it under any keys, relaxation included |
| `FlightProperties.DiveReadsClimbedPitch` | src/hooks/useUavBase.ts:116-134 | with both pitch keys held, pitch moves by -0.001 over [-0.305, 0.3] because dive's guard reads the climbed pitch, while dive alone below -0.3 does nothing |
| `FlightProperties.RollFollowsTurn` | src/hooks/useUavBase.ts:136-148 | a single turn key moves roll by ∓0.005 only while strictly inside (-0.785, 0.785); no turn key leaves roll unchanged; with both keys held the right turn's guard reads the left turn's write, so roll is unchanged on (-0.785, 0.79), rises by 0.005 at or below -0.785 and falls by 0.005 from 0.79 up |
| `FlightProperties.RollBand` | src/hooks/useUavBase.ts:136-158 | a roll in [-0.79, 0.79] stays in it under any keys |
| `FlightProperties.HeadingRule` | src/hooks/useUavBase.ts:136-156 | heading moves only by -0.005 (left) and +0.005 (right) followed by the dead band; with both or neither held it is only snapped |
| `FlightProperties.AltitudeNudge` | src/hooks/useUavBase.ts:116-134 | with at most one pitch key held, altitude moves only in the climb branch when the new pitch is positive and in the dive branch when it is negative, by speed / 216000 * 110 * sin(pitch) with the updated speed and pitch; lat and lng stay put |
| `FlightProperties.BothPitchKeysNudge` | src/hooks/useUavBase.ts:116-134 | with both pitch keys held, altitude gains climb's nudge at the climbed pitch, then dive's nudge, whose guard and pitch read the value climb just wrote |
| `FlightProperties.CorrectionRule` | src/hooks/useUavBase.ts:149-150 | correction is \|cos(heading) * cos(pitch)\| of the attitude after the input steps |
| `FlightProperties.CorrectionBounds` | src/hooks/useUavBase.ts:150 | correction lies in [0, 1] |
| `FlightProperties.CorrectionMayBeStale` | src/hooks/useUavBase.ts:149-160 | with no key held from heading 0 and pitch 0.1, the correction is taken at pitch 0.1 while the pitch ends at 0.097; whenever the cosine tells 0.1 from 0.097, the correction differs from \|cos heading · cos pitch\| of the final record |
| `FlightProperties.DeadBandRule` | src/hooks/useUavBase.ts:151-160 | a heading, roll or pitch of magnitude below 0.001 after the input steps ends the update at exactly 0; a heading outside the band is kept |
| `FlightProperties.RollRelaxation` | src/hooks/useUavBase.ts:136-158 | whatever keys are held, from the roll the input steps leave: roll ≥ 0.003 loses 0.003, roll in [0.001, 0.003) is unchanged, \|roll\| < 0.001 becomes 0, roll ≤ -0.001 gains 0.003 |
| `FlightProperties.PitchRelaxation` | src/hooks/useUavBase.ts:116-160 | whatever keys are held, from the pitch the input steps leave: pitch ≥ 0.001 loses 0.003, \|pitch\| < 0.001 becomes 0, pitch in (-0.005, -0.001] gains 0.002, pitch ≤ -0.005 gains 0.005 |
| `FlightProperties.LevelFixedPoint` | src/hooks/useUavBase.ts:106-161 | zero heading, pitch and roll with no key held is a fixed point of the updater, with correction 1 and everything else unchanged |
| `FlightProperties.IntegrateRule` | src/hooks/useUavBase.ts:165-169 | with k = speed / 23,760,000: lng += k cos(heading), lat -= k sin(heading), altitude += k sin(pitch) * 1,100,000 |
| `FlightProperties.LevelIntegrate` | src/hooks/useUavBase.ts:165-169 | zero pitch leaves altitude unchanged; zero heading leaves lat unchanged and adds one step to lng |
| `FlightProperties.PoseLagsAltitude` | src/hooks/useUavBase.ts:168-171 | the pose has the new lng and lat but the altitude from before the increment, so it differs from the new altitude whenever speed and sin(pitch) are non-zero |
| `FlightProperties.FrameKeepsEnvelope` | src/hooks/useUavBase.ts:65-69 | one frame keeps speed ≥ 400 and the pitch and roll bands |
| `FlightProperties.RunKeepsBands` | src/hooks/useUavBase.ts:65-69 | over any number of frames and any keys, speed ≥ 400, the pitch band and the roll band each hold if they held at the start |
| `FlightProperties.SpeedDownSettles` | src/hooks/useUavBase.ts:110-114 | holding speed-down from a speed in [400, 500) never changes the speed |
| `FlightProperties.SpeedDownFrom500` | src/hooks/useUavBase.ts:110-114 | holding speed-down from 500 for one frame or more ends at 400 |
| `FlightProperties.SmallRollPersists` | src/hooks/useUavBase.ts:152-158 | with no key held, a roll in [0.001, 0.003) keeps its value over any number of frames |
| `FlightProperties.LevelFlight` | src/hooks/useUavBase.ts:106-169 | level flight with no key held keeps the attitude at zero and speed, lat and altitude unchanged, while lng advances by one step per frame and correction is 1 |
| `FlightProperties.ClimbHeldPitch` | src/hooks/useUavBase.ts:116-124 | holding climb from a pitch in [0, 0.305] keeps it there, and after a frame or more the pitch is in [0.002, 0.302] |
| `FlightProperties.ReleasedRunPitch` | src/hooks/useUavBase.ts:153-160 | with no key held, the pitch after any run is the iterate of the pitch-only map `ReleasedPitch` (dead band, then the two relaxation ifs) |
| `FlightProperties.ReleasedPitchSettles` | src/hooks/useUavBase.ts:153-160 | iterating `ReleasedPitch` k + 4 times or more from a magnitude at most k / 1000 gives exactly 0 |
| `FlightProperties.ReleasedRunRoll` | src/hooks/useUavBase.ts:152-158 | with no key held, the roll after any run is the iterate of the roll-only map `ReleasedRoll` (dead band, then the two relaxation ifs) |
| `FlightProperties.ReleasedRollSettles` | src/hooks/useUavBase.ts:152-158 | iterating `ReleasedRoll` k + 2 times or more from a magnitude at most k / 1000 ends at 0 or in [0.001, 0.003) |
| `FlightProperties.RollSettles` | src/hooks/useUavBase.ts:152-158 | with no key held, a roll of magnitude at most k / 1000 is 0 or in [0.001, 0.003) after any run of k + 2 frames or more |
| `FlightProperties.PitchSettles` | src/hooks/useUavBase.ts:153-160 | with no key held, a pitch of magnitude at most k / 1000 is exactly 0 after any run of k + 4 frames or more |
| `FlightProperties.TurnRightFromDefaults` | src/hooks/useUavBase.ts:5-169 | one frame of turn-right from the initial record gives heading 4.705, roll 0.002 and correction \|cos 4.705\|, with lng and lat advanced by 700 / 23,760,000 along the new heading and altitude still 2000 |

## Left out

- Viewer and terrain setup (`initCesium`), model loading and the tracked entity (`onLoadModel`): these are calls into the rendering library.
- `Cesium.Cartesian3.fromDegrees`, `HeadingPitchRoll`, `Transforms.headingPitchRollQuaternion` and writing the pose onto the entity: the model returns the argument values (`Pose`) instead of a Cartesian position and a quaternion.
- The `requestAnimationFrame` self-rescheduling and the `onMounted` bootstrap: they are never-ending host scheduling. One frame is `Renderer`, and many frames appear only as `Run` in lemmas.
- `document.addEventListener` registration and the Vue `reactive`/`ref` machinery: only the handler bodies are modelled.
- Keyboard events arriving between frames: handlers and frames are separate method calls, and nothing here interleaves them.
- `Math.sin` and `Math.cos`: they are parameters. Properties that need more than the four `ValidTrig` facts are not stated, for example that the nudge is positive while climbing.
- IEEE-754 double rounding: numbers are exact reals. The relaxation fixed points, such as a roll in [0.001, 0.003), hold exactly here but may drift under doubles.
- `UseUavBase.UavBase.AdjustParams`: the source is one function. The model runs its blocks as seven step methods, one per block of `obAdjustParams`, called in the source's order. The guards and assignments are the source's.
- vite.config.ts: build and dev-server configuration with no flight logic.
