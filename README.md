# Truck and ramp animation of the `World` scene

This project models the animation core of the second exercise's `World` class. That class lives in `kt2/PF2S5.2`, a WPF/OpenGL scene with a loaded truck model, a street and a loading ramp. Pressing a key starts a scripted animation:
- the truck drives in and turns;
- it backs towards the ramp;
- the ramp rises, waits, and lowers;
- the truck pulls away, turns back and leaves.

A 10 ms timer drives the sequencer. Each tick changes one parameter by a fixed step and compares it with a fixed threshold in the same tick. The user can also edit some scene parameters, such as the camera angles, the scene distance and the scales. Some of their setters silently ignore out-of-range values.

The project has three files:

- `AnimationState.dfy` (module `AnimationStates`): the ten-valued `AnimationState` enumeration in declaration order, its underlying values (`Ordinal`), the successor function `Next` and the position along a run (`RunRank`).
- `Sequencer.dfy` (module `Sequencer`):
  - the five driven parameters as a value `Pose`;
  - one tick as a function `Tick`, written as a transition table: for each state, the parameter it drives, the step and the threshold;
  - `Iterate`, which applies `Tick` n times;
  - `Schedule`, a closed form of the pose k ticks after `StartAnimation`;
  - the lemmas that connect these: the length of every phase, the length of a run, and the bounds on the ramp.
- `World.dfy` (module `Worlds`): the class `World` with the source's fields and these methods:
  - the constructor;
  - every setter;
  - `Resize`'s field updates;
  - `StartAnimation` and `StopAnimation`;
  - `Step`, which is `AnimationStep`'s `switch` written out and proved equal to `Tick`;
  - `Animate`, a loop that starts an animation and calls `Step` until the state is `AnimationFinished`, and is proved to return after exactly 412 ticks.

Modelling choices:
- The sequencer's fields (`truckX`, `truckZ`, `truckAngle`, `rampAngle`, `rampWaitCounter`) are declared `float` in C#. Every value they take is a small multiple of 1 or 5, which single precision represents exactly, so they are modelled as `int`.
- The scene settings are modelled as `real`. Their setters only compare and assign.
- The viewport size is an `int`.
- The RGBA ambient colour `reflectorAmbient` is an `array<real>` of length 4. The ambient setters update it in place.

Two facts of the code worth stating outright:
- `TruckLeaving` runs from `truckX = 0` to `truckX = -1000` in steps of 5, which is 200 ticks, so a whole run from `StartAnimation` is 412 ticks.
- `StartAnimation` also resets the camera: the scene distance to 150 and both rotations to 0 (kt2/PF2S5.2/World.cs:788-790).

## Model

| member | source | states |
|---|---|---|
| `AnimationStates.Ordinal` | kt2/PF2S5.2/AnimationState.cs:9-21 | each state's underlying value is its position in the declaration; `AnimationFinished`, the first and default member, is 0 |
| `AnimationStates.TenDistinctStates` | kt2/PF2S5.2/AnimationState.cs:9-21 | there are exactly ten states, pairwise distinct, and every state is one of them |
| `AnimationStates.Next` | kt2/PF2S5.2/World.cs:819-863 | the successor of a running state is the next one in declaration order, with `TruckLeaving` followed by `AnimationFinished`; `AnimationFinished` has no successor, and no state is followed by `TruckArriving` |
| `AnimationStates.NextAdvancesRank` | kt2/PF2S5.2/World.cs:819-863 | every transition moves exactly one place forward along the run |
| `Sequencer.TickChangesOnlyDriven` | kt2/PF2S5.2/World.cs:817-865 | one tick in a running state changes only that state's own parameter, by its fixed step: ±5 for truck position and angle, ±1 for ramp angle and wait counter |
| `Sequencer.TickSuccession` | kt2/PF2S5.2/World.cs:819-863 | a tick keeps the state or moves to its successor; it moves exactly when the parameter, already updated in that tick, has reached the threshold; the run rank never decreases and rises by at most one |
| `Sequencer.FinishedIsFixed` | kt2/PF2S5.2/World.cs:864 | a tick in `AnimationFinished` changes nothing |
| `Sequencer.NoReentry` | kt2/PF2S5.2/World.cs:817-865 | from any pose, along any number of ticks, no earlier state is ever re-entered |
| `Sequencer.ScheduleTick` | kt2/PF2S5.2/World.cs:819-863 | one tick (`Tick`, the transition table of `AnimationStep`) maps the closed-form pose after k ticks (`Schedule`) to the one after k + 1 ticks |
| `Sequencer.RunFollowsSchedule` | kt2/PF2S5.2/World.cs:786-866 | k ticks after `StartAnimation` the pose is exactly the closed-form schedule at k |
| `Sequencer.RunPhase` | kt2/PF2S5.2/World.cs:786-866 | a run is in each running state exactly during its phase: 80, 18, 8, 25, 30, 25, 8, 18 and 200 ticks, each phase starting where the previous one ends |
| `Sequencer.RunLength` | kt2/PF2S5.2/World.cs:786-866 | a run from `StartAnimation` is in `AnimationFinished` after k ticks exactly when k ≥ 412 |
| `Sequencer.RampBounds` | kt2/PF2S5.2/World.cs:834-848 | during a run the ramp angle stays in [0, 25] and the wait counter in [0, 30] |
| `Sequencer.RampPeak` | kt2/PF2S5.2/World.cs:834-848 | the ramp angle is 25 exactly from the entry into `RampWait` up to the entry into `RampLowering`, and 0 exactly up to and including the entry into `RampRising` and from the entry into `TruckAwayFromRamp` on |
| `Sequencer.PhaseEntryValues` | kt2/PF2S5.2/World.cs:834-863 | on entry into `RampWait` the ramp angle is 25; on entry into `TruckAwayFromRamp` it is 0; `TruckLeaving` starts at `truckX = 0` with the truck at angle -90 |
| `Sequencer.Stopped` | kt2/PF2S5.2/World.cs:804-812 | the pose a stop leaves is a fixed point of the tick, and the wait counter is carried over unchanged |
| `Sequencer.StoppedIsRest` | kt2/PF2S5.2/World.cs:804-866 | after a stop any number of ticks change nothing; stopping twice is the same as stopping once; the stopped pose is the same from every state and every parameter value, given the same wait counter |
| `Worlds.World.constructor` | kt2/PF2S5.2/World.cs:243-249 | together with the field initialisers at World.cs:51-122, a new world is in `AnimationFinished` with the truck at rest (x 60, z 0, angle -90), the ramp at 0, the wait counter at 0, the scales at 1, the camera at pitch 0, yaw 0, distance 150, the given viewport size, and ambient colour (0, 0, 1, 1) |
| `Worlds.World.SetRotationX` | kt2/PF2S5.2/World.cs:140-148 | assigns the pitch when it is in [0, 50] and otherwise keeps the old one; nothing else changes |
| `Worlds.World.SetRotationY` | kt2/PF2S5.2/World.cs:153-157 | always assigns the yaw; nothing else changes |
| `Worlds.World.SetSceneDistance` | kt2/PF2S5.2/World.cs:162-166 | always assigns the scene distance; nothing else changes |
| `Worlds.World.SetWidth` | kt2/PF2S5.2/World.cs:171-175 | always assigns the width; nothing else changes |
| `Worlds.World.SetHeight` | kt2/PF2S5.2/World.cs:180-184 | always assigns the height; nothing else changes |
| `Worlds.World.SetTruckScale` | kt2/PF2S5.2/World.cs:186-194 | assigns the truck scale when it is positive and otherwise keeps the old one; nothing else changes |
| `Worlds.World.SetRampHeightScale` | kt2/PF2S5.2/World.cs:196-204 | assigns the ramp height scale when it is positive and otherwise keeps the old one; nothing else changes |
| `Worlds.World.SetAmbientComponent` | kt2/PF2S5.2/World.cs:206-234 | the shared body of the three ambient setters: writes entry i (i < 3) of the ambient colour in place when the value is in [0, 1], and otherwise leaves the array as it was |
| `Worlds.World.SetAmbientRedComponent` | kt2/PF2S5.2/World.cs:206-214 | writes entry 0 of the ambient colour when the value is in [0, 1]; otherwise nothing changes; other entries and fields never change |
| `Worlds.World.SetAmbientGreenComponent` | kt2/PF2S5.2/World.cs:216-224 | writes entry 1 of the ambient colour when the value is in [0, 1]; otherwise nothing changes; other entries and fields never change |
| `Worlds.World.SetAmbientBlueComponent` | kt2/PF2S5.2/World.cs:226-234 | writes entry 2 of the ambient colour when the value is in [0, 1]; otherwise nothing changes; other entries and fields never change |
| `Worlds.World.Resize` | kt2/PF2S5.2/World.cs:763-766 | stores the new width and height and changes nothing else |
| `Worlds.World.StartAnimation` | kt2/PF2S5.2/World.cs:786-797 | afterwards the pose is exactly `TruckArriving` with truck x 400, z 0, angle -90 and ramp angle and wait counter 0; also truck scale 1, distance 150, pitch 0, yaw 0; the ramp height scale and viewport size are kept |
| `Worlds.World.StopAnimation` | kt2/PF2S5.2/World.cs:804-812 | from any state: ramp angle 0, truck angle -90, truck x 60, z 0 and `AnimationFinished`; the wait counter and every scene setting are unchanged |
| `Worlds.World.Step` | kt2/PF2S5.2/World.cs:815-866 | the state switch of one tick has exactly the effect of the transition table `Tick` (a running state's parameter moves by its step and is tested against its threshold in the same tick; `AnimationFinished` does nothing), and changes no scene setting |
| `Worlds.World.Animate` | kt2/PF2S5.2/World.cs:786-866 | starting an animation and ticking until `AnimationFinished` takes exactly 412 ticks and ends with the truck at x -1000, z 0, angle -90, the ramp at 0 and the wait counter at 30 |

## Left out

- Drawing is not modelled: `Draw`, `AddTruck`, `AddSurface`, `AddStreet`, `AddRamp`, `AddWalls`, `AddText`, `SetupLighting`, `SetViewportAndProjection` and `InitializeRamp`. They are fixed sequences of OpenGL calls with no logic of their own.
- Texture and model loading is not modelled: `SetupTextures`, `LoadTextures`, `Initialize`, the truck scene built in the constructor, and the `Scene` property. These are file I/O and foreign libraries. The constructor model keeps only the field initialisers and the viewport size.
- `Dispose` and the finalizer are not modelled. They only manage resources.
- The `DispatcherTimer` is not modelled. One timer tick is one call to `Step`, and a run driven by the timer is the loop in `Animate`.
- Timer consequences that the model therefore cannot show:
  - `StopAnimation` before any `StartAnimation` dereferences a timer that does not exist, which throws in C#. The model's `StopAnimation` is total.
  - A second `StartAnimation` while the first timer is still running adds a second timer, so ticks would come twice as fast.
  - In the application neither happens: the window's `animationActive` guard ignores key presses while an animation runs, so no second `StartAnimation` is issued, and its only call to `StopAnimation` comes after its call to `StartAnimation` (kt2/PF2S5.2/MainWindow.xaml.cs:98-126).
- Floating point is not modelled. The sequencer fields are integers, and this is exact for every value they reach.
- The scene settings are reals, which have no NaN. In C# a NaN fails every range test, so a guarded setter would ignore it, while `RotationY` and `SceneDistance` would store it.
- Getters are not separate members. Each getter returns the field, or the ambient array entry, that the model exposes directly.
- The window shell is not modelled: key bindings, text-box parsing, and the start, wait 15 s, stop wrapper. The first exercise's static scene is not modelled either. Neither has sequencer logic.
