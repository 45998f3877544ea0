# Day-night cycle and view switcher, modelled in Dafny

This project models two Unity game components.

- **Day-night cycle** (`DayNightCycleController`). It keeps a normalised time of day: 0 is midnight, 0.25 sunrise, 0.5 noon. Each frame moves the time by `(deltaTime / dayDuration) * timeScale`, forwards or backwards, and wraps it back by one day at most once. From the time it derives four things: the sun's pitch, the sun's intensity (base × curve, where a missing curve counts as 1), the shadow mode, and an `HH:MM` clock string. Public setters clamp the time scale and the time.
- **View switcher** (`CameraSwitcher`). It is a two-state machine between a third-person and a first-person camera, toggled by a key press. Each switch sets which camera is active, the audio listeners, the follow script and the cursor. In first person, mouse look keeps a pitch accumulator clamped to [-90, 90] and turns the player body about the vertical axis without a bound.

Numbers are Dafny `real`s. The engine's curves and gradients are values carrying an evaluation function that the model leaves uninterpreted. Scene objects that the components change in place are classes: the sun light, the global lighting settings, the cameras, the player body and the cursor. The engine supplies several inputs each frame: the frame time, the key press, the mouse axes, whether the game is playing, and the light found by the scene search. These are method parameters.

Modules:
- `Wrappers`: `Option`, for references the inspector may leave unassigned.
- `DayNightTime`: the per-frame step, the single wrap, its comparison with true reduction modulo one day, and runs of frames.
- `DayNightLighting`: sun pitch, intensities, colours, shadow mode, C#'s remainder, the "00" number format and the clock string.
- `DayNightCycle`: the `DayNightCycleController` class and the `Light` and `RenderSettings` objects it writes.
- `CameraViews`: the switcher's state as a value. It holds the transitions, mouse look, frames and runs, and the lemmas about them.
- `CameraSwitching`: the `CameraSwitcher` class and its scene objects. Each method's new state is the matching `CameraViews` function of its old state.

The comment above the wrap (DayNightCycleController.cs line 99) says it keeps the time "within the 0-1 range". The code applies only one correction of ±1. The model follows the code. `StepStaysInDay` and `RunIsModular` show the range is kept only while every step is smaller than a day. `LargeStepLeavesDay` and `SplitFrameNeedsSmallTotal` show what happens with larger steps.

## Model

| member | source | states |
|---|---|---|
| `DayNightTime.FrameStep` | Assets/Script/DayNightCycleController.cs:88 | a zero scale or frame time gives a zero step; non-negative inputs give a non-negative step |
| `DayNightTime.FrameStepScales` | Assets/Script/DayNightCycleController.cs:88 | the step times the day length equals the frame time times the scale; a frame of one whole day length steps by the scale itself |
| `DayNightTime.Wrap` | Assets/Script/DayNightCycleController.cs:100-107 | the result is the input, the input − 1 or the input + 1; on [-1, 2) it lies in [0, 1); an input already in [0, 1) is kept |
| `DayNightTime.Clamp01` | Assets/Script/DayNightCycleController.cs:194 | the result lies in [0, 1], equals the input inside it, and is 0 below and 1 above |
| `DayNightTime.AtLeastZero` | Assets/Script/DayNightCycleController.cs:175 | the result is at least 0 and at least the input, and is either the input or 0 |
| `DayNightTime.WrapIsFracExactlyOn` | Assets/Script/DayNightCycleController.cs:100-107 | the single correction equals true reduction modulo one day exactly when the input lies in [-1, 2) |
| `DayNightTime.StepStaysInDay` | Assets/Script/DayNightCycleController.cs:88-107 | from a time in [0, 1], a step of magnitude below 1, in either direction, lands in [0, 1) and equals the true reduction of the moved time |
| `DayNightTime.Step` | Assets/Script/DayNightCycleController.cs:90-107 | one frame's move and single wrap; specified by `StepStaysInDay`, `LargeStepLeavesDay`, `ForwardThenBack` and `BackThenForward` |
| `DayNightTime.Run` | Assets/Script/DayNightCycleController.cs:83-111 | the time after the engine's successive `Update` calls, one `Step` per frame; specified by `RunIsModular` (true reduction of start plus signed total) |
| `DayNightTime.LargeStepLeavesDay` | Assets/Script/DayNightCycleController.cs:100-107 | steps of 1.5 are not reduced into the day: 0.9 forward gives 1.4, and 0.2 backward gives −0.3 |
| `DayNightTime.PausedClock` | Assets/Script/DayNightCycleController.cs:88-107 | with a time scale of 0, a frame of any length in a day of any non-zero length keeps a time in [0, 1) and turns 1 into 0 |
| `DayNightTime.ForwardThenBack` | Assets/Script/DayNightCycleController.cs:90-107 | from [0, 1), a forward step of Δ ∈ [0, 1) and then a reversed step of Δ return exactly to the start |
| `DayNightTime.BackThenForward` | Assets/Script/DayNightCycleController.cs:90-107 | a reversed step and then a forward step of the same Δ return exactly to the start |
| `DayNightTime.RunIsModular` | Assets/Script/DayNightCycleController.cs:83-111 | over any run of frames with steps below one day, the time equals start plus signed total, reduced modulo one day, and stays in [0, 1) |
| `DayNightTime.SplitFrame` | Assets/Script/DayNightCycleController.cs:88-107 | two forward frames whose steps sum to less than a day give the same time as one frame of the sum |
| `DayNightTime.SplitFrameNeedsSmallTotal` | Assets/Script/DayNightCycleController.cs:100-107 | without that bound the two disagree: from 0.9, two steps of 0.6 give 0.1, but one step of 1.2 gives 1.1 |
| `DayNightLighting.SunPitch` | Assets/Script/DayNightCycleController.cs:116 | the time is recovered from the pitch as (pitch + 90) / 360; on [0, 1) the pitch lies in [-90, 270) |
| `DayNightLighting.SunPitchLandmarks` | Assets/Script/DayNightCycleController.cs:116 | midnight gives −90, sunrise 0, noon 90, sunset 180 |
| `DayNightLighting.SunPitchIncreasing` | Assets/Script/DayNightCycleController.cs:116 | the pitch rises strictly with the time |
| `DayNightLighting.EvaluateOr` | Assets/Script/DayNightCycleController.cs:127-131 | an unassigned curve, or one with no keys, gives the default; otherwise the curve's value at the time |
| `DayNightLighting.SunIntensity` | Assets/Script/DayNightCycleController.cs:132 | the sun's intensity at a time; specified by `SunIntensityWithoutCurve` and `SunIntensityWithCurve` |
| `DayNightLighting.ColorOr` | Assets/Script/DayNightCycleController.cs:135-149 | a colour from an optional gradient; `LitSun` and `LitAmbient` state its two cases for the sun colour and the ambient colour |
| `DayNightLighting.SunIntensityWithoutCurve` | Assets/Script/DayNightCycleController.cs:127-132 | without a usable curve the sun's intensity is the base intensity at every time |
| `DayNightLighting.SunIntensityWithCurve` | Assets/Script/DayNightCycleController.cs:127-132 | with a usable curve the intensity is base × curve value; it is the base when that value is 1, and 0 when the base is 0 |
| `DayNightLighting.ShadowMode` | Assets/Script/DayNightCycleController.cs:160 | shadows are Soft exactly when the flag is set, and None exactly when it is not |
| `DayNightLighting.LitSun` | Assets/Script/DayNightCycleController.cs:115-161 | the rendered sun has the time's pitch and the curve-scaled intensity; its type, yaw and roll are kept; its colour comes from the gradient if there is one, otherwise it is kept; its shadow mode is Soft with the flag set and None with it clear |
| `DayNightLighting.LitAmbient` | Assets/Script/DayNightCycleController.cs:142-154 | the ambient intensity follows a usable curve and is kept otherwise; the ambient colour follows the gradient if there is one; the skybox tint changes only when the skybox has a tint and a gradient exists, and then it equals the ambient colour |
| `DayNightLighting.RenderingIdempotent` | Assets/Script/DayNightCycleController.cs:113-169 | rendering the same time twice leaves the sun and the ambient settings as rendering once |
| `DayNightLighting.Remainder` | Assets/Script/DayNightCycleController.cs:166 | C#'s `%`: the magnitude is below the divisor, a non-negative dividend gives Dafny's remainder, and a non-positive dividend gives a non-positive result |
| `DayNightLighting.RemainderBy24` | Assets/Script/DayNightCycleController.cs:166 | the dividend minus the remainder by 24 is a whole number of days; for a negative dividend the remainder is 0 or the Euclidean remainder − 24 |
| `DayNightLighting.Minutes` | Assets/Script/DayNightCycleController.cs:167 | the minute lies in 0..59 for every time |
| `DayNightLighting.Hours` | Assets/Script/DayNightCycleController.cs:166 | the clock's hour; specified by `HoursInRange`, `RemainderBy24` and `ClockShowsMinuteOfDay` |
| `DayNightLighting.HoursInRange` | Assets/Script/DayNightCycleController.cs:166 | for a time that is not negative the hour lies in 0..23; below 1 it is the floor of 24 × time |
| `DayNightLighting.ClockShowsMinuteOfDay` | Assets/Script/DayNightCycleController.cs:165-167 | on [0, 1), hour × 60 + minute equals the whole minutes elapsed since midnight |
| `DayNightLighting.Digits` | Assets/Script/DayNightCycleController.cs:168 | the decimal spelling is all digits, reads back as the number, and has one digit below 10 and at least two from 10 |
| `DayNightLighting.Format00` | Assets/Script/DayNightCycleController.cs:168 | 0..99 give two digits that read back as the number; −99..−1 give a minus sign and two digits |
| `DayNightLighting.ClockString` | Assets/Script/DayNightCycleController.cs:168 | the clock string; specified by `ClockStringShape`, `ClockShowsMinuteOfDay`, `ClockStringLandmarks` and `ClockStringOfNegativeTime` |
| `DayNightLighting.ClockStringShape` | Assets/Script/DayNightCycleController.cs:165-168 | for a time that is not negative, the string has length 5, a colon at index 2 and digits elsewhere; its halves read back as the hour (0..23) and the minute (0..59) |
| `DayNightLighting.ClockStringLandmarks` | Assets/Script/DayNightCycleController.cs:165-168 | 0 → "00:00", 0.25 → "06:00", 0.5 → "12:00", 0.75 → "18:00", 1 → "00:00", and 0.9999 → "23:59" under exact floor |
| `DayNightLighting.ClockStringOfNegativeTime` | Assets/Script/DayNightCycleController.cs:165-168 | a time of −0.3 shows "-08:48" (six characters) |
| `DayNightCycle.DayNightCycleController.constructor` | Assets/Script/DayNightCycleController.cs:8-51 | the declared defaults: a 120 s day, time 0.25, scale 1, forward, base intensity 1, shadows on, enabled |
| `DayNightCycle.DayNightCycleController.UpdateDayNightCycle` | Assets/Script/DayNightCycleController.cs:113-169 | the sun, if there is one, becomes `LitSun` of its old state and the debug intensity mirrors it; the ambient settings become `LitAmbient`; the clock string is `ClockString` of the time |
| `DayNightCycle.DayNightCycleController.RenderSun` | Assets/Script/DayNightCycleController.cs:115-139 | with a sun, its new state is `LitSun` of the old one; without one, nothing changes |
| `DayNightCycle.DayNightCycleController.RenderAmbient` | Assets/Script/DayNightCycleController.cs:142-154 | the global lighting settings become `LitAmbient` of their old state |
| `DayNightCycle.DayNightCycleController.Start` | Assets/Script/DayNightCycleController.cs:54-81 | an assigned sun is kept and rendered, and any other light is left as it was; otherwise a found directional light is taken and rendered; a rendered sun's intensity is mirrored in the debug value; if there is none the component is disabled and nothing is rendered, the debug value included |
| `DayNightCycle.DayNightCycleController.Update` | Assets/Script/DayNightCycleController.cs:83-111 | without a sun nothing changes, the debug intensity included; with one the time becomes `Step` of the old time and is rendered, and the debug intensity mirrors the sun's; from [0, 1] with a step below one day the new time lies in [0, 1) and is the true reduction |
| `DayNightCycle.DayNightCycleController.SetTimeScaleMultiplier` | Assets/Script/DayNightCycleController.cs:173-176 | the scale becomes the input with negatives raised to 0 |
| `DayNightCycle.DayNightCycleController.SetTimeReversed` | Assets/Script/DayNightCycleController.cs:178-181 | the reversal flag becomes the input |
| `DayNightCycle.DayNightCycleController.SetIsDayEnableShadows` | Assets/Script/DayNightCycleController.cs:183-190 | the flag becomes the input, and a sun gets the matching shadow mode with nothing else changed |
| `DayNightCycle.DayNightCycleController.SetCurrentTimeNormalized` | Assets/Script/DayNightCycleController.cs:192-199 | the time becomes the clamped input, in [0, 1]; it is rendered when the game plays and a sun exists, with the debug intensity mirroring the sun's, and nothing else changes otherwise |
| `CameraViews.Clamp` | Assets/Script/CameraSwitcher.cs:88 | the result lies in [lo, hi], equals the input inside it, and is the nearer bound outside |
| `CameraViews.ThirdPersonView` | Assets/Script/CameraSwitcher.cs:50-63 | the third-person camera is active, listening and following; the first-person camera is inactive and not listening, and no listener is added to it; the cursor is unlocked and visible; the flag, pitch, yaw and rotations are kept |
| `CameraViews.FirstPersonView` | Assets/Script/CameraSwitcher.cs:65-79 | the first-person camera is active and listening; the third-person camera is inactive, not listening and not following; the cursor is locked and hidden; the pitch accumulator is the camera's pitch, unclamped |
| `CameraViews.PressSwitch` | Assets/Script/CameraSwitcher.cs:30-41 | a press flips the view flag once and leaves the layout of the new view |
| `CameraViews.MouseLook` | Assets/Script/CameraSwitcher.cs:81-93 | the pitch becomes clamp(old − deltaY, −90, 90) and lies in [-90, 90]; the camera's local rotation is (pitch, 0, 0); the body's yaw grows by deltaX without bound; nothing else changes |
| `CameraViews.Frame` | Assets/Script/CameraSwitcher.cs:28-48 | one `Update` call; specified by `FrameKeepsScene`, `FrameKeepsSettled`, `FrameFlipsOnPress`, `FrameClampsPitch` and `NoLookWithoutFirstPerson` |
| `CameraViews.Run` | Assets/Script/CameraSwitcher.cs:28-48 | the state after the engine's successive `Update` calls, one `Frame` per input; specified by `RunKeepsSettled` and `RunParity` |
| `CameraViews.FrameKeepsScene` | Assets/Script/CameraSwitcher.cs:28-48 | a frame never removes the follow script or changes whether the first-person camera's parents are active |
| `CameraViews.SettledExclusive` | Assets/Script/CameraSwitcher.cs:50-79 | in either layout exactly one camera is active and exactly one is listening; the cursor is locked and hidden exactly in first person; following happens exactly in third person |
| `CameraViews.SwitchTwiceRestores` | Assets/Script/CameraSwitcher.cs:30-41 | two presses restore the view flag, the cursor, the cameras' activity, listening and following, and the body's yaw |
| `CameraViews.SwitchFourTimesIsSwitchTwice` | Assets/Script/CameraSwitcher.cs:30-41 | after two presses from any state, two more presses give exactly the same state again |
| `CameraViews.FrameKeepsSettled` | Assets/Script/CameraSwitcher.cs:28-48 | a frame keeps the cameras and the cursor in the layout the view flag names |
| `CameraViews.FrameFlipsOnPress` | Assets/Script/CameraSwitcher.cs:30-32 | a frame flips the view exactly when the key is pressed |
| `CameraViews.FrameClampsPitch` | Assets/Script/CameraSwitcher.cs:44-89 | a frame that ends looking around in first person leaves the pitch in [-90, 90] and the camera rotation at (pitch, 0, 0) |
| `CameraViews.NoLookWithoutFirstPerson` | Assets/Script/CameraSwitcher.cs:44-47 | unless the view is first person and that camera is active in the hierarchy, mouse look changes nothing; an unpressed third-person frame changes nothing |
| `CameraViews.EnteringWithLargeSeed` | Assets/Script/CameraSwitcher.cs:78-88 | a camera pitch of 350 is taken as the seed unchanged; with the camera active, the same frame's look step clamps it to 90 |
| `CameraViews.RunKeepsSettled` | Assets/Script/CameraSwitcher.cs:28-48 | over any run of frames the cameras and cursor stay in the layout the view flag names |
| `CameraViews.RunParity` | Assets/Script/CameraSwitcher.cs:30-41 | after any run of frames the view has flipped exactly when the number of presses is odd |
| `CameraViews.StartIsThirdPerson` | Assets/Script/CameraSwitcher.cs:14-25 | from the initial flag `false`, start-up gives the settled third-person view |
| `CameraSwitching.CameraSwitcher.constructor` | Assets/Script/CameraSwitcher.cs:5-14 | the declared defaults: sensitivity 100, pitch 0, third-person flag; two distinct cameras give a valid switcher |
| `CameraSwitching.CameraSwitcher.Start` | Assets/Script/CameraSwitcher.cs:16-26 | an unassigned player body defaults to the own transform; then the state becomes `ThirdPersonView` of the old one |
| `CameraSwitching.CameraSwitcher.Update` | Assets/Script/CameraSwitcher.cs:28-48 | the new state is `Frame` of the old state and this frame's input |
| `CameraSwitching.CameraSwitcher.ActivateThirdPersonView` | Assets/Script/CameraSwitcher.cs:50-63 | the new state is `ThirdPersonView` of the old one |
| `CameraSwitching.CameraSwitcher.ActivateFirstPersonView` | Assets/Script/CameraSwitcher.cs:65-79 | the new state is `FirstPersonView` of the old one |
| `CameraSwitching.CameraSwitcher.HandleFirstPersonMouseLook` | Assets/Script/CameraSwitcher.cs:81-93 | the new state is `MouseLook` of the old one, with axis × sensitivity × frame time as the deltas |

## Left out

- Assets/Script/ThirdPersonCamera.cs, the follow camera, is not part of this model. All of its behaviour is engine vector code: interpolation, rotating a vector by a quaternion, and looking at a point. The switcher models only its enabled flag.
- Curve and gradient evaluation (`AnimationCurve.Evaluate`, `Gradient.Evaluate`) is left uninterpreted. Each curve or gradient value carries an arbitrary evaluation function, plus a key count for curves.
- Engine calls become objects or parameters:
  - `RenderSettings` is an object injected into the controller.
  - The skybox is reduced to a flag saying whether it has a `_Tint` colour, plus that colour.
  - `FindFirstObjectByType<Light>()` becomes the `found` parameter of `Start`, and the light type becomes its `isDirectional` flag.
  - `Input.GetKeyDown(switchKey)`, the mouse axes, `Time.deltaTime` and `Application.isPlaying` are method parameters. The key code itself is not modelled.
- Gizmo drawing (`OnDrawGizmosSelected`) and `Debug` logging are left out: they only draw or print.
- IEEE single-precision rounding is not modelled; the arithmetic is exact over the reals. Floors near boundaries, such as 0.9999 giving "23:59", follow exact arithmetic.
- DayNightCycle.DayNightCycleController.Update: requires a non-zero day length. With a day length of 0 the float division gives an infinity or NaN, and reals cannot represent either.
- The engine's conversion between Euler angles and quaternions is not modelled. The engine reports `localEulerAngles.x` in [0, 360). The model reads back the pitch exactly as it was last written, and otherwise treats the seed as an arbitrary real. `EnteringWithLargeSeed` shows what a reported 350 does: a slight upward look taken as the seed at line 78 is clamped to 90 (straight down) by line 88, so the seeding does not prevent a snap for upward pitches.
- The sun's yaw and roll are read back at DayNightCycleController.cs line 120 exactly as stored. The engine re-derives Euler angles from the rotation with x in [-90, 90]. For a pitch in (90, 270) it would report (180 − x, y + 180, z + 180). `LitSun`'s "yaw and roll are kept" holds under the model's exact read-back, not under that re-derivation.
- `Mathf.FloorToInt` at lines 166-167 returns a 32-bit integer. The model's `Hours` uses an unbounded `int` and does not capture its overflow once |24 × time| reaches 2³¹. That needs a time far outside [0, 1], which only steps of a day or more produce.
- The camera references are non-null: the model assumes both inspector references are assigned. With either one unassigned, the C# throws a `NullReferenceException` at CameraSwitcher.cs line 52 or 57 (or line 67 or 71 in the other transition), which the model does not capture.
- The camera hierarchy is assumed independent: each camera's parents keep their activity across both transitions (`SameScene`). The model does not capture a first-person camera nested under the third-person camera. There, line 67's `SetActive(false)` would make line 44's `activeInHierarchy` false, and mouse look would never run.
- `Transform.Rotate` is modelled as adding to a yaw angle. The player body is a separate object from the cameras, so the model does not capture the body aliasing a camera's own transform.
- CameraSwitching.CameraSwitcher methods: they require the two camera references to name different objects. Without that, exactly one active camera cannot hold.
- CameraSwitching.CameraSwitcher.ActivateThirdPersonView: requires the follow script on the third-person camera, because line 55 dereferences it without a null check. `Start` and `Update` pass this precondition on (for `Update`, only when the press switches back to third person).
- The engine stops calling `Update` on a disabled component. The controller's own guard (`sunLight == null`) already covers the one case where `Start` disables it, so the model does not model the engine's scheduling.
- `UpdateDayNightCycle` is modelled in three sections: sun, ambient settings, then clock string. The sun's shadow mode is written together with the rest of the sun, not after the ambient settings. The two touch different objects, so the final state is the same. The model does not capture an observer in between writes.
- The initial `currentTimeString` is C#'s null; the model starts it as the empty string. The inspector's `[Range(0, 1)]` on the time is an editor hint, and the model does not enforce it.
