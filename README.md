# Sjabloon gameplay core in Dafny

This project models the gameplay core of the Sjabloon Unity template and
proves properties of it. The core covers:

- the kinematic 2D character controller, which clips a move against ray casts, detects slopes and reports whether the body is grounded;
- the two player scripts and their Walk, Jump and Fall states;
- damageable objects with health, death and score events;
- the gun, which fires a bullet pattern until it reaches a reload entry;
- Bezier and polyline splines, and an object that walks along a spline;
- the Xbox controller facade, with button edges and a rumble timer;
- the named input bindings of the input manager;
- the list shuffle and copy extension methods.

The model follows the form of the C# code:

- MonoBehaviours whose fields change become classes.
  - Their methods name what they modify.
  - Each method ensures its new state equals a specification function of the old state.
- Pure computations become functions with named results.
- Loops in the source become loops with invariants (Gun.Fire, LineSpline.GetTotalLength, InputManager.IsUsed, Shuffle).
- Floats are reals.
- Engine services are parameters or oracles. These include Physics2D.Raycast, Vector2.Angle, Mathf.Tan, Vector3.Magnitude, Time.deltaTime, XInput polling, Unity's Input class and the camera projection.
- Events become traces of emitted events.

Files and modules:

- `geometry.dfy` (Geometry): vectors and the Mathf helpers (`Sign(0) = 1`, `Clamp01`, `Lerp`).
- `wrappers.dfy` (Wrappers): `Option`.
- `character_controller.dfy` (CharacterControl): CharacterController2D.
- `damageable_object.dfy` (Damageable): DamageableObject.
- `pattern.dfy` (Patterns) and `gun.dfy` (Guns): Pattern and Gun.
- `bezier_spline.dfy` (BezierSplines), `line_spline.dfy` (LineSplines) and `move_on_spline.dfy` (SplineWalking): the splines and MoveOnSpline.
- `controller_input.dfy` (ControllerInputs): ControllerInput and XboxController.
- `input_manager.dfy` (InputManagement): InputManager.
- `player_motion.dfy` (PlayerMotion): movement arithmetic shared by both players.
- `platformer_player.dfy` (PlatformerPlayers) and `scripts_player.dfy` (ScriptsPlayers): the two players.
- `extension_methods.dfy` (Extensions): ExtentionMethods.

## Model

| member | source | states |
|---|---|---|
| CharacterControl.Shrink | Assets/Scripts/CharacterController2D.cs:61-62 | Expanding the bounds by minus twice the skin width shrinks the width and the height by exactly twice the skin width (each side moves in by one skin width) |
| CharacterControl.RaySpacing | Assets/Scripts/CharacterController2D.cs:47-56 | The horizontal rays, spaced as Start computes, span the scaled collider height less the two skins; the vertical rays span the scaled width less the two skins |
| CharacterControl.SlopeStep | Assets/Scripts/CharacterController2D.cs:138-154 | A slope at or above the limit stops horizontal motion. A walkable slope without jump intent (dy < 0.002) sets dy = abs(tan(angle)·dx) and both flags. Otherwise nothing changes; the ray log is always kept |
| CharacterControl.RealisedVelocity | Assets/Scripts/CharacterController2D.cs:79-84 | For a positive frame time the velocity times dt is the realised displacement; otherwise it is zero |
| CharacterControl.HorizontalScanClips | Assets/Scripts/CharacterController2D.cs:98-134 | Rays 1 and up keep the flags and dy. The result is no longer than the request or than the clip of any ray that hit. It is the request or the clip of a ray that hit |
| CharacterControl.HorizontalPassNeverLengthens | Assets/Scripts/CharacterController2D.cs:87-136 | The horizontal pass never lengthens dx. When ray 0 misses, dy and the flags stay and dx is at most every hit ray's clip |
| CharacterControl.LowestRayHitShortCircuits | Assets/Scripts/CharacterController2D.cs:118-124 | A hit on the lowest ray casts exactly that ray and hands the outcome to the slope handler |
| CharacterControl.HorizontalScanFlags | Assets/Scripts/CharacterController2D.cs:118-124 | In the horizontal pass the flags change only through a walkable-slope hit on ray 0 without jump intent |
| CharacterControl.HorizontalPass | Assets/Scripts/CharacterController2D.cs:87-136 | With a zero horizontal displacement the pass casts no ray and changes nothing (the guard at line 90) |
| CharacterControl.VerticalPass | Assets/Scripts/CharacterController2D.cs:156-207 | With a zero vertical displacement the pass casts no ray and changes nothing (the guard at line 159) |
| CharacterControl.Resolve | Assets/Scripts/CharacterController2D.cs:58-85 | A Move with zero displacement on both axes casts no ray, sets no flag and realises no motion |
| CharacterControl.VerticalScanFrame | Assets/Scripts/CharacterController2D.cs:156-207 | The vertical pass keeps dx and the slope flag and casts every ray in one direction. Grounded holds iff it was set already or some ray hit |
| CharacterControl.VerticalScanClips | Assets/Scripts/CharacterController2D.cs:189-203 | Outside a climb the result is no longer than any hit ray's clip. The first hit always overrides, even a longer one |
| CharacterControl.VerticalPassMostRestrictive | Assets/Scripts/CharacterController2D.cs:159-203 | If some vertical ray hits, the body is grounded and dy is the clip of a hit ray, no longer than any other hit's clip. With no hit, only the log changes |
| CharacterControl.VerticalPassKeepsClimb | Assets/Scripts/CharacterController2D.cs:163 | While climbing, the rays point down, dy stays, and grounded is set iff some ray hits |
| CharacterControl.FlagsComeFromHits | Assets/Scripts/CharacterController2D.cs:64-65 | After Move, the slope flag implies ray 0 hit a walkable slope without jump intent. Grounded implies some ray of this call hit. Neither flag survives from the previous call |
| CharacterControl.HorizontalScanNoHit | Assets/Scripts/CharacterController2D.cs:98-134 | When no horizontal ray hits, the scan from any ray on keeps the displacement and both flags; only the cast log grows |
| CharacterControl.VerticalScanNoHit | Assets/Scripts/CharacterController2D.cs:169-206 | When no vertical ray hits, the scan from any ray on keeps the displacement and both flags; only the cast log grows |
| CharacterControl.NoObstaclesMeansFreeMotion | Assets/Scripts/CharacterController2D.cs:58-85 | With nothing to hit, Move realises the full displacement, sets no flag and returns the requested velocity. The proof runs through HorizontalScanNoHit and VerticalScanNoHit |
| CharacterControl.TopRayOnShrunkTopIffUnitScale | Assets/Scripts/CharacterController2D.cs:50-51 | The top horizontal ray lies on the shrunk top edge iff the vertical scale is ±1, because Start scales the world bounds a second time |
| CharacterControl.CharacterController2D.constructor | Assets/Scripts/CharacterController2D.cs:47-56 | The ray spacing is derived from the collider size and scale; the flags start cleared |
| CharacterControl.CharacterController2D.Move | Assets/Scripts/CharacterController2D.cs:58-85 | The position moves by the resolved displacement. The flags are the resolution's. The result is the realised velocity. The skin bounds are refreshed |
| CharacterControl.CharacterController2D.HandleHorizontalMovement | Assets/Scripts/CharacterController2D.cs:87-136 | The ray loop computes the horizontal pass |
| CharacterControl.CharacterController2D.HandleUpwardSlope | Assets/Scripts/CharacterController2D.cs:138-154 | Computes the slope step |
| CharacterControl.CharacterController2D.HandleVerticalMovement | Assets/Scripts/CharacterController2D.cs:156-207 | The ray loop computes the vertical pass |
| Damageable.DeathEvents | Assets/Scripts/DamageableObject.cs:137-144 | The death event comes first. A score event follows iff the score is positive |
| Damageable.HealOutcome | Assets/Scripts/DamageableObject.cs:106-118 | A non-positive amount or full health changes nothing. Otherwise health rises by the amount, capped at the maximum, and one heal event is emitted |
| Damageable.DamageOutcome | Assets/Scripts/DamageableObject.cs:120-135 | A non-positive amount, dead object or zero maximum changes nothing. Otherwise health drops, clamped at 0, and reaches 0 iff amount ≥ health. A damage event is emitted, followed by the death events iff health reached 0 |
| Damageable.ResetOutcome | Assets/Scripts/DamageableObject.cs:80-86 | Full health and one heal event |
| Damageable.ApplyKeepsRange | Assets/Scripts/DamageableObject.cs:106-135 | Every operation keeps health in [0, MaxHealth] |
| Damageable.RunKeepsRange | Assets/Scripts/DamageableObject.cs:64-67 | From Awake's state, health stays in range along any sequence of operations |
| Damageable.DamageWhileDeadIsInert | Assets/Scripts/DamageableObject.cs:122-123 | At 0 health any sequence of damage changes nothing and emits nothing |
| Damageable.DeathOncePerDrop | Assets/Scripts/DamageableObject.cs:130-134 | Along any run, deaths ≤ heals + (1 if alive at the start) |
| Damageable.DeathEventIffKilled | Assets/Scripts/DamageableObject.cs:130-134 | A damage call emits the death event iff it takes a living object to 0 |
| Damageable.DamageableObject.constructor | Assets/Scripts/DamageableObject.cs:64-67 | Health starts at MaxHealth |
| Damageable.DamageableObject.OnGameReset | Assets/Scripts/DamageableObject.cs:80-86 | New state and events follow ResetOutcome; health stays in range |
| Damageable.DamageableObject.Heal | Assets/Scripts/DamageableObject.cs:106-118 | New state and events follow HealOutcome; health stays in range |
| Damageable.DamageableObject.Damage | Assets/Scripts/DamageableObject.cs:120-135 | New state and events follow DamageOutcome; health stays in range |
| Damageable.DamageableObject.HandleDeath | Assets/Scripts/DamageableObject.cs:137-144 | Appends the death events |
| Damageable.DamageableObject.IsAlive | Assets/Scripts/DamageableObject.cs:146-149 | In reachable states, alive iff health is not 0 (never alive for a negative maximum) |
| Patterns.IsPatternValid | Assets/Platformer/Scripts/Pattern.cs:72-83 | Valid iff some definition has a positive reload time; an empty pattern is invalid |
| Patterns.ValidityIgnoresOrder | Assets/Platformer/Scripts/Pattern.cs:74-79 | Validity depends only on the multiset of definitions |
| Patterns.ValidConcatenation | Assets/Platformer/Scripts/Pattern.cs:74-79 | A concatenation is valid iff either part is |
| Guns.SpawnOf | Assets/Platformer/Scripts/Gun.cs:79-102 | The spawned bullet carries the definition's speed, damage, move pattern, frequency, amplitude and angle |
| Guns.Rotation | Assets/Platformer/Scripts/Gun.cs:56-76 | The pattern read cyclically from the cursor is a permutation of it, and entry n is the one n steps after the cursor |
| Guns.FirstReload | Assets/Platformer/Scripts/Gun.cs:66-70 | In a valid pattern, the first reload entry exists and no earlier entry reloads |
| Guns.FireFrom | Assets/Platformer/Scripts/Gun.cs:56-76 | A volley spawns between 1 and all definitions, leaves the cursor in range and starts a positive reload |
| Guns.VolleyEndsAtFirstReload | Assets/Platformer/Scripts/Gun.cs:56-76 | A volley spawns the definitions from the cursor, cyclically, up to and including the first reload entry. It reloads with that entry's time, and the cursor ends just past it |
| Guns.SingleReloadAtEndFiresWholePattern | Assets/Platformer/Scripts/Gun.cs:56-76 | With one reload entry at the end, Fire from 0 spawns the whole pattern and returns the cursor to 0 |
| Guns.Gun.constructor | Assets/Platformer/Scripts/Gun.cs:21-25 | Start discards an invalid pattern and keeps a valid or absent one |
| Guns.Gun.Fire | Assets/Platformer/Scripts/Gun.cs:41-77 | If a guard fails (inactive, no pool, off screen, no pattern, reloading), nothing happens. Otherwise the gun spawns exactly the volley FireFrom gives, moves the cursor and starts the reload |
| Guns.Gun.SpawnPass | Assets/Platformer/Scripts/Gun.cs:58-71 | The inner loop spawns to the end of the list, stopping after the first reload entry |
| Guns.Gun.ReloadFinished | Assets/Platformer/Scripts/Gun.cs:119-123 | The reload flag clears |
| Guns.Gun.OnGameReset | Assets/Platformer/Scripts/Gun.cs:131-135 | Cursor 0 and not reloading |
| BezierSplines.BezierPoint | Assets/Scripts/Spline/BezierSpline.cs:15-25 | t ≤ 0 gives p0 and t ≥ 1 gives p3 (the parameter is clamped) |
| BezierSplines.DegenerateCurveIsPoint | Assets/Scripts/Spline/BezierSpline.cs:15-25 | The Bernstein weights sum to 1, so four equal points give that point for every t |
| BezierSplines.EnforceTarget | Assets/Scripts/Spline/BezierSpline.cs:73-115 | A point is enforced only for a non-free interior mode slot; then the middle is that slot's anchor and all indices are in range |
| BezierSplines.Enforced | Assets/Scripts/Spline/BezierSpline.cs:68-139 | Only the enforced handle changes. Mirrored reflects the fixed handle through the anchor. Aligned puts it on the anchor. With no target nothing changes |
| BezierSplines.EnforceTargetIsLocal | Assets/Scripts/Spline/BezierSpline.cs:89-115 | Under the exact shape the wrap-around fallbacks never fire: the handles are the anchor's own neighbours |
| BezierSplines.WithCurveAdded | Assets/Scripts/Spline/BezierSpline.cs:153-191 | AddCurve adds 4 points and 2 modes to an empty spline, otherwise 3 and 1 |
| BezierSplines.Moved | Assets/Scripts/Spline/BezierSpline.cs:201-239 | The moved point lands exactly where requested; modes and loop flag stay |
| BezierSplines.WithControlPoint | Assets/Scripts/Spline/BezierSpline.cs:193-241 | An out-of-range index changes nothing; sizes, modes and loop flag stay |
| BezierSplines.WithControlPointMode | Assets/Scripts/Spline/BezierSpline.cs:243-266 | An out-of-range index changes nothing; otherwise the index's mode slot takes the new mode |
| BezierSplines.WithLoop | Assets/Scripts/Spline/BezierSpline.cs:268-279 | The flag takes the value. Turning it off changes nothing else. Failure (the C# exception) happens iff turning it on with an empty list |
| BezierSplines.Cleared | Assets/Scripts/Spline/BezierSpline.cs:142-150 | Reset as intended: an empty, exactly shaped spline |
| BezierSplines.ClearedAsWritten | Assets/Scripts/Spline/BezierSpline.cs:149 | Reset as written: the points are emptied but the modes stay |
| BezierSplines.ControlPointMode | Assets/Scripts/Spline/BezierSpline.cs:293-302 | Free for an out-of-range index, else the mode of slot (i + 1) / 3, which exists |
| BezierSplines.CurveCount | Assets/Scripts/Spline/BezierSpline.cs:367-370 | 3n + 1 points hold n curves; fewer than two points hold none |
| BezierSplines.SegmentOf | Assets/Scripts/Spline/BezierSpline.cs:312-324 | The chosen curve starts at an anchor and fits in the list. t ≥ 1 selects the last curve at 1. Otherwise the curve index plus the local parameter equals clamp(t) · curve count, with the local parameter in [0, 1), so the curve is ⌊clamp(t) · curve count⌋ |
| BezierSplines.SplinePoint | Assets/Scripts/Spline/BezierSpline.cs:304-327 | Zero below four points, the first point for t ≤ 0, the last point for t ≥ 1 |
| BezierSplines.AddCurveKeepsExact | Assets/Scripts/Spline/BezierSpline.cs:168-180 | AddCurve keeps points = 3·modes − 2 |
| BezierSplines.AddCurvePlacesPoints | Assets/Scripts/Spline/BezierSpline.cs:158-183 | Without loop, old points stay and the new points lie one unit apart along x after the last point |
| BezierSplines.OperationsKeepExact | Assets/Scripts/Spline/BezierSpline.cs:153-279 | Every mutator keeps the exact shape |
| BezierSplines.EnforcedKeepsEnds | Assets/Scripts/Spline/BezierSpline.cs:79-82 | Enforcing never touches the first or last point |
| BezierSplines.ControlPointKeepsLoopClosed | Assets/Scripts/Spline/BezierSpline.cs:205-223 | In loop mode, moving any point keeps the first and last anchors equal |
| BezierSplines.ControlPointModeKeepsLoopClosed | Assets/Scripts/Spline/BezierSpline.cs:253-263 | In loop mode, changing a mode keeps the first and last slots equal |
| BezierSplines.AddCurveClosesLoop | Assets/Scripts/Spline/BezierSpline.cs:185-190 | AddCurve in loop mode closes the loop |
| BezierSplines.SetLoopClosesLoop | Assets/Scripts/Spline/BezierSpline.cs:273-278 | SetLoop keeps the loop closed, and turning it on keeps the first point |
| BezierSplines.AnchorDragsHandles | Assets/Scripts/Spline/BezierSpline.cs:202-240 | Moving an interior anchor drags its fixed handle by the same offset, and the other handle too when the mode is free. Nothing else moves |
| BezierSplines.ResetAsWrittenBreaksShape | Assets/Scripts/Spline/BezierSpline.cs:142-150 | After Reset as written and AddCurve, the stale modes leave 4 points with 5 modes. Moving the last anchor then wraps to point 1, which jumps from x = 2 to x = 6 |
| BezierSplines.ResetThenAddCurve | Assets/Scripts/Spline/BezierSpline.cs:142-191 | After the intended Reset, AddCurve yields a fresh exact one-curve spline |
| BezierSplines.BezierSpline.constructor | Assets/Scripts/Spline/BezierSpline.cs:51-66 | Empty lists, no loop, valid |
| BezierSplines.BezierSpline.EnforceMode | Assets/Scripts/Spline/BezierSpline.cs:68-139 | The new state is Enforced of the old one |
| BezierSplines.BezierSpline.Reset | Assets/Scripts/Spline/BezierSpline.cs:142-150 | The new state is Cleared (the corrected Reset) and stays valid |
| BezierSplines.BezierSpline.AddCurve | Assets/Scripts/Spline/BezierSpline.cs:153-191 | The new state is WithCurveAdded; exact shape and closed loop are kept |
| BezierSplines.BezierSpline.SetControlPoint | Assets/Scripts/Spline/BezierSpline.cs:193-241 | The new state is WithControlPoint; the shape is kept, and so is a closed loop |
| BezierSplines.BezierSpline.SetControlPointMode | Assets/Scripts/Spline/BezierSpline.cs:243-266 | The new state is WithControlPointMode; the invariant is kept |
| BezierSplines.BezierSpline.SetLoop | Assets/Scripts/Spline/BezierSpline.cs:268-279 | The state and failure flag follow WithLoop; the invariant is kept |
| BezierSplines.BezierSpline.GetControlPoint | Assets/Scripts/Spline/BezierSpline.cs:282-291 | The stored point, or zero for an out-of-range index |
| BezierSplines.BezierSpline.GetControlPointMode | Assets/Scripts/Spline/BezierSpline.cs:293-302 | Free for an out-of-range index, else the mode of slot (i + 1) / 3 |
| BezierSplines.BezierSpline.GetPoint | Assets/Scripts/Spline/BezierSpline.cs:304-327 | The spline point of the current lists before the world transform: zero below four points, the first point for t ≤ 0, the last point for t ≥ 1, and otherwise the cubic of the curve SegmentOf chooses |
| BezierSplines.BezierSpline.GetControlPointCount | Assets/Scripts/Spline/BezierSpline.cs:359-365 | On an exactly shaped, non-empty spline, 3n + 1 for n curves |
| BezierSplines.BezierSpline.GetCurveCount | Assets/Scripts/Spline/BezierSpline.cs:367-370 | On an exactly shaped, non-empty spline, one fewer than the modes, with 3n + 1 points; none below two points |
| LineSplines.LinePoint | Assets/Scripts/Spline/LineSpline.cs:9-12 | t ≤ 0 gives p0 and t ≥ 1 gives p1 (Lerp clamps) |
| LineSplines.PrefixLengthOfExtension | Assets/Scripts/Spline/LineSpline.cs:182-191 | Appending a point leaves every existing prefix length unchanged |
| LineSplines.TotalLengthOfExtension | Assets/Scripts/Spline/LineSpline.cs:182-191 | Appending a point adds exactly the new line's length to the total |
| LineSplines.PrefixLengthMonotone | Assets/Scripts/Spline/LineSpline.cs:182-191 | With non-negative magnitudes, prefix lengths are non-negative and grow |
| LineSplines.LineSpline.constructor | Assets/Scripts/Spline/LineSpline.cs:31-43 | Empty, no loop |
| LineSplines.LineSpline.Reset | Assets/Scripts/Spline/LineSpline.cs:46-54 | Empties the points |
| LineSplines.LineSpline.AddLine | Assets/Scripts/Spline/LineSpline.cs:57-82 | Adds one point one unit past the last (two on an empty spline). Old points are kept. In loop mode the last point becomes the first. Never leaves a single point |
| LineSplines.LineSpline.SetPoint | Assets/Scripts/Spline/LineSpline.cs:84-93 | An out-of-range index is ignored; otherwise only that point changes |
| LineSplines.LineSpline.SetLoop | Assets/Scripts/Spline/LineSpline.cs:95-101 | Stores the flag |
| LineSplines.LineSpline.GetControlPoint | Assets/Scripts/Spline/LineSpline.cs:104-113 | The stored point, or zero out of range |
| LineSplines.LineSpline.GetLineCount | Assets/Scripts/Spline/LineSpline.cs:172-175 | −1 for an empty spline, otherwise at least 1 |
| LineSplines.LineSpline.GetPointCount | Assets/Scripts/Spline/LineSpline.cs:164-170 | One more than the line count, and never a single point |
| LineSplines.LineSpline.GetTotalLength | Assets/Scripts/Spline/LineSpline.cs:182-191 | The loop returns the sum of all line lengths |
| LineSplines.LineSpline.GetPoint | Assets/Scripts/Spline/LineSpline.cs:115-128 | Zero below two points; the last point for t ≥ 1 |
| SplineWalking.Step | Assets/Platformer/Movement/MoveOnSpline.cs:46-76 | Progress advances by dt/duration in the direction of travel. Past 1 on a loop it restarts at 0. Past 1 without back-and-forth it stops at 1. Back-and-forth flips the direction below 0 and, off a loop, past 1 |
| SplineWalking.StepKeepsDirectionUnit | Assets/Platformer/Movement/MoveOnSpline.cs:50-73 | The direction stays ±1 |
| SplineWalking.ForwardWalkStaysOnSpline | Assets/Platformer/Movement/MoveOnSpline.cs:58-73 | Without back-and-forth, a forward walker in [0, 1] stays forward and in [0, 1] over any run of non-negative frame times |
| SplineWalking.ForwardStepNeverGoesBack | Assets/Platformer/Movement/MoveOnSpline.cs:48 | On an open spline a forward step never decreases progress |
| SplineWalking.LoopResetIsTheOnlyWayBack | Assets/Platformer/Movement/MoveOnSpline.cs:61-64 | On a loop, progress falls back only through the reset to 0 |
| SplineWalking.MoveOnSpline.constructor | Assets/Platformer/Movement/MoveOnSpline.cs:24-38 | Forward from 0, with duration · speed = total length |
| SplineWalking.MoveOnSpline.Move | Assets/Platformer/Movement/MoveOnSpline.cs:46-76 | Progress and direction follow Step, and the position is the spline point at the new progress |
| SplineWalking.MoveOnSpline.CalculateDuration | Assets/Platformer/Movement/MoveOnSpline.cs:78-81 | duration · speed = total length |
| SplineWalking.MoveOnSpline.SetSpeed | Assets/Platformer/Movement/MoveOnSpline.cs:12-20 | Stores the speed and keeps duration · speed = total length |
| SplineWalking.MoveOnSpline.OnGameReset | Assets/Platformer/Movement/MoveOnSpline.cs:83-86 | Progress back to 0, direction kept |
| ControllerInputs.ButtonHeld | Assets/Scripts/InputManager/ControllerInput.cs:191-245 | NoButton is never held; held implies the pad reports the button pressed |
| ControllerInputs.ButtonDown | Assets/Scripts/InputManager/ControllerInput.cs:247-316 | Down iff held now and not on the previous frame |
| ControllerInputs.ButtonUp | Assets/Scripts/InputManager/ControllerInput.cs:318-387 | Up iff released now after being held, and never on the same frame as a down |
| ControllerInputs.AxisValue | Assets/Scripts/InputManager/ControllerInput.cs:164-189 | NoAxis reads 0; each code reads its own analogue value |
| ControllerInputs.EdgesBalance | Assets/Scripts/InputManager/ControllerInput.cs:247-387 | Over any poll history, downs − ups equals the change in held state, so it is within [−1, 1] |
| ControllerInputs.Vibrate | Assets/Scripts/InputManager/ControllerInput.cs:389-396 | A non-positive time is ignored; otherwise the motors and timer are set. The quiet invariant is preserved |
| ControllerInputs.RumbleTickAsWritten | Assets/Scripts/InputManager/ControllerInput.cs:150-162 | The timer stays non-negative, but the motors never change |
| ControllerInputs.RumbleTick | Assets/Scripts/InputManager/ControllerInput.cs:150-162 | Corrected tick: counts down while time remains and stops the motors once it runs out; always quiet afterwards |
| ControllerInputs.RumbleAsWrittenNeverStops | Assets/Scripts/InputManager/ControllerInput.cs:157-160 | A 0.5 s rumble followed by a 1 s frame leaves both motors at 1 forever as written; the corrected tick stops them |
| ControllerInputs.StoppedStaysStopped | Assets/Scripts/InputManager/ControllerInput.cs:150-162 | Stopped motors stay stopped under any frames |
| ControllerInputs.ExpiredRumbleStops | Assets/Scripts/InputManager/ControllerInput.cs:150-162 | Once frames totalling the remaining time have passed, the motors are stopped |
| ControllerInputs.XboxController.constructor | Assets/Scripts/InputManager/ControllerInput.cs:119-140 | Both pad states start as the input library's default state (a parameter), rumble stopped, given index |
| ControllerInputs.XboxController.UpdateState | Assets/Scripts/InputManager/ControllerInput.cs:142-148 | Previous takes the old current, current takes the poll, and the rumble ticks (corrected) |
| ControllerInputs.XboxController.UpdateRumbleAsWritten | Assets/Scripts/InputManager/ControllerInput.cs:150-162 | The rumble follows RumbleTickAsWritten |
| ControllerInputs.XboxController.UpdateRumble | Assets/Scripts/InputManager/ControllerInput.cs:150-162 | The rumble follows RumbleTick |
| ControllerInputs.XboxController.SetVibration | Assets/Scripts/InputManager/ControllerInput.cs:389-396 | The rumble follows Vibrate |
| ControllerInputs.XboxController.GetAxis | Assets/Scripts/InputManager/ControllerInput.cs:164-189 | The current pad's axis value |
| ControllerInputs.XboxController.GetButton | Assets/Scripts/InputManager/ControllerInput.cs:191-245 | Held on the current pad |
| ControllerInputs.XboxController.GetButtonDown | Assets/Scripts/InputManager/ControllerInput.cs:247-316 | Down between previous and current |
| ControllerInputs.XboxController.GetButtonUp | Assets/Scripts/InputManager/ControllerInput.cs:318-387 | Up between previous and current |
| ControllerInputs.XboxController.IsConnected | Assets/Scripts/InputManager/ControllerInput.cs:398-401 | The current pad's connection flag |
| ControllerInputs.ControllerInput.constructor | Assets/Scripts/InputManager/ControllerInput.cs:36-41 | Not initialised; four empty slots; records the library's default pad state |
| ControllerInputs.ControllerInput.Initialize | Assets/Scripts/InputManager/ControllerInput.cs:43-54 | Four fresh controllers with indices 0..3, each polled once: previous is the library's default state, current the first poll |
| ControllerInputs.ControllerInput.PollAll | Assets/Scripts/InputManager/ControllerInput.cs:65-74 | Succeeds iff the controllers are live. Each controller then polls its own pad |
| ControllerInputs.ControllerInput.UpdateState | Assets/Scripts/InputManager/ControllerInput.cs:65-74 | Initialises on first use, and on that call previous and current both equal this frame's poll. Once initialised, it succeeds iff the controllers were live; each controller then shifts its pad state and its rumble follows RumbleTick. After DeInitialize it fails |
| ControllerInputs.ControllerInput.EnsureInitialized | Assets/Scripts/InputManager/ControllerInput.cs:76-106 | Initialises once, leaving each controller's previous state the library default and its current state the first poll; later calls change nothing |
| ControllerInputs.ControllerInput.Controller | Assets/Scripts/InputManager/ControllerInput.cs:76-106 | Present iff the index is within the array and the slot is not null |
| ControllerInputs.ControllerInput.GetAxis | Assets/Scripts/InputManager/ControllerInput.cs:76-82 | Some iff index in 0..3 and live; then the controller's axis value. An initialised facade keeps its controllers |
| ControllerInputs.ControllerInput.GetButton | Assets/Scripts/InputManager/ControllerInput.cs:84-90 | Some iff index in 0..3 and live; then held. An initialised facade keeps its controllers |
| ControllerInputs.ControllerInput.GetButtonDown | Assets/Scripts/InputManager/ControllerInput.cs:92-98 | Some iff index in 0..3 and live; then down. An initialised facade keeps its controllers; on a call that initialises, down compares the first poll with the library default |
| ControllerInputs.ControllerInput.GetButtonUp | Assets/Scripts/InputManager/ControllerInput.cs:100-106 | Some iff index in 0..3 and live; then up. An initialised facade keeps its controllers; on a call that initialises, up compares the first poll with the library default |
| ControllerInputs.ControllerInput.SetVibration | Assets/Scripts/InputManager/ControllerInput.cs:108-111 | Succeeds iff index in 0..3 and live, without initialising. Only that controller's rumble changes; no pad state or index changes, and a failed call changes no rumble |
| ControllerInputs.ControllerInput.IsConnected | Assets/Scripts/InputManager/ControllerInput.cs:113-116 | Some iff index in 0..3 and live; then the connection flag |
| ControllerInputs.ControllerInput.DeInitialize | Assets/Scripts/InputManager/ControllerInput.cs:56-63 | Drops every controller and keeps the initialised flag |
| InputManagement.KeyQuery | Assets/Scripts/InputManager/InputManager.cs:210-237 | NoState is false. Pressed is the key held; Released is its negation. The keyboard always answers |
| InputManagement.PadQuery | Assets/Scripts/InputManager/InputManager.cs:240-252 | The same for the controller button, where a facade query that throws gives None. NoState makes no facade call and is false |
| InputManagement.ResolveButton | Assets/Scripts/InputManager/InputManager.cs:202-259 | The keyboard wins only when it says yes; otherwise the pad's answer or failure (false when unbound). NoState is never pressed. A failure needs a bound pad button and a keyboard that did not say yes |
| InputManagement.OutOfRangePadButtonFails | Assets/Scripts/InputManager/ControllerInput.cs:84-106 | A button bound to a controller outside 0..3 fails iff the keyboard does not say yes, since every facade button query there throws |
| InputManagement.PairValue | Assets/Scripts/InputManager/InputManager.cs:270-286 | A value in {−1, 0, 1}: 0 iff both inputs agree, 1 iff only the positive one |
| InputManagement.ResolveAxis | Assets/Scripts/InputManager/InputManager.cs:261-299 | Key pair first, then button pair, each only when fully bound and non-cancelling; then the analogue axis. A failing facade query ends the search with None, which needs a bound pad input |
| InputManagement.ButtonPairValue | Assets/Scripts/InputManager/InputManager.cs:279-286 | The pad pair succeeds iff both facade queries do, and is then the pair value of the two held states |
| InputManagement.OutOfRangePadAxisFails | Assets/Scripts/InputManager/ControllerInput.cs:76-90 | An axis read from a controller outside 0..3 fails iff the key pair does not answer and a pad input is bound |
| InputManagement.WithKeyButton | Assets/Scripts/InputManager/InputManager.cs:135-146 | Binds the key and state. Other names are unchanged. An existing pad binding is kept; a new entry has controller 0 and no button |
| InputManagement.WithPadButton | Assets/Scripts/InputManager/InputManager.cs:148-160 | Binds the button and state. An existing entry gets the index; a new one gets controller 0 whatever the argument |
| InputManagement.WithKeyAxis | Assets/Scripts/InputManager/InputManager.cs:162-173 | Sets the key pair and keeps everything else |
| InputManagement.WithButtonAxis | Assets/Scripts/InputManager/InputManager.cs:175-187 | Sets the index and button pair (a new entry has controller 0) |
| InputManagement.WithPadAxis | Assets/Scripts/InputManager/InputManager.cs:189-200 | Sets the index and axis code (a new entry has controller 0) |
| InputManagement.NewKeyButtonAnswersFromKeyboard | Assets/Scripts/InputManager/InputManager.cs:135-146 | A freshly key-bound button answers exactly the key query |
| InputManagement.PadRebindKeepsKeyboard | Assets/Scripts/InputManager/InputManager.cs:148-160 | Rebinding the pad side keeps a firing key firing |
| InputManagement.KeyAxisRebindKeepsPadAnswer | Assets/Scripts/InputManager/InputManager.cs:162-173 | While neither the old nor the new key pair answers, re-binding the keys leaves the axis's answer unchanged |
| InputManagement.ButtonAxisRebindKeepsKeyAnswer | Assets/Scripts/InputManager/InputManager.cs:175-187 | Re-binding the button pair keeps an answering key pair's answer |
| InputManagement.InputManager.constructor | Assets/Scripts/InputManager/InputManager.cs:116-121 | Both tables empty |
| InputManagement.InputManager.OnDestroy | Assets/Scripts/InputManager/InputManager.cs:123-127 | Both tables emptied |
| InputManagement.InputManager.BindButtonToKey | Assets/Scripts/InputManager/InputManager.cs:135-146 | The button table becomes WithKeyButton |
| InputManagement.InputManager.BindButtonToPad | Assets/Scripts/InputManager/InputManager.cs:148-160 | The button table becomes WithPadButton |
| InputManagement.InputManager.BindAxisToKeys | Assets/Scripts/InputManager/InputManager.cs:162-173 | The axis table becomes WithKeyAxis |
| InputManagement.InputManager.BindAxisToButtons | Assets/Scripts/InputManager/InputManager.cs:175-187 | The axis table becomes WithButtonAxis |
| InputManagement.InputManager.BindAxisToPadAxis | Assets/Scripts/InputManager/InputManager.cs:189-200 | The axis table becomes WithPadAxis |
| InputManagement.InputManager.GetButton | Assets/Scripts/InputManager/InputManager.cs:202-259 | An unknown name is never pressed; a known one resolves its binding, failure included |
| InputManagement.InputManager.GetAxis | Assets/Scripts/InputManager/InputManager.cs:261-299 | An unknown name reads 0; a known one resolves its binding, failure included |
| InputManagement.InputManager.IsKeyUsed | Assets/Scripts/InputManager/InputManager.cs:301-310 | True iff some button binding uses the key |
| InputManagement.InputManager.IsButtonUsed | Assets/Scripts/InputManager/InputManager.cs:312-321 | True iff some button binding uses the pad button |
| PlayerMotion.Horizontal | Assets/Platformer/Scripts/Player.cs:248-262 | With input, dx = vx + h·a. Without input, friction pulls toward 0: never faster, never past 0 |
| PlayerMotion.CapDelta | Assets/Platformer/Scripts/Player.cs:155-160 | The horizontal step is capped at the run speed, signed by the previous velocity. The fall is floored at −maxFall. Steps within the limits pass unchanged |
| PlayerMotion.CapFollowsPreviousDirection | Assets/Platformer/Scripts/Player.cs:156-157 | A capped step points the way of the previous velocity, even on a hard reversal |
| PlayerMotion.JumpBoost | Assets/Platformer/Scripts/Player.cs:334-335 | Full acceleration at t = 0, none at the maximum time, never negative |
| PlayerMotion.BoostFades | Assets/Platformer/Scripts/Player.cs:334-335 | Over [0, max], the boost decreases with time and never exceeds the acceleration |
| PlatformerPlayers.StateDelta | Assets/Platformer/Scripts/Player.cs:244-404 | The step of each state: horizontal motion. Walking off ground gives dy 0. Sticking to ground gives dy − 11g. A held jump gives dy − g + boost. Otherwise dy − g |
| PlatformerPlayers.NextState | Assets/Platformer/Scripts/Player.cs:264-398 | Jump is reached only by a grounded jump press from Walk or a held jump within the maximum time. Walk needs the ground. Fall is reached by leaving the ground outside Jump, or by releasing or timing out a jump |
| PlatformerPlayers.NextJumpTime | Assets/Platformer/Scripts/Player.cs:292-346 | A jump from the ground starts the timer at 0. The timer changes only then or while a jump is held, and a held jump advances it by the frame time |
| PlatformerPlayers.JumpOnlyFromGround | Assets/Platformer/Scripts/Player.cs:264-271 | Jump is entered only from Walk, on the ground, on a jump press, with the timer at 0 |
| PlatformerPlayers.JumpTimeBounded | Assets/Platformer/Scripts/Player.cs:337-341 | While jumping, the timer stays within [0, MaxJumpTime] |
| PlatformerPlayers.WalkingOffALedgeFalls | Assets/Platformer/Scripts/Player.cs:278-283 | Leaving the ground while walking switches to Fall with no vertical step |
| PlatformerPlayers.PlatformerPlayer.constructor | Assets/Platformer/Scripts/Player.cs:133-141 | The player starts in Fall |
| PlatformerPlayers.PlatformerPlayer.SetState | Assets/Platformer/Scripts/Player.cs:210-217 | Switches state; entering Jump resets the timer |
| PlatformerPlayers.PlatformerPlayer.WalkUpdate | Assets/Platformer/Scripts/Player.cs:244-289 | Walk's step, transition and firing flag |
| PlatformerPlayers.PlatformerPlayer.JumpUpdate | Assets/Platformer/Scripts/Player.cs:312-352 | Jump's step, timer, transition and firing flag |
| PlatformerPlayers.PlatformerPlayer.FallUpdate | Assets/Platformer/Scripts/Player.cs:373-404 | Fall's step, transition and firing flag |
| PlatformerPlayers.PlatformerPlayer.UpdateMovement | Assets/Platformer/Scripts/Player.cs:151-164 | The applied step is the state's step, capped. The new velocity is the controller's answer to it. State and timer advance; the timer stays bounded |
| PlatformerPlayers.PlatformerPlayer.UpdateRotation | Assets/Platformer/Scripts/Player.cs:193-208 | Faces left (yaw 180) when moving left and right (0) when moving right; unchanged when still |
| PlatformerPlayers.PlatformerPlayer.Update | Assets/Platformer/Scripts/Player.cs:143-149 | Movement then rotation: state, velocity, timer and firing flag advance as in UpdateMovement; yaw is 180 when moving left, 0 when moving right and unchanged when still |
| ScriptsPlayers.StateDelta | Assets/Scripts/Player.cs:194-342 | As in the platformer, except that walking off ground keeps dy − g |
| ScriptsPlayers.NextState | Assets/Scripts/Player.cs:212-336 | Jump is reached only by a grounded jump press from Walk or a held jump within the maximum time. Walk is kept unless jumping, and entered from Fall on the ground. Fall is reached only from Fall in the air or from a released or timed-out jump |
| ScriptsPlayers.NextJumpTime | Assets/Scripts/Player.cs:234-286 | A jump from the ground starts the timer at 0. The timer changes only then or while a jump is held, and a held jump advances it by the frame time |
| ScriptsPlayers.JumpOnlyFromGround | Assets/Scripts/Player.cs:212-225 | Jump is entered only from Walk, on the ground, on a jump press, with the timer at 0 |
| ScriptsPlayers.JumpTimeBounded | Assets/Scripts/Player.cs:277-281 | While jumping, the timer stays within [0, MaxJumpTime] |
| ScriptsPlayers.FallOnlyFromJump | Assets/Scripts/Player.cs:272-286 | Fall is entered only from Jump, on release or timeout; walking off a ledge stays in Walk |
| ScriptsPlayers.Player.constructor | Assets/Scripts/Player.cs:85-110 | The player starts in Fall |
| ScriptsPlayers.Player.SetState | Assets/Scripts/Player.cs:158-167 | Switches state; entering Jump resets the timer |
| ScriptsPlayers.Player.WalkUpdate | Assets/Scripts/Player.cs:194-231 | Walk's step, transition and firing flag |
| ScriptsPlayers.Player.JumpUpdate | Assets/Scripts/Player.cs:254-292 | Jump's step, timer, transition and firing flag |
| ScriptsPlayers.Player.FallUpdate | Assets/Scripts/Player.cs:313-342 | Fall's step, transition and firing flag |
| ScriptsPlayers.Player.UpdateMovement | Assets/Scripts/Player.cs:119-132 | The capped state step goes through the controller; state and timer advance |
| ScriptsPlayers.Player.UpdateScale | Assets/Scripts/Player.cs:150-156 | x scale −1 when moving left and 1 when moving right; unchanged when still |
| ScriptsPlayers.Player.Update | Assets/Scripts/Player.cs:112-117 | Movement then scale: state, velocity, timer and firing flag advance as in UpdateMovement; the x scale is −1 when moving left, 1 when moving right and unchanged when still |
| Extensions.Swap | Assets/Scripts/ExtentionMethods.cs:17-19 | Exchanges two positions, leaves the others alone, keeps the multiset |
| Extensions.ShuffleIsPermutation | Assets/Scripts/ExtentionMethods.cs:8-22 | The shuffle is a permutation |
| Extensions.ShuffleKeepsSuffix | Assets/Scripts/ExtentionMethods.cs:13-21 | Positions already filled are never touched again |
| Extensions.Shuffle | Assets/Scripts/ExtentionMethods.cs:8-22 | The array becomes the Fisher-Yates result for the given random picks. It is a permutation of the old contents, and a list of fewer than two elements is unchanged |
| Extensions.CopyVec2 | Assets/Scripts/ExtentionMethods.cs:24-27 | The copy equals the original |
| Extensions.CopyVec3 | Assets/Scripts/ExtentionMethods.cs:29-32 | The copy equals the original |
| Extensions.CopyQuaternion | Assets/Scripts/ExtentionMethods.cs:34-37 | The copy equals the original |

## Left out

- Floating point: all arithmetic is on reals. Rounding, NaN, infinities and division by zero are not modelled. Where the source divides, the model requires a non-zero divisor: MoveOnSpline's speed and duration, and MaxJumpTime (> 0 for the players).
- Engine services are parameters or oracles, not modelled:
  - Physics2D.Raycast, Vector2.Angle and Mathf.Tan in the character controller;
  - Vector3.Magnitude in LineSpline;
  - Time.deltaTime;
  - the camera's viewport projection and the bullet pool in Gun;
  - XInput polling in ControllerInput;
  - Unity's Input class and the ControllerInput facade in InputManager. The facade's answers are options, so its failures (index outside 0..3, or after DeInitialize) reach InputManager's queries. Which answer the facade gives is not linked to the ControllerInputs model.
- Transform effects are not modelled:
  - CharacterController2D moves a position in the model; transform.Translate is not modelled.
  - BezierSpline.GetPoint and LineSpline.GetPoint return local coordinates; transform.TransformPoint is not modelled.
- Debug.DrawRay, Debug.Log and the editor inspectors are left out.
- Events and their subscription to GlobalGameManager.GameResetEvent are left out; emitted events are recorded as traces.
- LineSplines.LineSpline.GetPoint: the length-proportional segment search for t < 1 is a float loop that is not modelled, and that case returns None.
- BezierSpline.GetFirstDerivative, GetVelocity, GetDirection and GetTotalLength are left out. They are not used by the operations modelled.
- BezierSplines.Enforced: for Aligned mode the source normalises a zero vector. Unity returns zero for that, so the handle lands on the anchor, and that is what is modelled. Vector3.normalized is otherwise not modelled.
- Gun: the bullet pool, InitializeBullet's component wiring (sprite, tag), the fire effect and the reload coroutine's timing are left out. ReloadFinished stands for the coroutine's end.
- Players:
  - UpdateShooting, UpdateAnimations and InitializeControls are left out. The InputManager answers arrive as the PlayerInput parameter.
  - The controller's Move is the parameter `move`.
  - `grounded` is the controller's flag from the previous frame.
- ControllerInput is a static class with lazy initialisation in the source; here it is one object.
- InputManager's command classes are values in its two maps, since they are never shared. Its singleton base class and per-frame Update (which polls ControllerInput) are left out.
- DamageableObject.OnTriggerEnter2D: tag filtering and the damage-dealer lookup are engine plumbing and are left out. Damage is called directly.
- Shuffle's random numbers are the parameter `picks`. System.Random is not modelled.
- C# int overflow is not modelled: health and cursor arithmetic are unbounded integers. Heal's `m_Health += health` (DamageableObject.cs:111) can wrap past the cap check in C#, so the range kept by Damageable.ApplyKeepsRange and Damageable.RunKeepsRange holds for the unbounded model only.

## Findings

| source | as written | input that shows it | evidently intended | confidence | as-written member | corrected member |
|---|---|---|---|---|---|---|
| Assets/Scripts/InputManager/ControllerInput.cs:150-162 | UpdateRumble stops the motors with SetVibration(0, 0, 0), but SetVibration (lines 389-396) ignores any time ≤ 0, so the motors are never stopped | SetVibration(1, 1, 0.5), then a 1-second frame: the timer is 0 and both motors stay at 1 | The motors stop when the rumble time runs out | not executed | ControllerInputs.RumbleAsWrittenNeverStops (on ControllerInputs.RumbleTickAsWritten) | ControllerInputs.RumbleTick, with ControllerInputs.ExpiredRumbleStops |
| Assets/Scripts/Spline/BezierSpline.cs:142-150 | Reset clears the point list but not the mode list, so points = 3·modes − 2 no longer holds after the next AddCurve | A two-curve spline with a mirrored middle anchor: Reset, AddCurve, then move point 3. EnforceMode wraps to point 1, which jumps from x = 2 to x = 6 | Reset empties both lists | not executed | BezierSplines.ResetAsWrittenBreaksShape (on BezierSplines.ClearedAsWritten) | BezierSplines.Cleared, used by BezierSplines.BezierSpline.Reset, with BezierSplines.ResetThenAddCurve |
