# SimpleWings core, modelled in Dafny

SimpleWings is a Unity flight add-on. This project models three of its
components, with the Unity engine calls they make passed in as parameters:

- **Wing curves** (`Curves`, file `wing_curves.dfy`). A wing asset holds a lift
  curve and a drag curve over the angle of attack. Each curve is cached as a
  181-sample table, one sample per integer degree from 0 to 180. A lookup
  truncates the angle to a table index, clamps out-of-table indices to the
  first or last sample, and otherwise interpolates linearly between the
  sample at the index and the next one. A missing table is built lazily on
  the first lookup. Replacing the lift curve rebuilds both tables.
- **Control surface actuator** (`Control`, file `control_surface.dfy`). Each
  physics step turns the normalized deflection request into a target angle,
  scaling the `max` limit for a positive request and the `min` limit
  otherwise. At speed it limits that angle by the torque the surface can
  exert against the air. It then moves the stored angle toward the target
  by at most `moveSpeed * fixedDeltaTime` and rotates the transform by the
  change.
- **Demo airplane controller** (`Demo`, file `airplane.dfy`). Each frame it
  routes the pitch, roll and yaw axes to the control surfaces that are
  present. It integrates the two throttle axes into a throttle level in
  [0,1] for the engine. On a fire press it fires every weapon once, in
  order.

The Unity helpers the code relies on are in `Mathf` (file `mathf.dfy`):

- `Mathf.Clamp`, `Clamp01`, `Lerp` (its weight is clamped to [0,1]) and
  `MoveTowards`.
- The C# `(int)` conversion, which truncates toward zero.

Each helper follows the engine's own branch order. Floats are modelled as
`real`. Engine services are parameters of the model:

- `AnimationCurve.Evaluate` is a curve `real -> real`.
- `Mathf.Asin(x) * Mathf.Rad2Deg` is a function `asinDeg`. The properties
  that need its shape assume only that a ratio in (0,1) gives an angle in
  (0,90).
- The rigidbody's squared speed, the frame times and the input axes are
  method arguments.
- `Rigidbody.GetPointVelocity` at a weapon mount is a function argument.

Mutable state stays mutable:

- `WingCurves` is a class with nullable `array` caches, filled by a loop.
- `ControlSurface` is a class whose `FixedUpdate` updates `angle`.
- `Airplane` is a class whose `Update` writes its own `throttle`, the
  surfaces' `targetDeflection` and the engine's `throttle`.

## Model

| member | source | states |
|---|---|---|
| Mathf.TruncToInt | Assets/SimpleWings/Scripts/Wing/WingCurves.cs:65 | the index is the angle truncated toward zero: for a non-negative angle `i <= aoa < i + 1`, for a negative one `i - 1 < aoa <= i <= 0` |
| Mathf.Clamp | Assets/SimpleWings/Scripts/Wing/ControlSurface.cs:61 | with `lo <= hi` the result is in `[lo, hi]`; a value already inside is returned unchanged; the result is always the value or one of the bounds |
| Mathf.ClampIsNearest | Assets/SimpleWings/Scripts/Wing/ControlSurface.cs:61 | the clamped value is at least as close to the input as any point of the interval |
| Mathf.Clamp01 | Assets/SimpleWings/Demo/Scripts/Airplane.cs:82 | the result is in [0,1], is the identity on [0,1], and agrees with `Clamp(value, 0, 1)` |
| Mathf.Lerp | Assets/SimpleWings/Scripts/Wing/WingCurves.cs:68 | the interpolant lies between the two endpoints for any weight; a weight at most 0 gives the first endpoint and one at least 1 the second |
| Mathf.LerpMonotoneInWeight | Assets/SimpleWings/Scripts/Wing/WingCurves.cs:68 | for `a <= b`, a larger weight never gives a smaller interpolant |
| Mathf.MoveTowards | Assets/SimpleWings/Scripts/Wing/ControlSurface.cs:67 | Unity's step toward a target, in the engine's branch order; it carries no contract of its own, and its properties are stated by the `Mathf.MoveTowardsStep`, `Control.ReachesTarget` and `Control.Converges` rows |
| Mathf.MoveTowardsStep | Assets/SimpleWings/Scripts/Wing/ControlSurface.cs:67 | with a non-negative budget a step moves by at most the budget and never past the target; it lands on the target when the target is within the budget; otherwise it shortens the distance by exactly the budget |
| Curves.Table | Assets/SimpleWings/Scripts/Wing/WingCurves.cs:48-55 | a table has 181 samples, and sample `i` is the curve at `i` degrees |
| Curves.Lookup | Assets/SimpleWings/Scripts/Wing/WingCurves.cs:65-68 | an angle at most 0 reads sample 0, including angles in (-1,0); an angle at least 180 reads sample 180; an angle in [0,180) truncates to an index `i` in [0,180) and gives a value between samples `i` and `i+1` |
| Curves.LookupAtInteger | Assets/SimpleWings/Scripts/Wing/WingCurves.cs:65-68 | at an integer angle `k` in [0,180] the lookup returns exactly sample `k` |
| Curves.LookupInSegment | Assets/SimpleWings/Scripts/Wing/WingCurves.cs:65-68 | in a non-decreasing table the lookup lies between the first and last samples, and between the two samples of its segment |
| Curves.LookupMonotone | Assets/SimpleWings/Scripts/Wing/WingCurves.cs:62-69 | over a non-decreasing table, `a <= b` implies `lookup(a) <= lookup(b)` |
| Curves.TableMonotone | Assets/SimpleWings/Scripts/Wing/WingCurves.cs:51-55 | sampling a curve that never decreases on [0,180] gives a non-decreasing table |
| Curves.CurveLookupMonotone | Assets/SimpleWings/Scripts/Wing/WingCurves.cs:62-69 | for a curve that never decreases on [0,180], the coefficient lookup never decreases in the angle |
| Curves.WingCurves.constructor | Assets/SimpleWings/Scripts/Wing/WingCurves.cs:17-34 | a loaded asset holds its two curves, and neither cache is built yet |
| Curves.WingCurves.UpdateCaches | Assets/SimpleWings/Scripts/Wing/WingCurves.cs:46-56 | both caches are fresh 181-element arrays equal to the tables of the unchanged lift and drag curves |
| Curves.WingCurves.GetLiftAtAOA | Assets/SimpleWings/Scripts/Wing/WingCurves.cs:62-69 | the result is the lookup in the lift curve's table, whether or not the cache existed; an existing cache is reused, and both caches are left as they were; a missing lift cache rebuilds both caches into new arrays holding the lift and drag tables; the curves are unchanged |
| Curves.WingCurves.GetDragAtAOA | Assets/SimpleWings/Scripts/Wing/WingCurves.cs:75-82 | the result is the lookup in the drag curve's table; an existing drag cache leaves both caches as they were; a missing one rebuilds both caches into new arrays holding the lift and drag tables; the curves are unchanged |
| Curves.WingCurves.SetLiftCurve | Assets/SimpleWings/Scripts/Wing/WingCurves.cs:87-91 | the lift curve becomes the new one; both caches are new arrays, the lift cache holding the new table and the drag cache the table of the unchanged drag curve; the drag samples are the same as before when a drag cache already existed |
| Control.TargetAngle | Assets/SimpleWings/Scripts/Wing/ControlSurface.cs:47 | a zero request gives 0, a full positive request gives `max` and a full negative request gives `-min`; the target keeps the request's sign; a request in [-1,1] with non-negative limits gives a target in `[-min, max]` |
| Control.RatioBounds | Assets/SimpleWings/Scripts/Wing/ControlSurface.cs:54-58 | with a positive demand, a budget at least the demand gives a ratio of at least 1, a budget at most minus the demand a ratio of at most -1, and a positive budget below the demand a ratio in (0,1) |
| Control.StiffenedTarget | Assets/SimpleWings/Scripts/Wing/ControlSurface.cs:50-63 | without a rigidbody, without a reference wing, or with a squared speed of at most 1, the target is left unchanged |
| Control.ClampByTorque | Assets/SimpleWings/Scripts/Wing/ControlSurface.cs:53-62 | a zero demand leaves the target unclamped; otherwise the result is the target or one of plus or minus `asin(ratio)` degrees; when it clamps and when it does not is stated by the `Control.ClampByTorqueEnough`, `Control.ClampByTorqueLimit` and `Control.ClampByTorqueInRange` rows |
| Control.ClampByTorqueEnough | Assets/SimpleWings/Scripts/Wing/ControlSurface.cs:53-58 | when the torque budget is at least the positive demand in magnitude (ratio at least 1 or at most -1) the target is not clamped |
| Control.ClampByTorqueLimit | Assets/SimpleWings/Scripts/Wing/ControlSurface.cs:53-62 | when a positive budget falls short of the demand, the result is within plus or minus `asin(ratio)` degrees; it equals the target when the target is already within; it keeps the target's sign and never grows in magnitude |
| Control.ClampByTorqueInRange | Assets/SimpleWings/Scripts/Wing/ControlSurface.cs:53-62 | under an arcsine with the (0,90) shape, a clamped target stays in any interval around neutral that held it, and strictly within 90 degrees |
| Control.StiffenedIsClamp | Assets/SimpleWings/Scripts/Wing/ControlSurface.cs:51-53 | when stiffening applies with a positive wing area the demand `sqrSpeed * wingArea` is positive and the target goes through the torque clamp |
| Control.StiffenedTargetInRange | Assets/SimpleWings/Scripts/Wing/ControlSurface.cs:49-63 | with a positive torque budget and wing area, stiffening never moves a target out of an interval around neutral |
| Control.CommandedAngle | Assets/SimpleWings/Scripts/Wing/ControlSurface.cs:47-63 | the angle a step heads for is the target angle of the request, stiffened; without stiffening it is the target angle itself; its range is stated by the `Control.CommandedAngleInRange` row |
| Control.CommandedAngleInRange | Assets/SimpleWings/Scripts/Wing/ControlSurface.cs:47-63 | a request in [-1,1] with non-negative limits heads for an angle in `[-min, max]` after stiffening |
| Control.Iterate | Assets/SimpleWings/Scripts/Wing/ControlSurface.cs:67 | repeated ticks toward a fixed target with a fixed budget; with a non-negative budget the distance to the target never grows; reaching the target is stated by the `Control.ReachesTarget` and `Control.Converges` rows |
| Control.ReachesTarget | Assets/SimpleWings/Scripts/Wing/ControlSurface.cs:67 | if `steps * maxDelta` covers the distance, repeated steps toward a fixed target end exactly on it |
| Control.StepsToTarget | Assets/SimpleWings/Scripts/Wing/ControlSurface.cs:67 | a number of steps whose total budget covers the distance to the target |
| Control.Converges | Assets/SimpleWings/Scripts/Wing/ControlSurface.cs:67 | with a positive step the surface is on a fixed target after `StepsToTarget` steps and at every later step |
| Control.ControlSurface.constructor | Assets/SimpleWings/Scripts/Wing/ControlSurface.cs:12-42 | the inspector defaults are max 15, min 15, moveSpeed 90, deflection 0 and maxTorque 6000; the angle and applied rotation start at 0; a rigidbody is used only when a reference wing is set |
| Control.ControlSurface.FixedUpdate | Assets/SimpleWings/Scripts/Wing/ControlSurface.cs:44-71 | the new angle is a `MoveTowards` step from the old one toward the stiffened target angle, with budget `moveSpeed * fixedDeltaTime`; the rotation applied is the change in angle; the total rotation applied stays equal to the angle |
| Demo.FireWeapons | Assets/SimpleWings/Demo/Scripts/Airplane.cs:87-96 | on a fire press every weapon is fired exactly once, in array order, with the velocity of its mount point; without a press nothing is fired |
| Demo.Airplane.constructor | Assets/SimpleWings/Demo/Scripts/Airplane.cs:11-22 | the throttle starts at 1 and the component wiring is as given |
| Demo.Airplane.Update | Assets/SimpleWings/Demo/Scripts/Airplane.cs:55-97 | the routing, throttle and weapon results below hold together, and the throttle stays in [0,1] |
| Demo.Airplane.RouteControls | Assets/SimpleWings/Demo/Scripts/Airplane.cs:57-75 | the elevator gets the negated vertical axis, the left aileron the negated horizontal axis, the right aileron the horizontal axis, and the rudder the yaw axis only when yaw is defined; a surface wired into two slots keeps the later command; an unwritten rudder keeps its deflection; separate ailerons get opposite commands |
| Demo.Airplane.UpdateThrottle | Assets/SimpleWings/Demo/Scripts/Airplane.cs:77-85 | with an engine, the throttle becomes `Clamp01(old + fire1*dt - fire2*dt)` and the engine gets the same value; without one, the throttle is unchanged; the throttle stays in [0,1] |

## Left out

- GearVisuals, `Airplane.CalculatePitchG` and `OnGUI` are not modelled. They copy wheel poses, compute a display-only G-load, and draw text.
- The `Start`/`Awake` lifecycle code is not modelled:
  - The missing-component warnings only log.
  - The probe for a "Yaw" input axis is the `yawDefined` argument of the `Airplane` constructor.
  - `GetComponent`/`GetComponentInParent` are the constructors' wiring arguments.
- `OnEnable`/`OnValidate` only call `UpdateCaches`, which is modelled.
- The curve editor's keyframes and their evaluation are engine code. `SetLiftCurve` therefore takes the new curve as a function, not an array of keys.
- Floats are modelled as `real`:
  - Rounding, infinities, NaN and `(int)` of out-of-range or NaN values are not modelled.
  - A zero torque demand stands for the float division that yields an infinity or NaN, which the `(-1, 1)` test rejects, so nothing is clamped.
- Control.StiffenedTargetInRange: the range properties of stiffening are stated only for a positive torque budget and a positive wing area. With a negative budget the limit becomes negative, and `Mathf.Clamp` with `lo > hi` returns a bound outside the interval. `ClampByTorque` and `Clamp` model that case as the code does, but no property is stated about it.
- A torque ratio of at most -1 falls through without a clamp, the same as a ratio of at least 1. This is modelled as the code does, and it is not treated as a defect.
- Null entries of the weapon array, a null weapon array and a missing airplane rigidbody are not modelled: the weapons are a sequence of non-null droppers.
- `WeaponDropper.Fire` is not modelled. The weapon loop returns the list of calls it makes, each with its dropper and the mount velocity.
- `transform.Rotate` is modelled as the accumulated rotation angle about the surface's local x axis, not as a quaternion.
