/** A control surface actuator: each physics step it turns a normalized
    deflection request into a target angle, limits that angle by the torque
    the surface can exert against the airflow, and moves its current angle
    toward the target at a bounded rate, rotating its transform by the same
    amount. */
module Control {
  import opened Mathf

  /** The angle requested by a normalized deflection: positive requests scale
      the positive-side limit `max`, all others the negative-side limit `min`. */
  function TargetAngle(deflection: real, max: real, min: real): (r: real)
    ensures deflection == 0.0 ==> r == 0.0
    ensures deflection == 1.0 ==> r == max
    ensures deflection == -1.0 ==> r == -min
    ensures deflection > 0.0 && max > 0.0 ==> r > 0.0
    ensures deflection < 0.0 && min > 0.0 ==> r < 0.0
    ensures -1.0 <= deflection <= 1.0 && 0.0 <= max && 0.0 <= min ==> -min <= r <= max
  {
    if deflection > 0.0 then
      ScaledRequest(deflection, max);
      deflection * max
    else
      ScaledRequest(deflection, min);
      deflection * min
  }

  /** A request in [-1,1] scales a non-negative limit to at most that limit in
      magnitude, with the request's sign. */
  lemma ScaledRequest(deflection: real, limit: real)
    ensures -1.0 <= deflection <= 1.0 && 0.0 <= limit ==> -limit <= deflection * limit <= limit
    ensures 0.0 <= deflection && 0.0 <= limit ==> 0.0 <= deflection * limit
    ensures deflection <= 0.0 && 0.0 <= limit ==> deflection * limit <= 0.0
    ensures 0.0 < deflection && 0.0 < limit ==> 0.0 < deflection * limit
    ensures deflection < 0.0 && 0.0 < limit ==> deflection * limit < 0.0
  {
    if 0.0 <= limit {
      MulNonneg(Abs(deflection), limit);
      if -1.0 <= deflection <= 1.0 {
        MulNonneg(1.0 - Abs(deflection), limit);
      }
    }
    if 0.0 < limit && deflection != 0.0 {
      MulPos(Abs(deflection), limit);
    }
  }

  /** How a torque ratio compares with 1 and -1 follows from how the torque
      budget compares with a positive torque demand. */
  lemma RatioBounds(num: real, den: real)
    requires den > 0.0
    ensures num >= den ==> num / den >= 1.0
    ensures num <= -den ==> num / den <= -1.0
    ensures 0.0 < num < den ==> 0.0 < num / den < 1.0
  {
    var q := num / den;
    assert q * den == num;
    if num >= den && q < 1.0 {
      MulPos(1.0 - q, den);
    }
    if num <= -den && q > -1.0 {
      MulPos(q + 1.0, den);
    }
    if 0.0 < num < den {
      if q <= 0.0 {
        MulNonneg(-q, den);
      }
      if q >= 1.0 {
        MulNonneg(q - 1.0, den);
      }
    }
  }

  /** Stiffening is considered only with a rigidbody, a reference wing and a
      squared airspeed above 1. */
  predicate Stiffening(hasRigidbody: bool, sqrSpeed: real, hasWing: bool)
  {
    hasRigidbody && hasWing && sqrSpeed > 1.0
  }

  /** The stiffening rule: when it is considered, the target is limited by
      the torque a full deflection would demand at the current squared speed.
      `hasWing` says whether a reference wing is set, `wingArea` is that
      wing's area and `sqrSpeed` the rigidbody's squared speed; without a
      rigidbody the squared speed reads as 0 and the rule is skipped. */
  function StiffenedTarget(target: real, hasRigidbody: bool, sqrSpeed: real, hasWing: bool, wingArea: real,
                           maxTorque: real, asinDeg: real -> real): (r: real)
    ensures !Stiffening(hasRigidbody, sqrSpeed, hasWing) ==> r == target
  {
    if Stiffening(hasRigidbody, sqrSpeed, hasWing) then
      ClampByTorque(target, sqrSpeed * wingArea, maxTorque, asinDeg)
    else target
  }

  /** Limits `target` to the deflection the torque budget `maxTorque` can hold
      against a full-deflection torque demand `torqueAtMaxDeflection`, with
      `asinDeg` the engine's arcsine in degrees.  Only a ratio strictly inside
      (-1, 1) clamps.  A zero demand stands for the float division that yields
      an infinity or NaN: neither is inside (-1, 1), so nothing is clamped. */
  function ClampByTorque(target: real, torqueAtMaxDeflection: real, maxTorque: real,
                         asinDeg: real -> real): (r: real)
    ensures torqueAtMaxDeflection == 0.0 ==> r == target
    ensures torqueAtMaxDeflection != 0.0 ==>
              var limit := asinDeg(maxTorque / torqueAtMaxDeflection);
              r == target || r == limit || r == -limit
  {
    if torqueAtMaxDeflection == 0.0 then target
    else
      var asinArg := maxTorque / torqueAtMaxDeflection;
      if asinArg < 1.0 && asinArg > -1.0 then
        var maxAvailableDeflection := asinDeg(asinArg);
        Clamp(target, -maxAvailableDeflection, maxAvailableDeflection)
      else target
  }

  /** Enough torque (a ratio of at least 1, or at most -1 for a negative
      budget) leaves the target as it is. */
  lemma ClampByTorqueEnough(target: real, torqueAtMaxDeflection: real, maxTorque: real,
                            asinDeg: real -> real)
    requires torqueAtMaxDeflection > 0.0 && Abs(maxTorque) >= torqueAtMaxDeflection
    ensures ClampByTorque(target, torqueAtMaxDeflection, maxTorque, asinDeg) == target
  {
    RatioBounds(maxTorque, torqueAtMaxDeflection);
  }

  /** A positive budget below the demand clamps to plus or minus the arcsine
      limit: the result is within the limit, keeps the target's sign, never
      grows in magnitude, and equals the target when it was already within. */
  lemma ClampByTorqueLimit(target: real, torqueAtMaxDeflection: real, maxTorque: real,
                           asinDeg: real -> real)
    requires 0.0 < maxTorque < torqueAtMaxDeflection
    requires 0.0 <= asinDeg(maxTorque / torqueAtMaxDeflection)
    ensures var limit := asinDeg(maxTorque / torqueAtMaxDeflection);
            var r := ClampByTorque(target, torqueAtMaxDeflection, maxTorque, asinDeg);
            -limit <= r <= limit &&
            (Abs(target) <= limit ==> r == target) &&
            (0.0 <= target ==> 0.0 <= r <= target) &&
            (target <= 0.0 ==> target <= r <= 0.0)
  {
    RatioBounds(maxTorque, torqueAtMaxDeflection);
  }

  /** The shape of the engine's `Asin(x) * Rad2Deg` that the stiffening rule
      relies on: a ratio strictly between 0 and 1 gives an angle strictly
      between 0 and 90 degrees. */
  ghost predicate AsinShape(asinDeg: real -> real)
  {
    forall x :: 0.0 < x < 1.0 ==> 0.0 < asinDeg(x) < 90.0
  }

  /** The angle a surface heads for in one step: the target angle of its
      deflection request, stiffened. */
  function CommandedAngle(deflection: real, max: real, min: real, hasRigidbody: bool, sqrSpeed: real,
                          hasWing: bool, wingArea: real, maxTorque: real, asinDeg: real -> real): (r: real)
    ensures !Stiffening(hasRigidbody, sqrSpeed, hasWing) ==> r == TargetAngle(deflection, max, min)
  {
    StiffenedTarget(TargetAngle(deflection, max, min), hasRigidbody, sqrSpeed, hasWing, wingArea, maxTorque, asinDeg)
  }

  /** When a positive budget falls short of the demand, the clamped target
      stays in any interval around neutral that held the target, and strictly
      within 90 degrees of neutral. */
  lemma ClampByTorqueInRange(target: real, lo: real, hi: real, torqueAtMaxDeflection: real, maxTorque: real,
                             asinDeg: real -> real)
    requires lo <= target <= hi && lo <= 0.0 <= hi
    requires 0.0 < maxTorque < torqueAtMaxDeflection
    requires AsinShape(asinDeg)
    ensures var r := ClampByTorque(target, torqueAtMaxDeflection, maxTorque, asinDeg);
            lo <= r <= hi && -90.0 < r < 90.0
  {
    RatioBounds(maxTorque, torqueAtMaxDeflection);
    assert 0.0 < asinDeg(maxTorque / torqueAtMaxDeflection) < 90.0;
    ClampByTorqueLimit(target, torqueAtMaxDeflection, maxTorque, asinDeg);
  }

  /** When stiffening is considered with a positive wing area, the demand is
      positive and the target goes through the torque clamp. */
  lemma StiffenedIsClamp(target: real, hasRigidbody: bool, sqrSpeed: real, hasWing: bool, wingArea: real,
                         maxTorque: real, asinDeg: real -> real)
    requires Stiffening(hasRigidbody, sqrSpeed, hasWing) && wingArea > 0.0
    ensures sqrSpeed * wingArea > 0.0
    ensures StiffenedTarget(target, hasRigidbody, sqrSpeed, hasWing, wingArea, maxTorque, asinDeg)
         == ClampByTorque(target, sqrSpeed * wingArea, maxTorque, asinDeg)
  {
    MulPos(sqrSpeed, wingArea);
  }

  /** With a positive torque budget and wing area, stiffening never moves a
      target out of an interval around neutral. */
  lemma StiffenedTargetInRange(target: real, lo: real, hi: real, hasRigidbody: bool, sqrSpeed: real,
                               hasWing: bool, wingArea: real, maxTorque: real, asinDeg: real -> real)
    requires lo <= target <= hi && lo <= 0.0 <= hi
    requires maxTorque > 0.0 && (hasWing ==> wingArea > 0.0)
    requires AsinShape(asinDeg)
    ensures lo <= StiffenedTarget(target, hasRigidbody, sqrSpeed, hasWing, wingArea, maxTorque, asinDeg) <= hi
  {
    if Stiffening(hasRigidbody, sqrSpeed, hasWing) {
      var torque := sqrSpeed * wingArea;
      StiffenedIsClamp(target, hasRigidbody, sqrSpeed, hasWing, wingArea, maxTorque, asinDeg);
      if maxTorque < torque {
        ClampByTorqueInRange(target, lo, hi, torque, maxTorque, asinDeg);
      } else {
        ClampByTorqueEnough(target, torque, maxTorque, asinDeg);
      }
    }
  }

  /** A request in [-1,1] heads for an angle within the configured limits
      `[-min, max]`, whatever the stiffening does. */
  lemma CommandedAngleInRange(deflection: real, max: real, min: real, hasRigidbody: bool, sqrSpeed: real,
                              hasWing: bool, wingArea: real, maxTorque: real, asinDeg: real -> real)
    requires -1.0 <= deflection <= 1.0 && 0.0 <= max && 0.0 <= min
    requires maxTorque > 0.0 && (hasWing ==> wingArea > 0.0)
    requires AsinShape(asinDeg)
    ensures -min <= CommandedAngle(deflection, max, min, hasRigidbody, sqrSpeed, hasWing, wingArea, maxTorque, asinDeg) <= max
  {
    var target := TargetAngle(deflection, max, min);
    StiffenedTargetInRange(target, -min, max, hasRigidbody, sqrSpeed, hasWing, wingArea, maxTorque, asinDeg);
  }

  /** `steps` physics steps toward a fixed target with a fixed rate budget. */
  function Iterate(angle: real, target: real, maxDelta: real, steps: nat): (r: real)
    ensures 0.0 <= maxDelta ==> Abs(target - r) <= Abs(target - angle)
    decreases steps
  {
    if steps == 0 then angle
    else
      var next := MoveTowards(angle, target, maxDelta);
      if 0.0 <= maxDelta then
        MoveTowardsStep(angle, target, maxDelta);
        Iterate(next, target, maxDelta, steps - 1)
      else Iterate(next, target, maxDelta, steps - 1)
  }

  /** Once the budget of `steps` steps covers the distance, the surface sits
      exactly on the target. */
  lemma {:induction false} ReachesTarget(angle: real, target: real, maxDelta: real, steps: nat)
    requires maxDelta > 0.0
    requires Abs(target - angle) <= steps as real * maxDelta
    ensures Iterate(angle, target, maxDelta, steps) == target
    decreases steps
  {
    if steps > 0 {
      var next := MoveTowards(angle, target, maxDelta);
      MoveTowardsStep(angle, target, maxDelta);
      assert Abs(target - next) <= (steps - 1) as real * maxDelta;
      ReachesTarget(next, target, maxDelta, steps - 1);
    }
  }

  /** Enough steps to cover the distance to the target at `maxDelta` a step. */
  function StepsToTarget(angle: real, target: real, maxDelta: real): (n: nat)
    requires maxDelta > 0.0
    ensures Abs(target - angle) <= n as real * maxDelta
  {
    var q := Abs(target - angle) / maxDelta;
    var n := q.Floor + 1;
    assert q * maxDelta == Abs(target - angle);
    MulNonneg(n as real - q, maxDelta);
    n
  }

  /** With a fixed target and a positive step the surface reaches the target
      after `StepsToTarget` steps and stays on it at every later step. */
  lemma Converges(angle: real, target: real, maxDelta: real, steps: nat)
    requires maxDelta > 0.0
    requires steps >= StepsToTarget(angle, target, maxDelta)
    ensures Iterate(angle, target, maxDelta, steps) == target
  {
    var n := StepsToTarget(angle, target, maxDelta);
    MulNonneg((steps - n) as real, maxDelta);
    ReachesTarget(angle, target, maxDelta, steps);
  }

  /** One control surface.  `rotation` stands for the rotation applied to the
      surface's transform about its local x axis since it woke, which always
      equals the current angle. */
  class ControlSurface {
    var max: real
    var min: real
    var moveSpeed: real
    var targetDeflection: real
    /** Whether a reference wing is set, and that wing's area. */
    var hasWing: bool
    var wingArea: real
    var maxTorque: real
    var hasRigidbody: bool
    var angle: real
    var rotation: real

    ghost predicate Valid()
      reads this
    {
      rotation == angle
    }

    /** Inspector defaults, then `Awake`: a rigidbody is looked up only when a
        reference wing is set. */
    constructor (hasWing: bool, wingArea: real, parentHasRigidbody: bool)
      ensures Valid()
      ensures max == 15.0 && min == 15.0 && moveSpeed == 90.0 && targetDeflection == 0.0
      ensures maxTorque == 6000.0 && this.hasWing == hasWing && this.wingArea == wingArea
      ensures hasRigidbody == (hasWing && parentHasRigidbody)
      ensures angle == 0.0 && rotation == 0.0
    {
      max := 15.0;
      min := 15.0;
      moveSpeed := 90.0;
      targetDeflection := 0.0;
      this.hasWing := hasWing;
      this.wingArea := wingArea;
      maxTorque := 6000.0;
      angle := 0.0;
      rotation := 0.0;
      hasRigidbody := hasWing && parentHasRigidbody;
    }

    /** One physics step: head for the commanded angle by at most
        `moveSpeed * fixedDeltaTime` and rotate the transform by the change.
        Returns the rotation applied. */
    method FixedUpdate(sqrSpeed: real, fixedDeltaTime: real, asinDeg: real -> real) returns (delta: real)
      requires Valid()
      modifies this`angle, this`rotation
      ensures Valid()
      ensures angle == MoveTowards(old(angle),
                                   CommandedAngle(targetDeflection, max, min, hasRigidbody, sqrSpeed,
                                                  hasWing, wingArea, maxTorque, asinDeg),
                                   moveSpeed * fixedDeltaTime)
      ensures delta == angle - old(angle)
      ensures rotation == old(rotation) + delta
    {
      var targetAngle := TargetAngle(targetDeflection, max, min);
      targetAngle := StiffenedTarget(targetAngle, hasRigidbody, sqrSpeed, hasWing, wingArea, maxTorque, asinDeg);
      var oldAngle := angle;
      angle := MoveTowards(angle, targetAngle, moveSpeed * fixedDeltaTime);
      delta := angle - oldAngle;
      rotation := rotation + delta;
    }
  }
}
