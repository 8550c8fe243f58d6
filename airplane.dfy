/** The demo airplane controller: once per frame it routes the control axes
    to the control surfaces, integrates the throttle axes into a throttle
    level for the engine, and on a fire press drops every weapon. */
module Demo {
  import opened Mathf
  import opened Control

  /** The engine component, by the one field the controller writes. */
  class Engine {
    var throttle: real

    constructor (throttle: real)
      ensures this.throttle == throttle
    {
      this.throttle := throttle;
    }
  }

  /** A weapon mount; what it does when fired is outside this model. */
  class WeaponDropper {
    constructor ()
    {
    }
  }

  datatype Vector3 = Vector3(x: real, y: real, z: real)

  /** One `Fire` call: the dropper fired and the velocity handed to it. */
  datatype Shot = Shot(dropper: WeaponDropper, velocity: Vector3)

  /** The input state polled in one frame: the five axes, whether the fire
      button went down this frame, and the frame time. */
  datatype InputState = InputState(
    vertical: real,
    horizontal: real,
    yaw: real,
    fire1: real,
    fire2: real,
    fire3Down: bool,
    deltaTime: real)

  /** The weapon loop of a frame: with weapons and a fire press, every
      dropper is fired once, in array order, with the velocity of its mount
      point; otherwise nothing is fired. */
  method FireWeapons(weapons: seq<WeaponDropper>, fire3Down: bool, pointVelocity: WeaponDropper -> Vector3)
    returns (shots: seq<Shot>)
    ensures fire3Down ==> |shots| == |weapons|
    ensures fire3Down ==> forall i :: 0 <= i < |weapons| ==> shots[i] == Shot(weapons[i], pointVelocity(weapons[i]))
    ensures !fire3Down ==> shots == []
  {
    shots := [];
    if |weapons| > 0 {
      if fire3Down {
        for i := 0 to |weapons|
          invariant |shots| == i
          invariant forall k :: 0 <= k < i ==> shots[k] == Shot(weapons[k], pointVelocity(weapons[k]))
        {
          var dropper := weapons[i];
          shots := shots + [Shot(dropper, pointVelocity(dropper))];
        }
      }
    }
  }

  class Airplane {
    var elevator: ControlSurface?
    var aileronLeft: ControlSurface?
    var aileronRight: ControlSurface?
    var rudder: ControlSurface?
    var engine: Engine?
    var weapons: seq<WeaponDropper>
    var throttle: real
    var yawDefined: bool

    /** The throttle level is always a fraction in [0,1]. */
    ghost predicate Valid()
      reads this
    {
      0.0 <= throttle <= 1.0
    }

    /** The control surfaces that are present. */
    ghost function Surfaces(): set<ControlSurface>
      reads this
    {
      (if elevator != null then {elevator} else {}) +
      (if aileronLeft != null then {aileronLeft} else {}) +
      (if aileronRight != null then {aileronRight} else {}) +
      (if rudder != null then {rudder} else {})
    }

    /** The engine, when present. */
    ghost function Engines(): set<Engine>
      reads this
    {
      if engine != null then {engine} else {}
    }

    /** Component wiring as set in the scene; `yawDefined` is whether the
        input configuration has a yaw axis.  The throttle starts full. */
    constructor (elevator: ControlSurface?, aileronLeft: ControlSurface?, aileronRight: ControlSurface?,
                 rudder: ControlSurface?, engine: Engine?, weapons: seq<WeaponDropper>, yawDefined: bool)
      ensures Valid()
      ensures throttle == 1.0
      ensures this.elevator == elevator && this.aileronLeft == aileronLeft
      ensures this.aileronRight == aileronRight && this.rudder == rudder
      ensures this.engine == engine && this.weapons == weapons && this.yawDefined == yawDefined
    {
      this.elevator := elevator;
      this.aileronLeft := aileronLeft;
      this.aileronRight := aileronRight;
      this.rudder := rudder;
      this.engine := engine;
      this.weapons := weapons;
      throttle := 1.0;
      this.yawDefined := yawDefined;
    }

    /** One frame: route the axes to the surfaces, integrate the throttle,
        then run the weapon loop.  Returns the `Fire` calls made. */
    method Update(input: InputState, pointVelocity: WeaponDropper -> Vector3) returns (shots: seq<Shot>)
      requires Valid()
      modifies this`throttle, Surfaces()`targetDeflection, Engines()`throttle
      ensures Valid()
      ensures Routed(input, old(Snapshot()))
      ensures engine != null ==>
                throttle == Clamp01(old(throttle) + input.fire1 * input.deltaTime - input.fire2 * input.deltaTime) &&
                engine.throttle == throttle
      ensures engine == null ==> throttle == old(throttle)
      ensures input.fire3Down ==> |shots| == |weapons|
      ensures input.fire3Down ==>
                forall i :: 0 <= i < |weapons| ==> shots[i] == Shot(weapons[i], pointVelocity(weapons[i]))
      ensures !input.fire3Down ==> shots == []
    {
      RouteControls(input);
      UpdateThrottle(input);
      shots := FireWeapons(weapons, input.fire3Down, pointVelocity);
    }

    /** The deflection each present surface holds, before a frame. */
    ghost function Snapshot(): map<ControlSurface, real>
      reads this, Surfaces()
    {
      map s | s in Surfaces() :: s.targetDeflection
    }

    /** What the routing leaves on the surfaces.  They are written in the
        order elevator, left aileron, right aileron, rudder, so a surface
        wired into two slots keeps the later command; the rudder is written
        only when the yaw axis is defined. */
    ghost predicate Routed(input: InputState, before: map<ControlSurface, real>)
      reads this, Surfaces()
    {
      (rudder != null && yawDefined ==> rudder.targetDeflection == input.yaw) &&
      (aileronRight != null && !(yawDefined && aileronRight == rudder) ==>
         aileronRight.targetDeflection == input.horizontal) &&
      (aileronLeft != null && aileronLeft != aileronRight && !(yawDefined && aileronLeft == rudder) ==>
         aileronLeft.targetDeflection == -input.horizontal) &&
      (elevator != null && elevator != aileronLeft && elevator != aileronRight &&
       !(yawDefined && elevator == rudder) ==>
         elevator.targetDeflection == -input.vertical) &&
      (rudder != null && !yawDefined && rudder != elevator && rudder != aileronLeft && rudder != aileronRight &&
       rudder in before ==>
         rudder.targetDeflection == before[rudder])
    }

    /** Lines the axes up with the surfaces: pitch inverted to the elevator,
        roll inverted to the left aileron and as is to the right one, yaw to
        the rudder. */
    method RouteControls(input: InputState)
      modifies Surfaces()`targetDeflection
      ensures Routed(input, old(Snapshot()))
      ensures aileronLeft != null && aileronRight != null && aileronLeft != aileronRight &&
              !(yawDefined && (aileronLeft == rudder || aileronRight == rudder)) ==>
                aileronLeft.targetDeflection == -aileronRight.targetDeflection
    {
      if elevator != null {
        elevator.targetDeflection := -input.vertical;
      }
      if aileronLeft != null {
        aileronLeft.targetDeflection := -input.horizontal;
      }
      if aileronRight != null {
        aileronRight.targetDeflection := input.horizontal;
      }
      if rudder != null && yawDefined {
        rudder.targetDeflection := input.yaw;
      }
    }

    /** With an engine, adds `Fire1` and subtracts `Fire2`, each scaled by the
        frame time, clamps the level to [0,1] and hands it to the engine. */
    method UpdateThrottle(input: InputState)
      requires Valid()
      modifies this`throttle, Engines()`throttle
      ensures Valid()
      ensures engine != null ==>
                throttle == Clamp01(old(throttle) + input.fire1 * input.deltaTime - input.fire2 * input.deltaTime) &&
                engine.throttle == throttle
      ensures engine == null ==> throttle == old(throttle)
    {
      if engine != null {
        throttle := throttle + input.fire1 * input.deltaTime;
        throttle := throttle - input.fire2 * input.deltaTime;
        throttle := Clamp01(throttle);

        engine.throttle := throttle;
      }
    }
  }
}
