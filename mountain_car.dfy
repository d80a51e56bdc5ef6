/** The mountain-car simulator of src/mountainCar.ts. Positions and
    velocities are exact reals; `Math.cos` is whatever function `cos` the
    caller passes. */
module CarSimulator {
  import opened Tensors

  /** The two state variables of the system. */
  datatype CarState = CarState(position: real, velocity: real)

  /** `Math.min(Math.max(x, lo), hi)`. */
  function Clamp(x: real, lo: real, hi: real): (r: real)
    requires lo <= hi
    ensures lo <= r <= hi
    ensures lo <= x <= hi ==> r == x
  {
    if x < lo then lo else if x > hi then hi else x
  }

  class MountainCar {
    // The constants that characterize the system, fixed at construction.
    const minPosition: real := -1.2
    const maxPosition: real := 0.6
    const maxSpeed: real := 0.07
    const goalPosition: real := 0.5
    const goalVelocity: real := 0.0
    const gravity: real := 0.0025
    const carWidth: real := 0.2
    const carHeight: real := 0.1
    const force: real := 0.0013

    var position: real
    var velocity: real

    function State(): CarState
      reads this
    {
      CarState(position, velocity)
    }

    /** The state `setRandomState` draws from `Math.random() == r`. */
    function StartState(r: real): (s: CarState)
      requires 0.0 <= r < 1.0
      ensures s.velocity == 0.0
      ensures -0.6 <= s.position < -0.4
    {
      CarState(r / 5.0 - 0.6, 0.0)
    }

    /** The velocity after applying `action`'s force and gravity, before clamping. */
    function Accelerated(s: CarState, action: int, cos: real -> real): real
    {
      s.velocity + action as real * force - cos(3.0 * s.position) * gravity
    }

    /** One step of the dynamics under `action`: accelerate, clamp the speed,
        move, clamp the position, and stop dead against the left wall. */
    function Next(s: CarState, action: int, cos: real -> real): (r: CarState)
      ensures -maxSpeed <= r.velocity <= maxSpeed
      ensures minPosition <= r.position <= maxPosition
      ensures !(r.position == minPosition && r.velocity < 0.0)
    {
      var v := Clamp(Accelerated(s, action, cos), -maxSpeed, maxSpeed);
      var p := Clamp(s.position + v, minPosition, maxPosition);
      CarState(p, if p == minPosition && v < 0.0 then 0.0 else v)
    }

    /** The goal test of `isDone`. */
    predicate Done(s: CarState)
      ensures Done(s) <==> s.position >= 0.5 && s.velocity >= 0.0
    {
      s.position >= goalPosition && s.velocity >= goalVelocity
    }

    /** `isDone()`: the goal test on the current state. */
    predicate IsDone()
      reads this
      ensures IsDone() <==> position >= 0.5 && velocity >= 0.0
    {
      Done(State())
    }

    constructor (r: real)
      requires 0.0 <= r < 1.0
      ensures State() == StartState(r)
    {
      position := r / 5.0 - 0.6;
      velocity := 0.0;
    }

    method SetRandomState(r: real)
      requires 0.0 <= r < 1.0
      modifies this`position, this`velocity
      ensures State() == StartState(r)
    {
      position := r / 5.0 - 0.6;
      velocity := 0.0;
    }

    /** The state as a fresh `[position, velocity]` tensor. */
    method GetStateTensor() returns (t: Tensor)
      ensures fresh(t)
      ensures t.values == [position, velocity]
    {
      t := new Tensor([position, velocity]);
    }

    method Update(action: int, cos: real -> real) returns (done: bool)
      modifies this`position, this`velocity
      ensures State() == Next(old(State()), action, cos)
      ensures -maxSpeed <= velocity <= maxSpeed && minPosition <= position <= maxPosition
      ensures !(position == minPosition && velocity < 0.0)
      ensures done == IsDone()
    {
      ghost var before := State();
      velocity := velocity + action as real * force - cos(3.0 * position) * gravity;
      assert velocity == Accelerated(before, action, cos);
      velocity := Clamp(velocity, -maxSpeed, maxSpeed);
      position := position + velocity;
      position := Clamp(position, minPosition, maxPosition);
      if position == minPosition && velocity < 0.0 {
        velocity := 0.0;
      }
      done := IsDone();
    }
  }
}
