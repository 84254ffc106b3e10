/**
 * The cart-pole simulator: a four-component state, the physical constants,
 * and one fixed-step integration step in semi-implicit (velocity first,
 * then position) Euler order.
 *
 * The accelerations come from the nonlinear equations of motion, which use
 * sine and cosine; they are not modelled here and reach the simulator as a
 * `Physics` function supplied by the caller.
 */
module CartPole {

  datatype Option<T> = None | Some(value: T)

  /** `[x, x_dot, theta, theta_dot]`: cart position and velocity, pole angle
      (0 is upright) and angular velocity. */
  datatype State = State(x: real, xDot: real, theta: real, thetaDot: real)

  const Zero: State := State(0.0, 0.0, 0.0, 0.0)

  /** Pole mass, cart mass, pole half-length, friction coefficient, gravity. */
  datatype Params = Params(m: real, M: real, l: real, b: real, g: real)

  /** Linear (cart) and angular (pole) acceleration. */
  datatype Accel = Accel(x: real, theta: real)

  /** The equations of motion: accelerations for the given constants, current
      state and applied horizontal force. */
  type Physics = (Params, State, real) -> Accel

  /** One semi-implicit Euler step of length `dt`: each velocity is advanced
      first and the position is then advanced with the new velocity. */
  function Euler(s: State, acc: Accel, dt: real): State
  {
    var xDot := s.xDot + acc.x * dt;
    var thetaDot := s.thetaDot + acc.theta * dt;
    State(s.x + xDot * dt, xDot, s.theta + thetaDot * dt, thetaDot)
  }

  /** Reference definition: the explicit (forward) Euler step, which advances
      positions with the old velocities. */
  function ExplicitEuler(s: State, acc: Accel, dt: real): State
  {
    State(s.x + s.xDot * dt, s.xDot + acc.x * dt, s.theta + s.thetaDot * dt, s.thetaDot + acc.theta * dt)
  }

  /** The semi-implicit step agrees with the explicit one on velocities and
      moves each position further by acceleration times `dt` squared: the
      position update sees the already-updated velocity. */
  lemma SemiImplicitVsExplicit(s: State, acc: Accel, dt: real)
    ensures Euler(s, acc, dt).xDot == ExplicitEuler(s, acc, dt).xDot
    ensures Euler(s, acc, dt).thetaDot == ExplicitEuler(s, acc, dt).thetaDot
    ensures Euler(s, acc, dt).x == ExplicitEuler(s, acc, dt).x + acc.x * dt * dt
    ensures Euler(s, acc, dt).theta == ExplicitEuler(s, acc, dt).theta + acc.theta * dt * dt
  {
  }

  /** The simulator object. Its state is a value, so every state handed out is
      a copy that callers cannot use to alter the simulator. */
  class InvertedPendulum {
    const m: real
    const M: real
    const l: real
    const b: real
    const g: real
    const dt: real
    var state: State

    constructor (m: real := 0.2, M: real := 0.5, l: real := 0.3, b: real := 0.1, g: real := 9.81, dt: real := 0.01)
      ensures this.m == m && this.M == M && this.l == l && this.b == b && this.g == g && this.dt == dt
      ensures state == Zero
    {
      this.m, this.M, this.l, this.b, this.g, this.dt := m, M, l, b, g, dt;
      state := Zero;
    }

    function Constants(): Params
    {
      Params(m, M, l, b, g)
    }

    /** Sets the state to the given one, or to all zeros when none is given,
        and returns it. */
    method Reset(init: Option<State>) returns (s: State)
      modifies this
      ensures state == (if init.Some? then init.value else Zero)
      ensures s == state
    {
      if init.None? {
        state := Zero;
      } else {
        state := init.value;
      }
      s := state;
    }

    /** Returns the current state and changes nothing. */
    method GetState() returns (s: State)
      ensures s == state
    {
      s := state;
    }

    /** Applies force `u` for one time step: the accelerations are computed
        from the state before the step, then velocity and position are
        advanced in that order, first for the cart, then for the pole. */
    method Step(u: real, physics: Physics) returns (next: State)
      modifies this
      ensures state == Euler(old(state), physics(Constants(), old(state), u), dt)
      ensures next == state
    {
      var x, xDot, theta, thetaDot := state.x, state.xDot, state.theta, state.thetaDot;
      var acc := physics(Constants(), state, u);
      xDot := xDot + acc.x * dt;
      x := x + xDot * dt;
      thetaDot := thetaDot + acc.theta * dt;
      theta := theta + thetaDot * dt;
      state := State(x, xDot, theta, thetaDot);
      next := state;
    }
  }
}
