/** The three fixed-step explicit one-step schemes, as pure state transitions.

    The lemmas after the schemes are facts about them that do not depend on
    any run: every scheme fixes an equilibrium; the Runge-Kutta weights sum
    to one, so the increment is a weighted mean of the four stages; Heun's
    step is the mean of the state and two chained Euler steps; and its
    discrete derivative is the Euler slope corrected by half the change of
    slope across the predictor, where Euler's discrete derivative is the
    Euler slope exactly. */
module Schemes {
  import opened Lorenz

  datatype Scheme = Euler | Heun | RK4

  /** Explicit Euler: s + h * f(s). */
  function EulerStep(p: Params, h: real, s: State): State
  {
    Add(s, Scale(h, Deriv(p, s)))
  }

  /** Heun's predictor-corrector: predict with an Euler step, then advance by
      the average of the slope at `s` and the slope at the predictor. */
  function HeunStep(p: Params, h: real, s: State): State
  {
    var d1 := Deriv(p, s);
    var pred := Add(s, Scale(h, d1));
    var d2 := Deriv(p, pred);
    Add(s, Scale(h / 2.0, Add(d1, d2)))
  }

  /** The four stages of the classical Runge-Kutta step. */
  function RK4Stages(p: Params, h: real, s: State): (State, State, State, State)
  {
    var k1 := Scale(h, Deriv(p, s));
    var k2 := Scale(h, Deriv(p, Add(s, Scale(0.5, k1))));
    var k3 := Scale(h, Deriv(p, Add(s, Scale(0.5, k2))));
    var k4 := Scale(h, Deriv(p, Add(s, k3)));
    (k1, k2, k3, k4)
  }

  /** The weighted combination (k1 + 2 k2 + 2 k3 + k4) / 6 of the four stages. */
  function RK4Increment(k1: State, k2: State, k3: State, k4: State): State
  {
    var sum := Add(Add(Add(k1, Scale(2.0, k2)), Scale(2.0, k3)), k4);
    State(sum.x / 6.0, sum.y / 6.0, sum.z / 6.0)
  }

  /** Classical fourth-order Runge-Kutta. */
  function RK4Step(p: Params, h: real, s: State): State
  {
    var (k1, k2, k3, k4) := RK4Stages(p, h, s);
    Add(s, RK4Increment(k1, k2, k3, k4))
  }

  /** One step of the chosen scheme. */
  function Step(m: Scheme, p: Params, h: real, s: State): State
  {
    match m
    case Euler => EulerStep(p, h, s)
    case Heun => HeunStep(p, h, s)
    case RK4 => RK4Step(p, h, s)
  }

  /** Every scheme leaves an equilibrium where it is, whatever the step size. */
  lemma StepFixesEquilibrium(m: Scheme, p: Params, h: real, s: State)
    requires IsEquilibrium(p, s)
    ensures Step(m, p, h, s) == s
  {
  }

  /** The Runge-Kutta weights 1, 2, 2, 1 over 6 add up to one: four equal
      stages give that stage back. */
  lemma RK4WeightsSumToOne(k: State)
    ensures RK4Increment(k, k, k, k) == k
  {
    var sum := Add(Add(Add(k, Scale(2.0, k)), Scale(2.0, k)), k);
    assert sum == State(6.0 * k.x, 6.0 * k.y, 6.0 * k.z);
  }

  /** Heun's step lands halfway between `s` and two successive Euler steps
      (the second one taken from the predictor): the corrector averages the
      Euler slope and the slope at the predictor. */
  lemma HeunIsMeanOfStateAndTwoEulerSteps(p: Params, h: real, s: State)
    ensures HeunStep(p, h, s) == Scale(0.5, Add(s, EulerStep(p, h, EulerStep(p, h, s))))
  {
  }

  /** The discrete derivative of a Heun step differs from the analytic one at
      `s` by half the change of slope between `s` and the predictor. */
  lemma HeunSlopeDefect(p: Params, h: real, s: State)
    requires h != 0.0
    ensures var pred := EulerStep(p, h, s);
            var d := Sub(HeunStep(p, h, s), s);
            State(d.x / h, d.y / h, d.z / h)
              == Sub(Deriv(p, s), Scale(0.5, Sub(Deriv(p, s), Deriv(p, pred))))
  {
  }
}
