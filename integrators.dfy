/** The driver loops that build a trajectory by appending one state per step.

    Two forms occur: the loops that evaluate the vector field through the
    shared derivative function, and the loops that write the derivative out
    inline on the local coordinates x, y, z. The Runge-Kutta loop rebinds a
    whole state each step. Each method is proved to return the trajectory
    `Traj` of its scheme; a loop over range(n) with negative n runs no times. */
module Integrators {
  import opened Lorenz
  import opened Schemes
  import opened Trajectory

  /** The derivative written out on the coordinates is the vector field. */
  lemma DerivAt(p: Params, x: real, y: real, z: real, dx: real, dy: real, dz: real)
    requires dx == p.sigma * (y - x) && dy == x * (p.rho - z) - y && dz == x * y - p.beta * z
    ensures Deriv(p, State(x, y, z)) == State(dx, dy, dz)
  {
    // Unfolding the field on a named state keeps this proof stable across
    // solver seeds; without it some seeds fail.
    var s := State(x, y, z);
    assert s.x == x && s.y == y && s.z == z;
    assert Deriv(p, s) == State(p.sigma * (s.y - s.x), s.x * (p.rho - s.z) - s.y, s.x * s.y - p.beta * s.z);
  }

  /** Moving from (x, y, z) by c times (dx, dy, dz), coordinate by coordinate. */
  lemma AddScaleAt(x: real, y: real, z: real, c: real, dx: real, dy: real, dz: real)
    ensures Add(State(x, y, z), Scale(c, State(dx, dy, dz))) == State(x + c * dx, y + c * dy, z + c * dz)
  {
    var d := State(dx, dy, dz);
    assert d.x == dx && d.y == dy && d.z == dz;
    assert Scale(c, d) == State(c * dx, c * dy, c * dz);
  }

  /** The sum of two slopes, coordinate by coordinate. */
  lemma AddAt(x1: real, y1: real, z1: real, x2: real, y2: real, z2: real)
    ensures Add(State(x1, y1, z1), State(x2, y2, z2)) == State(x1 + x2, y1 + y2, z1 + z2)
  {
  }

  /** Adding h times the slope returned by `Deriv` to each coordinate is one
      Euler step. */
  lemma EulerViaDeriv(p: Params, h: real, x: real, y: real, z: real)
    ensures var d := Deriv(p, State(x, y, z));
            EulerStep(p, h, State(x, y, z)) == State(x + h * d.x, y + h * d.y, z + h * d.z)
  {
    var d := Deriv(p, State(x, y, z));
    assert d == State(d.x, d.y, d.z);
    AddScaleAt(x, y, z, h, d.x, d.y, d.z);
  }

  /** The inline derivative followed by the Euler update is one Euler step. */
  lemma EulerInline(p: Params, h: real, x: real, y: real, z: real, dx: real, dy: real, dz: real)
    requires dx == p.sigma * (y - x) && dy == x * (p.rho - z) - y && dz == x * y - p.beta * z
    ensures EulerStep(p, h, State(x, y, z)) == State(x + h * dx, y + h * dy, z + h * dz)
  {
    DerivAt(p, x, y, z, dx, dy, dz);
    AddScaleAt(x, y, z, h, dx, dy, dz);
  }

  /** An Euler predictor from the slope returned by `Deriv`, then the mean of
      that slope and the slope at the predictor, is one Heun step. */
  lemma HeunViaDeriv(p: Params, h: real, x: real, y: real, z: real, xPred: real, yPred: real, zPred: real)
    requires var d1 := Deriv(p, State(x, y, z));
             xPred == x + h * d1.x && yPred == y + h * d1.y && zPred == z + h * d1.z
    ensures var d1 := Deriv(p, State(x, y, z));
            var d2 := Deriv(p, State(xPred, yPred, zPred));
            HeunStep(p, h, State(x, y, z))
              == State(x + h / 2.0 * (d1.x + d2.x), y + h / 2.0 * (d1.y + d2.y), z + h / 2.0 * (d1.z + d2.z))
  {
    var s := State(x, y, z);
    var d1 := Deriv(p, s);
    assert d1 == State(d1.x, d1.y, d1.z);
    AddScaleAt(x, y, z, h, d1.x, d1.y, d1.z);
    var pred := Add(s, Scale(h, d1));
    assert pred == State(xPred, yPred, zPred);
    var d2 := Deriv(p, pred);
    var sum := Add(d1, d2);
    assert sum == State(d1.x + d2.x, d1.y + d2.y, d1.z + d2.z);
    AddScaleAt(x, y, z, h / 2.0, d1.x + d2.x, d1.y + d2.y, d1.z + d2.z);
    assert HeunStep(p, h, s) == Add(s, Scale(h / 2.0, sum));
  }

  /** The inline predictor and corrector slopes followed by the Heun update
      are one Heun step. */
  lemma HeunInline(p: Params, h: real, x: real, y: real, z: real,
                   dxEuler: real, dyEuler: real, dzEuler: real,
                   xPred: real, yPred: real, zPred: real,
                   dxCorr: real, dyCorr: real, dzCorr: real)
    requires dxEuler == p.sigma * (y - x) && dyEuler == x * (p.rho - z) - y && dzEuler == x * y - p.beta * z
    requires xPred == x + h * dxEuler && yPred == y + h * dyEuler && zPred == z + h * dzEuler
    requires dxCorr == p.sigma * (yPred - xPred) && dyCorr == xPred * (p.rho - zPred) - yPred
    requires dzCorr == xPred * yPred - p.beta * zPred
    ensures HeunStep(p, h, State(x, y, z))
         == State(x + h / 2.0 * (dxEuler + dxCorr), y + h / 2.0 * (dyEuler + dyCorr), z + h / 2.0 * (dzEuler + dzCorr))
  {
    DerivAt(p, x, y, z, dxEuler, dyEuler, dzEuler);
    AddScaleAt(x, y, z, h, dxEuler, dyEuler, dzEuler);
    DerivAt(p, xPred, yPred, zPred, dxCorr, dyCorr, dzCorr);
    AddAt(dxEuler, dyEuler, dzEuler, dxCorr, dyCorr, dzCorr);
    AddScaleAt(x, y, z, h / 2.0, dxEuler + dxCorr, dyEuler + dyCorr, dzEuler + dzCorr);
  }

  /** Euler's method, evaluating the derivative through `Deriv`. */
  method EulerRun(p: Params, s0: State, h: real, n: int) returns (traj: seq<State>)
    ensures traj == Traj(Euler, p, h, s0, Iterations(n))
  {
    var x, y, z := s0.x, s0.y, s0.z;
    traj := [s0];
    var i := 0;
    while i < n
      invariant 0 <= i <= Iterations(n)
      invariant traj == Traj(Euler, p, h, s0, i)
      invariant State(x, y, z) == traj[i]
    {
      ghost var cur := State(x, y, z);
      var d := Deriv(p, State(x, y, z));
      EulerViaDeriv(p, h, x, y, z);
      x := x + h * d.x;
      y := y + h * d.y;
      z := z + h * d.z;
      assert State(x, y, z) == Step(Euler, p, h, cur);
      traj := traj + [State(x, y, z)];
      i := i + 1;
    }
  }

  /** Euler's method with the derivative written out on x, y, z. */
  method EulerRunInline(p: Params, s0: State, h: real, n: int) returns (traj: seq<State>)
    ensures traj == Traj(Euler, p, h, s0, Iterations(n))
  {
    var x, y, z := s0.x, s0.y, s0.z;
    traj := [s0];
    var i := 0;
    while i < n
      invariant 0 <= i <= Iterations(n)
      invariant traj == Traj(Euler, p, h, s0, i)
      invariant State(x, y, z) == traj[i]
    {
      ghost var cur := State(x, y, z);
      var dx := p.sigma * (y - x);
      var dy := x * (p.rho - z) - y;
      var dz := x * y - p.beta * z;
      EulerInline(p, h, x, y, z, dx, dy, dz);
      x := x + h * dx;
      y := y + h * dy;
      z := z + h * dz;
      assert State(x, y, z) == Step(Euler, p, h, cur);
      traj := traj + [State(x, y, z)];
      i := i + 1;
    }
  }

  /** Heun's method, evaluating both slopes through `Deriv`. */
  method HeunRun(p: Params, s0: State, h: real, n: int) returns (traj: seq<State>)
    ensures traj == Traj(Heun, p, h, s0, Iterations(n))
  {
    var x, y, z := s0.x, s0.y, s0.z;
    traj := [s0];
    var i := 0;
    while i < n
      invariant 0 <= i <= Iterations(n)
      invariant traj == Traj(Heun, p, h, s0, i)
      invariant State(x, y, z) == traj[i]
    {
      ghost var cur := State(x, y, z);
      var d1 := Deriv(p, State(x, y, z));
      var xPred := x + h * d1.x;
      var yPred := y + h * d1.y;
      var zPred := z + h * d1.z;
      var d2 := Deriv(p, State(xPred, yPred, zPred));
      HeunViaDeriv(p, h, x, y, z, xPred, yPred, zPred);
      x := x + h / 2.0 * (d1.x + d2.x);
      y := y + h / 2.0 * (d1.y + d2.y);
      z := z + h / 2.0 * (d1.z + d2.z);
      assert State(x, y, z) == Step(Heun, p, h, cur);
      traj := traj + [State(x, y, z)];
      i := i + 1;
    }
  }

  /** Heun's method with the predictor and corrector slopes written out. */
  method HeunRunInline(p: Params, s0: State, h: real, n: int) returns (traj: seq<State>)
    ensures traj == Traj(Heun, p, h, s0, Iterations(n))
  {
    var x, y, z := s0.x, s0.y, s0.z;
    traj := [s0];
    var i := 0;
    while i < n
      invariant 0 <= i <= Iterations(n)
      invariant traj == Traj(Heun, p, h, s0, i)
      invariant State(x, y, z) == traj[i]
    {
      ghost var cur := State(x, y, z);
      // Prediction (an Euler step).
      var dxEuler := p.sigma * (y - x);
      var dyEuler := x * (p.rho - z) - y;
      var dzEuler := x * y - p.beta * z;
      var xPred := x + h * dxEuler;
      var yPred := y + h * dyEuler;
      var zPred := z + h * dzEuler;
      // Correction.
      var dxCorr := p.sigma * (yPred - xPred);
      var dyCorr := xPred * (p.rho - zPred) - yPred;
      var dzCorr := xPred * yPred - p.beta * zPred;
      HeunInline(p, h, x, y, z, dxEuler, dyEuler, dzEuler, xPred, yPred, zPred, dxCorr, dyCorr, dzCorr);
      x := x + h / 2.0 * (dxEuler + dxCorr);
      y := y + h / 2.0 * (dyEuler + dyCorr);
      z := z + h / 2.0 * (dzEuler + dzCorr);
      assert State(x, y, z) == Step(Heun, p, h, cur);
      traj := traj + [State(x, y, z)];
      i := i + 1;
    }
  }

  /** The classical Runge-Kutta method; `state` is rebound each step, so the
      initial state stored first is never altered. */
  method RK4Run(p: Params, s0: State, h: real, n: int) returns (traj: seq<State>)
    ensures traj == Traj(RK4, p, h, s0, Iterations(n))
  {
    var state := s0;
    traj := [state];
    var i := 0;
    while i < n
      invariant 0 <= i <= Iterations(n)
      invariant traj == Traj(RK4, p, h, s0, i)
      invariant state == traj[i]
    {
      var k1 := Scale(h, Deriv(p, state));
      var k2 := Scale(h, Deriv(p, Add(state, Scale(0.5, k1))));
      var k3 := Scale(h, Deriv(p, Add(state, Scale(0.5, k2))));
      var k4 := Scale(h, Deriv(p, Add(state, k3)));
      state := Add(state, RK4Increment(k1, k2, k3, k4));
      traj := traj + [state];
      i := i + 1;
    }
  }
}
