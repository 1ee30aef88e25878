/** The main programs of the four scripts: each fixes a step size and an
    interval, derives the step count, runs the integrators from one initial
    state and feeds the trajectories to a metric. Plotting and printing are
    not modelled; each program returns what it would plot or print. */
module Analyses {
  import opened Lorenz
  import opened Schemes
  import opened Outcomes
  import opened Trajectory
  import opened Integrators
  import opened Metrics

  /** The initial state every script uses, (rho - 1, eta, eta - 3) with
      eta = sqrt(beta * (rho - 1)); eta is passed in, characterised by its
      square. */
  predicate IsScriptInitialState(p: Params, eta: real, s: State)
  {
    eta >= 0.0 && eta * eta == p.beta * (p.rho - 1.0) && s == State(p.rho - 1.0, eta, eta - 3.0)
  }

  /** With the classic parameters the scripts' initial state is not an
      equilibrium, so their trajectories are not constant. */
  lemma ScriptInitialStateMoves(eta: real, s: State)
    requires IsScriptInitialState(Classic, eta, s)
    ensures !IsEquilibrium(Classic, s)
  {
    assert eta * eta == 72.0;
    assert eta != 27.0;
    assert Deriv(Classic, s).x == 10.0 * (eta - 27.0);
  }

  /** The step counts the scripts derive from their intervals and step sizes:
      residuo.py, erro_global.py (fine and coarse), perturbacoes.py and
      atrator_lorenz.py. */
  lemma ScriptStepCounts()
    ensures StepCount(0.0, 100.0, 0.01) == Ok(10000)
    ensures StepCount(0.0, 10.0, 0.0001) == Ok(100000)
    ensures StepCount(0.0, 10.0, 0.001) == Ok(10000)
    ensures StepCount(0.0, 50.0, 0.001) == Ok(50000)
  {
    assert Truncate(10000.0) == 10000;
    assert Truncate(100000.0) == 100000;
    assert Truncate(50000.0) == 50000;
  }

  /** The fine reference run and a coarse run have different numbers of rows,
      so they cannot be compared row by row without resampling. */
  lemma FineAndCoarseRunsDoNotAlign(m: Scheme, p: Params, s0: State)
    ensures RowDistances(Traj(RK4, p, 0.0001, s0, 100000), Traj(m, p, 0.001, s0, 10000)) == Err(GridMismatch)
  {
  }

  /** The residual series of the three methods and the time points they are
      plotted against. */
  datatype ResidualReport = ResidualReport(euler: seq<real>, heun: seq<real>, rk4: seq<real>, time: seq<real>)

  /** The residual analysis: the three residuo.py integrators, their local
      residuals, and the grid tempo[:-1] with tempo = linspace(t0, tf, n + 1). */
  method ResidualProgram(p: Params, s0: State, t0: real, tf: real, h: real) returns (r: Result<ResidualReport>)
    ensures h == 0.0 ==> r == Err(DivisionByZero)
    ensures h != 0.0 ==> (r.Ok? <==> StepCount(t0, tf, h).value >= -1)
    ensures h != 0.0 && r.Err? ==> r.error == NegativeSamples
    ensures r.Ok? ==>
              var n := Iterations(StepCount(t0, tf, h).value);
              && |r.value.euler| == n && |r.value.heun| == n && |r.value.rk4| == n && |r.value.time| == n
              && (forall i :: 0 <= i < n ==> r.value.euler[i] == 0.0)
              && r.value.heun == Residuals(p, h, Traj(Heun, p, h, s0, n))
              && r.value.rk4 == Residuals(p, h, Traj(RK4, p, h, s0, n))
              && r.value.time == Linspace(t0, tf, n + 1)[..n]
  {
    var steps := StepCount(t0, tf, h);
    if steps.Err? {
      return Err(steps.error);
    }
    var n := steps.value;
    var trajEuler := EulerRun(p, s0, h, n);
    var trajHeun := HeunRun(p, s0, h, n);
    var trajRk4 := RK4Run(p, s0, h, n);
    var resEuler := ResidualLoop(p, trajEuler, h);
    var resHeun := ResidualLoop(p, trajHeun, h);
    var resRk4 := ResidualLoop(p, trajRk4, h);
    EulerResidualsZero(p, h, s0, Iterations(n));
    if n + 1 < 0 {
      return Err(NegativeSamples);
    }
    var time := Linspace(t0, tf, n + 1);
    r := Ok(ResidualReport(resEuler, resHeun, resRk4, time[..Iterations(n)]));
  }

  /** The attractor plot's data: the three atrator_lorenz.py integrators from
      one initial state. */
  method AttractorProgram(p: Params, s0: State, t0: real, tf: real, h: real)
    returns (r: Result<(seq<State>, seq<State>, seq<State>)>)
    ensures r.Err? <==> h == 0.0
    ensures r.Err? ==> r.error == DivisionByZero
    ensures r.Ok? ==>
              var n := Iterations(StepCount(t0, tf, h).value);
              var (euler, heun, rk4) := r.value;
              && euler == Traj(Euler, p, h, s0, n)
              && heun == Traj(Heun, p, h, s0, n)
              && rk4 == Traj(RK4, p, h, s0, n)
              && |euler| == |heun| == |rk4| == n + 1
              && euler[0] == heun[0] == rk4[0] == s0
  {
    var steps := StepCount(t0, tf, h);
    if steps.Err? {
      return Err(steps.error);
    }
    var n := steps.value;
    var trajEuler := EulerRunInline(p, s0, h, n);
    var trajHeun := HeunRunInline(p, s0, h, n);
    var trajRk4 := RK4Run(p, s0, h, n);
    r := Ok((trajEuler, trajHeun, trajRk4));
  }

  /** The offset added to the initial state in perturbacoes.py. */
  const Perturbation: State := State(0.01, 0.01, 0.01)

  /** The per-row divergence series of the three methods. */
  datatype DivergenceReport = DivergenceReport(euler: seq<real>, heun: seq<real>, rk4: seq<real>)

  /** A divergence series between a nominal and a perturbed run of the same
      scheme, step size and step count. */
  function Divergence(m: Scheme, p: Params, h: real, s0: State, s1: State, n: nat): (d: seq<real>)
    ensures |d| == n + 1
    ensures forall i :: 0 <= i < |d| ==> d[i] >= 0.0
    ensures d[0] == SqDistance(s0, s1)
  {
    RowDistances(Traj(m, p, h, s0, n), Traj(m, p, h, s1, n)).value
  }

  /** The divergence series does not depend on which run is the nominal one. */
  lemma DivergenceSymmetric(m: Scheme, p: Params, h: real, s0: State, s1: State, n: nat)
    ensures Divergence(m, p, h, s0, s1, n) == Divergence(m, p, h, s1, s0, n)
  {
    RowDistancesSymmetric(Traj(m, p, h, s0, n), Traj(m, p, h, s1, n));
  }

  /** The divergence series is identically zero exactly when the two initial
      states coincide. */
  lemma DivergenceZeroIffSameStart(m: Scheme, p: Params, h: real, s0: State, s1: State, n: nat)
    ensures (forall i :: 0 <= i <= n ==> Divergence(m, p, h, s0, s1, n)[i] == 0.0) <==> s0 == s1
  {
    if s0 == s1 {
      DivergenceFromSameStart(m, p, h, s0, n);
    } else {
      assert Divergence(m, p, h, s0, s1, n)[0] != 0.0;
    }
  }

  lemma DivergenceFromSameStart(m: Scheme, p: Params, h: real, s0: State, n: nat)
    ensures forall i :: 0 <= i <= n ==> Divergence(m, p, h, s0, s0, n)[i] == 0.0
  {
    RowDistancesSelf(Traj(m, p, h, s0, n));
  }

  /** The perturbation analysis: the three perturbacoes.py integrators from
      the initial state and from the perturbed initial state, and the row by
      row divergence of each pair. */
  method PerturbationProgram(p: Params, s0: State, t0: real, tf: real, h: real) returns (r: Result<DivergenceReport>)
    ensures r.Err? <==> h == 0.0
    ensures r.Err? ==> r.error == DivisionByZero
    ensures r.Ok? ==>
              var n := Iterations(StepCount(t0, tf, h).value);
              var s1 := Add(s0, Perturbation);
              && r.value.euler == Divergence(Euler, p, h, s0, s1, n)
              && r.value.heun == Divergence(Heun, p, h, s0, s1, n)
              && r.value.rk4 == Divergence(RK4, p, h, s0, s1, n)
              && |r.value.euler| == |r.value.heun| == |r.value.rk4| == n + 1
              && r.value.euler[0] == r.value.heun[0] == r.value.rk4[0] == 0.0003
  {
    var steps := StepCount(t0, tf, h);
    if steps.Err? {
      return Err(steps.error);
    }
    var n := steps.value;
    var trajEuler := EulerRunInline(p, s0, h, n);
    var trajHeun := HeunRunInline(p, s0, h, n);
    var trajRk4 := RK4Run(p, s0, h, n);
    var s1 := Add(s0, Perturbation);
    var pertEuler := EulerRunInline(p, s1, h, n);
    var pertHeun := HeunRunInline(p, s1, h, n);
    var pertRk4 := RK4Run(p, s1, h, n);
    var diffEuler := RowDistances(trajEuler, pertEuler);
    var diffHeun := RowDistances(trajHeun, pertHeun);
    var diffRk4 := RowDistances(trajRk4, pertRk4);
    PerturbationOffset(s0);
    r := Ok(DivergenceReport(diffEuler.value, diffHeun.value, diffRk4.value));
  }

  /** A state and its perturbed copy are the size of the perturbation apart. */
  lemma PerturbationOffset(s0: State)
    ensures SqDistance(s0, Add(s0, Perturbation)) == 0.0003
  {
    var s1 := Add(s0, Perturbation);
    assert s0.x - s1.x == -0.01 && s0.y - s1.y == -0.01 && s0.z - s1.z == -0.01;
    assert -0.01 * -0.01 == 0.0001;
  }
}
