/** Trajectories: the sequence of states that a driver loop builds by applying
    one scheme a fixed number of times, and the time grid it is plotted on. */
module Trajectory {
  import opened Lorenz
  import opened Schemes
  import opened Outcomes

  /** The number of iterations of a loop over range(n): none when n is negative. */
  function Iterations(n: int): nat
  {
    if n < 0 then 0 else n
  }

  /** The states visited by `n` steps of scheme `m` from `s0`, the initial
      state first. */
  function Traj(m: Scheme, p: Params, h: real, s0: State, n: nat): (t: seq<State>)
    ensures |t| == n + 1
    ensures t[0] == s0
  {
    if n == 0 then [s0]
    else
      var prev := Traj(m, p, h, s0, n - 1);
      prev + [Step(m, p, h, prev[n - 1])]
  }

  /** A shorter run is a prefix of a longer one from the same initial state. */
  lemma {:induction false} TrajPrefix(m: Scheme, p: Params, h: real, s0: State, k: nat, n: nat)
    requires k <= n
    ensures Traj(m, p, h, s0, k) == Traj(m, p, h, s0, n)[..k + 1]
  {
    if k < n {
      TrajPrefix(m, p, h, s0, k, n - 1);
      assert Traj(m, p, h, s0, n)[..n] == Traj(m, p, h, s0, n - 1);
    }
  }

  /** Each element of a trajectory is one step of the element before it. */
  lemma TrajStep(m: Scheme, p: Params, h: real, s0: State, n: nat, i: nat)
    requires i < n
    ensures Traj(m, p, h, s0, n)[i + 1] == Step(m, p, h, Traj(m, p, h, s0, n)[i])
  {
  }

  /** Running n + k steps is running n steps and then k more steps from the
      state reached: the driver loop has no memory beyond its current state. */
  lemma {:induction false} TrajConcat(m: Scheme, p: Params, h: real, s0: State, n: nat, k: nat)
    ensures Traj(m, p, h, s0, n + k)
         == Traj(m, p, h, s0, n) + Traj(m, p, h, Traj(m, p, h, s0, n)[n], k)[1..]
  {
    if k > 0 {
      TrajConcat(m, p, h, s0, n, k - 1);
      var mid := Traj(m, p, h, s0, n)[n];
      var before := Traj(m, p, h, mid, k - 1);
      var prefix := Traj(m, p, h, s0, n + k - 1);
      assert prefix[n + k - 1] == before[k - 1];
      assert Traj(m, p, h, mid, k)[1..] == before[1..] + [Step(m, p, h, before[k - 1])];
    }
  }

  /** From an equilibrium every scheme produces a constant trajectory. */
  lemma {:induction false} EquilibriumTrajIsConstant(m: Scheme, p: Params, h: real, s0: State, n: nat)
    requires IsEquilibrium(p, s0)
    ensures forall i :: 0 <= i < |Traj(m, p, h, s0, n)| ==> Traj(m, p, h, s0, n)[i] == s0
  {
    if n > 0 {
      EquilibriumTrajIsConstant(m, p, h, s0, n - 1);
      StepFixesEquilibrium(m, p, h, s0);
    }
  }

  /** Python's int() on a real: truncation toward zero. */
  function Truncate(q: real): (r: int)
    ensures q >= 0.0 ==> r as real <= q < r as real + 1.0
    ensures q < 0.0 ==> r as real - 1.0 < q <= r as real
  {
    if q >= 0.0 then q.Floor else -((-q).Floor)
  }

  /** The step count int((tf - t0) / h); a zero step size makes the division
      raise. */
  function StepCount(t0: real, tf: real, h: real): (r: Result<int>)
    ensures r.Err? <==> h == 0.0
    ensures r.Err? ==> r.error == DivisionByZero
    ensures h > 0.0 && t0 <= tf && r.Ok? ==>
              r.value >= 0 && r.value as real * h <= tf - t0 < (r.value + 1) as real * h
  {
    if h == 0.0 then Err(DivisionByZero)
    else
      var q := (tf - t0) / h;
      var k := Truncate(q);
      if h > 0.0 && q >= 0.0 then
        ScaleBounds(k as real, q, (k + 1) as real, h);
        Ok(k)
      else Ok(k)
  }

  /** Multiplying a <= q < b by a positive h keeps the order. */
  lemma ScaleBounds(a: real, q: real, b: real, h: real)
    requires h > 0.0 && a <= q < b
    ensures a * h <= q * h < b * h
  {
  }

  /** With a positive step over a non-empty interval, every scheme's trajectory
      has floor((tf - t0) / h) + 1 states. */
  lemma TrajLengthFromInterval(m: Scheme, p: Params, s0: State, t0: real, tf: real, h: real)
    requires h > 0.0 && t0 <= tf
    ensures StepCount(t0, tf, h).Ok?
    ensures |Traj(m, p, h, s0, Iterations(StepCount(t0, tf, h).value))| == ((tf - t0) / h).Floor + 1
  {
    assert (tf - t0) / h >= 0.0;
  }

  /** The uniform time grid t0 + i * h, i = 0 .. n. */
  function TimeGrid(t0: real, h: real, n: nat): (g: seq<real>)
    ensures |g| == n + 1
  {
    seq(n + 1, i => t0 + i as real * h)
  }

  /** numpy's linspace(start, stop, num): num evenly spaced points, both ends
      included. */
  function Linspace(start: real, stop: real, num: nat): (g: seq<real>)
    ensures |g| == num
    ensures num >= 1 ==> g[0] == start
    ensures num >= 2 ==> g[num - 1] == stop
  {
    if num == 0 then []
    else if num == 1 then [start]
    else
      var step := (stop - start) / (num - 1) as real;
      seq(num, i => start + i as real * step)
  }

  /** When n steps of size h span [t0, tf] exactly, the plotting grid
      linspace(t0, tf, n + 1) is the integration grid t0 + i * h. */
  lemma LinspaceIsTimeGrid(t0: real, tf: real, h: real, n: nat)
    requires n as real * h == tf - t0
    ensures Linspace(t0, tf, n + 1) == TimeGrid(t0, h, n)
  {
    if n > 0 {
      assert (tf - t0) / n as real == h;
      forall i | 0 <= i < n + 1
        ensures Linspace(t0, tf, n + 1)[i] == TimeGrid(t0, h, n)[i]
      {
      }
    } else {
      assert TimeGrid(t0, h, n)[0] == t0;
    }
  }

  /** Conversely, once there is at least one step, the two grids agree only
      when the n steps of size h span [t0, tf] exactly: their last points are
      tf and t0 + n * h. With n = 0 both grids are [t0] whatever tf and h are. */
  lemma TimeGridIsLinspaceOnlyOnExactSpan(t0: real, tf: real, h: real, n: nat)
    requires n >= 1 && Linspace(t0, tf, n + 1) == TimeGrid(t0, h, n)
    ensures n as real * h == tf - t0
  {
    assert Linspace(t0, tf, n + 1)[n] == tf;
    assert TimeGrid(t0, h, n)[n] == t0 + n as real * h;
  }
}
