/** The derived metrics: the local residual of a trajectory, the per-row
    distance between two trajectories, and the global error (the mean of the
    per-row distances).

    The Euclidean norm of a difference is replaced by the squared Euclidean
    distance: it is zero exactly when the norm is, it is never negative, and
    it spares the model the square root. */
module Metrics {
  import opened Lorenz
  import opened Schemes
  import opened Trajectory
  import opened Outcomes

  /** A product of two positive reals is positive. */
  lemma ProductPositive(a: real, b: real, s: real)
    requires a > 0.0 && b > 0.0 && s == a * b
    ensures s > 0.0
  {
  }

  /** A square is never negative, and positive away from zero. */
  lemma SquarePositive(a: real, s: real)
    requires s == a * a
    ensures s >= 0.0
    ensures a != 0.0 ==> s > 0.0
  {
    if a > 0.0 {
      ProductPositive(a, a, s);
    } else if a < 0.0 {
      ProductPositive(-a, -a, s);
    }
  }

  /** The squared Euclidean distance between two states: never negative, and
      zero exactly when they coincide. */
  function SqDistance(a: State, b: State): (r: real)
    ensures r >= 0.0
    ensures r == 0.0 <==> a == b
  {
    var dx, dy, dz := a.x - b.x, a.y - b.y, a.z - b.z;
    SquarePositive(dx, dx * dx);
    SquarePositive(dy, dy * dy);
    SquarePositive(dz, dz * dz);
    assert a == b <==> dx == 0.0 && dy == 0.0 && dz == 0.0;
    dx * dx + dy * dy + dz * dz
  }

  /** The squared distance between two states does not depend on their order. */
  lemma DistanceSymmetric(a: State, b: State)
    ensures SqDistance(a, b) == SqDistance(b, a)
  {
  }

  /** The discrete derivative (b - a) / h between consecutive states. */
  function DiscreteDeriv(a: State, b: State, h: real): State
    requires h != 0.0
  {
    State((b.x - a.x) / h, (b.y - a.y) / h, (b.z - a.z) / h)
  }

  /** The local residual at `a`: how far the discrete derivative from `a` to
      `b` is from the vector field at `a`. */
  function Residual(p: Params, h: real, a: State, b: State): (r: real)
    requires h != 0.0
    ensures r >= 0.0
    ensures r == 0.0 <==> DiscreteDeriv(a, b, h) == Deriv(p, a)
  {
    SqDistance(DiscreteDeriv(a, b, h), Deriv(p, a))
  }

  /** One residual per consecutive pair of states; the division by h is
      reached only when there is a pair. */
  function Residuals(p: Params, h: real, t: seq<State>): (r: seq<real>)
    requires h != 0.0 || |t| <= 1
    ensures |r| == Iterations(|t| - 1)
    ensures forall i :: 0 <= i < |r| ==> r[i] >= 0.0
    ensures forall i :: 0 <= i < |r| ==>
              (r[i] == 0.0 <==> DiscreteDeriv(t[i], t[i + 1], h) == Deriv(p, t[i]))
  {
    seq(Iterations(|t| - 1), i requires 0 <= i < |t| - 1 => Residual(p, h, t[i], t[i + 1]))
  }

  /** The residual loop: one residual appended per consecutive pair. */
  method ResidualLoop(p: Params, t: seq<State>, h: real) returns (residuos: seq<real>)
    requires h != 0.0 || |t| <= 1
    ensures residuos == Residuals(p, h, t)
  {
    residuos := [];
    var i := 0;
    while i < |t| - 1
      invariant 0 <= i <= Iterations(|t| - 1)
      invariant |residuos| == i
      invariant forall j :: 0 <= j < i ==> residuos[j] == Residual(p, h, t[j], t[j + 1])
    {
      residuos := residuos + [Residual(p, h, t[i], t[i + 1])];
      i := i + 1;
    }
  }

  /** The discrete derivative across an Euler step is exactly the slope the
      step used. */
  lemma EulerDiscreteDerivIsSlope(p: Params, h: real, s: State)
    requires h != 0.0
    ensures DiscreteDeriv(s, EulerStep(p, h, s), h) == Deriv(p, s)
  {
    var d := Deriv(p, s);
    var next := EulerStep(p, h, s);
    assert next == State(s.x + h * d.x, s.y + h * d.y, s.z + h * d.z);
    assert (s.x + h * d.x - s.x) / h == d.x;
    assert (s.y + h * d.y - s.y) / h == d.y;
    assert (s.z + h * d.z - s.z) / h == d.z;
  }

  /** In exact arithmetic every residual of an Euler trajectory is zero. */
  lemma EulerResidualsZero(p: Params, h: real, s0: State, n: nat)
    requires h != 0.0
    ensures var r := Residuals(p, h, Traj(Euler, p, h, s0, n));
            |r| == n && forall i :: 0 <= i < n ==> r[i] == 0.0
  {
    var t := Traj(Euler, p, h, s0, n);
    forall i | 0 <= i < n
      ensures DiscreteDeriv(t[i], t[i + 1], h) == Deriv(p, t[i])
    {
      TrajStep(Euler, p, h, s0, n, i);
      EulerDiscreteDerivIsSlope(p, h, t[i]);
    }
  }

  /** The residuals of an n-step trajectory line up with the first n points
      of the plotting grid linspace(t0, tf, n + 1). */
  lemma ResidualsMatchPlotGrid(p: Params, h: real, t: seq<State>, t0: real, tf: real)
    requires h != 0.0 && |t| >= 1
    ensures |Residuals(p, h, t)| == |Linspace(t0, tf, |t|)[..|t| - 1]|
  {
  }

  /** The per-row distances of two trajectories stacked as arrays, with
      numpy's broadcasting: equal row counts are compared row by row, a
      single row is compared with every row of the other, and any other pair
      of shapes cannot be subtracted. */
  function RowDistances(a: seq<State>, b: seq<State>): (r: Result<seq<real>>)
    ensures r.Ok? <==> |a| == |b| || |a| == 1 || |b| == 1
    ensures r.Err? ==> r.error == GridMismatch
    ensures r.Ok? ==> |r.value| == (if |a| == 1 then |b| else |a|)
    ensures r.Ok? ==> forall i :: 0 <= i < |r.value| ==> r.value[i] >= 0.0
    ensures r.Ok? && |a| == |b| ==> forall i :: 0 <= i < |a| ==> (r.value[i] == 0.0 <==> a[i] == b[i])
  {
    if |a| == |b| then
      Ok(seq(|a|, i requires 0 <= i < |a| => SqDistance(a[i], b[i])))
    else if |a| == 1 then Ok(seq(|b|, i requires 0 <= i < |b| => SqDistance(a[0], b[i])))
    else if |b| == 1 then Ok(seq(|a|, i requires 0 <= i < |a| => SqDistance(a[i], b[0])))
    else Err(GridMismatch)
  }

  /** Comparing two trajectories does not depend on which one comes first. */
  lemma RowDistancesSymmetric(a: seq<State>, b: seq<State>)
    ensures RowDistances(a, b) == RowDistances(b, a)
  {
    var r := RowDistances(a, b);
    var q := RowDistances(b, a);
    if r.Ok? {
      assert |r.value| == |q.value|;
      forall i | 0 <= i < |r.value|
        ensures r.value[i] == q.value[i]
      {
        if |a| == |b| {
          DistanceSymmetric(a[i], b[i]);
        } else if |a| == 1 {
          DistanceSymmetric(a[0], b[i]);
        } else {
          DistanceSymmetric(a[i], b[0]);
        }
      }
      assert r.value == q.value;
    }
  }

  function Sum(r: seq<real>): real
  {
    if |r| == 0 then 0.0 else Sum(r[..|r| - 1]) + r[|r| - 1]
  }

  /** A sum of non-negative terms is non-negative, and zero exactly when
      every term is. */
  lemma {:induction false} SumOfNonNegative(r: seq<real>)
    requires forall i :: 0 <= i < |r| ==> r[i] >= 0.0
    ensures Sum(r) >= 0.0
    ensures Sum(r) == 0.0 <==> forall i :: 0 <= i < |r| ==> r[i] == 0.0
  {
    if |r| > 0 {
      var front := r[..|r| - 1];
      assert forall i :: 0 <= i < |front| ==> front[i] == r[i];
      SumOfNonNegative(front);
    }
  }

  /** Dividing by a positive count keeps the sign and the zeroes. */
  lemma QuotientSign(s: real, n: real)
    requires n > 0.0
    ensures s >= 0.0 ==> s / n >= 0.0
    ensures s / n == 0.0 <==> s == 0.0
  {
    assert s == (s / n) * n;
  }

  /** numpy's mean; the mean of no values is undefined. */
  function Mean(r: seq<real>): (m: Result<real>)
    ensures m.Err? <==> |r| == 0
    ensures m.Err? ==> m.error == EmptyMean
    ensures m.Ok? ==> m.value * (|r| as real) == Sum(r)
  {
    if |r| == 0 then Err(EmptyMean) else Ok(Sum(r) / |r| as real)
  }

  /** The mean of non-negative values is non-negative, and zero exactly when
      every value is. */
  lemma MeanOfNonNegative(r: seq<real>)
    requires |r| > 0
    requires forall i :: 0 <= i < |r| ==> r[i] >= 0.0
    ensures Mean(r).Ok? && Mean(r).value >= 0.0
    ensures Mean(r).value == 0.0 <==> forall i :: 0 <= i < |r| ==> r[i] == 0.0
  {
    SumOfNonNegative(r);
    QuotientSign(Sum(r), |r| as real);
  }

  /** The global error between a reference trajectory and another one: the
      mean of their per-row distances. */
  function GlobalError(reference: seq<State>, t: seq<State>): (e: Result<real>)
    ensures e.Err? ==> e.error == GridMismatch || e.error == EmptyMean
  {
    match RowDistances(reference, t)
    case Err(err) => Err(err)
    case Ok(d) => Mean(d)
  }

  /** A trajectory is at distance zero from itself on every row. */
  lemma RowDistancesSelf(t: seq<State>)
    ensures RowDistances(t, t).Ok?
    ensures forall i :: 0 <= i < |t| ==> RowDistances(t, t).value[i] == 0.0
  {
  }

  /** Two trajectories of the same length are at distance zero on every row
      exactly when they are equal. */
  lemma RowDistancesZeroIffEqual(a: seq<State>, b: seq<State>)
    requires |a| == |b|
    ensures var d := RowDistances(a, b).value;
            (forall i :: 0 <= i < |d| ==> d[i] == 0.0) <==> a == b
  {
    var d := RowDistances(a, b).value;
    if forall i :: 0 <= i < |d| ==> d[i] == 0.0 {
      assert forall i :: 0 <= i < |a| ==> a[i] == b[i];
    }
  }

  /** For trajectories of the same non-zero length the global error is
      defined, never negative, and zero exactly when the trajectories
      coincide. */
  lemma GlobalErrorZeroIffEqual(reference: seq<State>, t: seq<State>)
    requires |reference| == |t| >= 1
    ensures GlobalError(reference, t).Ok?
    ensures GlobalError(reference, t).value >= 0.0
    ensures GlobalError(reference, t).value == 0.0 <==> reference == t
  {
    var d := RowDistances(reference, t).value;
    assert GlobalError(reference, t) == Mean(d);
    MeanOfNonNegative(d);
    RowDistancesZeroIffEqual(reference, t);
  }

  /** A trajectory has zero global error against itself. */
  lemma GlobalErrorSelf(t: seq<State>)
    requires |t| >= 1
    ensures GlobalError(t, t) == Ok(0.0)
  {
    GlobalErrorZeroIffEqual(t, t);
  }

  /** The global error does not depend on which trajectory is the reference. */
  lemma GlobalErrorSymmetric(a: seq<State>, b: seq<State>)
    ensures GlobalError(a, b) == GlobalError(b, a)
  {
    RowDistancesSymmetric(a, b);
  }

  /** Whatever the shapes, a global error that is defined is never negative. */
  lemma GlobalErrorNonNegative(a: seq<State>, b: seq<State>)
    ensures GlobalError(a, b).Ok? ==> GlobalError(a, b).value >= 0.0
  {
    var r := RowDistances(a, b);
    if r.Ok? && |r.value| > 0 {
      MeanOfNonNegative(r.value);
    }
  }
}
