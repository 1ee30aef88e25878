/** The Lorenz vector field over exact real arithmetic.

    A state is a point (x, y, z) of phase space; the parameters (sigma, rho,
    beta) are passed explicitly instead of being read from script-level
    globals. */
module Lorenz {

  datatype State = State(x: real, y: real, z: real)

  datatype Params = Params(sigma: real, rho: real, beta: real)

  /** The parameter values every script uses: sigma = 10, rho = 28, beta = 8/3. */
  const Classic: Params := Params(10.0, 28.0, 8.0 / 3.0)

  const Origin: State := State(0.0, 0.0, 0.0)

  function Add(a: State, b: State): State
  {
    State(a.x + b.x, a.y + b.y, a.z + b.z)
  }

  function Sub(a: State, b: State): State
  {
    State(a.x - b.x, a.y - b.y, a.z - b.z)
  }

  function Scale(c: real, a: State): State
  {
    State(c * a.x, c * a.y, c * a.z)
  }

  /** The time derivative of the Lorenz system at `s`. */
  function Deriv(p: Params, s: State): State
  {
    State(p.sigma * (s.y - s.x), s.x * (p.rho - s.z) - s.y, s.x * s.y - p.beta * s.z)
  }

  /** A fixed point (equilibrium) of the vector field. */
  predicate IsEquilibrium(p: Params, s: State)
  {
    Deriv(p, s) == Origin
  }

  /** The two non-trivial equilibria (x = y = +-sqrt(beta(rho-1)), z = rho - 1),
      described without the square root. */
  predicate IsNontrivialEquilibriumPoint(p: Params, s: State)
  {
    s.x == s.y && s.z == p.rho - 1.0 && s.x * s.x == p.beta * (p.rho - 1.0)
  }

  /** The origin is an equilibrium for every choice of parameters. */
  lemma OriginIsEquilibrium(p: Params)
    ensures IsEquilibrium(p, Origin)
  {
  }

  /** A product of reals is zero only when one factor is. */
  lemma ZeroProduct(a: real, b: real)
    requires a * b == 0.0 && a != 0.0
    ensures b == 0.0
  {
    assert b == (a * b) / a;
  }

  /** With sigma and beta non-zero, the equilibria are exactly the origin and
      the two points x = y, z = rho - 1, x * x = beta * (rho - 1). */
  lemma EquilibriumCharacterization(p: Params, s: State)
    requires p.sigma != 0.0 && p.beta != 0.0
    ensures IsEquilibrium(p, s) <==> s == Origin || IsNontrivialEquilibriumPoint(p, s)
  {
    if IsEquilibrium(p, s) {
      // dx = 0 gives y = x.
      assert p.sigma * (s.y - s.x) == 0.0;
      assert s.y == s.x;
      // dy = 0 becomes x * (rho - 1 - z) == 0.
      assert s.x * (p.rho - 1.0 - s.z) == 0.0;
      if s.x == 0.0 {
        // dz = 0 becomes beta * z == 0.
        assert p.beta * s.z == 0.0;
        assert s.z == 0.0;
      } else {
        ZeroProduct(s.x, p.rho - 1.0 - s.z);
        assert s.z == p.rho - 1.0;
        assert s.x * s.y - p.beta * s.z == 0.0;
      }
    }
  }
}
