# Lorenz fixed-step integration, modelled in Dafny

This project models the numerical core of four analysis scripts for the Lorenz
system dx/dt = sigma (y - x), dy/dt = x (rho - z) - y, dz/dt = x y - beta z.
The scripts share one integration engine:

- the vector field `sistema_lorenz`;
- three explicit one-step schemes, each driven by a loop that appends every
  state to a list: explicit Euler, Heun's predictor-corrector and classical
  fourth-order Runge-Kutta;
- three metrics computed from the trajectories: the local residual
  `calcular_residuo`, the global error `calcular_erro_global`, and the row by
  row divergence between a nominal and a perturbed run.

The model uses exact `real` arithmetic. The parameters sigma, rho and beta
are a `Params` value passed explicitly, not script-level globals.

Modules, one file each:

- `lorenz.dfy` (`Lorenz`): states, parameters, vector operations, the vector
  field, and its equilibria.
- `schemes.dfy` (`Schemes`): the three one-step schemes as pure functions.
- `outcomes.dfy` (`Outcomes`): the error conditions the scripts can hit, and a
  `Result` type.
- `trajectory.dfy` (`Trajectory`): the trajectory a driver loop builds
  (`Traj`), the step count `int((tf - t0) / h)`, the loop count of
  `range(n)`, and numpy's `linspace`.
- `integrators.dfy` (`Integrators`): the driver loops as methods with `while`
  loops, each proved to return `Traj` of its scheme. The Euler and Heun loops
  update the local coordinates `x, y, z`; the Runge-Kutta loop rebinds a whole
  state. The Euler and Heun loops come in two forms:
  - residuo.py calls `sistema_lorenz`;
  - the other three scripts write the derivative out inline.
- `metrics.dfy` (`Metrics`): the squared distance, the residual loop, the per-row
  distances with numpy's broadcasting rule, the mean, and the global error.
- `analyses.dfy` (`Analyses`): the main programs of residuo.py,
  atrator_lorenz.py and perturbacoes.py, with the scripts' constants.

## Model

| member | source | states |
|---|---|---|
| Lorenz.OriginIsEquilibrium | residuo.py:16-21 | the vector field vanishes at the origin for every choice of parameters |
| Lorenz.EquilibriumCharacterization | residuo.py:16-21 | for sigma, beta non-zero, the field vanishes exactly at the origin and at the points x = y, z = rho - 1, x^2 = beta (rho - 1) |
| Schemes.StepFixesEquilibrium | residuo.py:25-66 | Euler, Heun and RK4 steps all map an equilibrium to itself, for every step size |
| Schemes.HeunIsMeanOfStateAndTwoEulerSteps | erro_global.py:41-55 | a Heun step is the midpoint of s and the Euler step taken from the Euler predictor: the corrector averages the Euler slope and the slope at the predictor |
| Schemes.HeunSlopeDefect | residuo.py:42-50 | for h != 0, the discrete derivative of a Heun step is f(s) minus half the change of slope between s and the predictor |
| Schemes.RK4WeightsSumToOne | residuo.py:64 | the RK4 combination (k1 + 2 k2 + 2 k3 + k4) / 6 of four equal stages is that stage |
| Trajectory.Traj | residuo.py:25-34 | an n-step trajectory has n + 1 states and starts with the initial state |
| Trajectory.TrajStep | residuo.py:28-33 | each element of a trajectory is one step of the scheme applied to the element before it |
| Trajectory.TrajPrefix | erro_global.py:67-76 | the k-step trajectory is the prefix of length k + 1 of every longer trajectory from the same state |
| Trajectory.TrajConcat | erro_global.py:67-76 | n + k steps are n steps followed by k steps from the state reached: the loop carries no state beyond `estado` |
| Trajectory.EquilibriumTrajIsConstant | atrator_lorenz.py:22-78 | from an equilibrium, every element of every scheme's trajectory is the initial state |
| Trajectory.Truncate | erro_global.py:17-18 | Python's int(): the integer part, rounded toward zero, for both signs |
| Trajectory.StepCount | erro_global.py:17-18 | int((tf - t0) / h) fails exactly when h is zero; for h > 0 and t0 <= tf it is the largest k with k h <= tf - t0 |
| Trajectory.TrajLengthFromInterval | erro_global.py:17-34 | with h > 0 over [t0, tf], every trajectory has floor((tf - t0) / h) + 1 states |
| Trajectory.Linspace | residuo.py:89 | linspace(start, stop, num) has num points, starting at start and ending at stop |
| Trajectory.LinspaceIsTimeGrid | residuo.py:89 | when n h = tf - t0 exactly, linspace(t0, tf, n + 1) is the integration grid t0 + i h |
| Trajectory.TimeGridIsLinspaceOnlyOnExactSpan | residuo.py:89 | for n >= 1, linspace(t0, tf, n + 1) equal to the grid t0 + i h forces n h = tf - t0 |
| Integrators.DerivAt | erro_global.py:60-65 | the inline derivative (dx, dy, dz) written out on x, y, z is the vector field at (x, y, z) |
| Integrators.EulerViaDeriv | residuo.py:29-32 | adding h times the slope from `sistema_lorenz` to each coordinate is one Euler step |
| Integrators.EulerInline | erro_global.py:27-32 | the inline slopes followed by `x += h*dx` updates are one Euler step |
| Integrators.HeunViaDeriv | residuo.py:42-50 | the predictor from the first slope, then the mean of both slopes, is one Heun step |
| Integrators.HeunInline | erro_global.py:41-55 | the inline predictor and corrector slopes then the Heun update are one Heun step |
| Integrators.EulerRun | residuo.py:25-34 | the loop returns the Euler trajectory of Iterations(n) steps |
| Integrators.EulerRunInline | erro_global.py:23-34 | the inline loop returns the Euler trajectory of Iterations(n) steps |
| Integrators.HeunRun | residuo.py:38-53 | the loop returns the Heun trajectory of Iterations(n) steps |
| Integrators.HeunRunInline | erro_global.py:37-57 | the inline loop returns the Heun trajectory of Iterations(n) steps |
| Integrators.RK4Run | residuo.py:57-66 | the loop that rebinds `estado` returns the RK4 trajectory of Iterations(n) steps; its first element is the input state |
| Metrics.SqDistance | residuo.py:75 | the squared distance between two states is never negative and is zero exactly when they coincide |
| Metrics.DistanceSymmetric | perturbacoes.py:92-94 | the squared distance between two states does not depend on their order |
| Metrics.Residual | residuo.py:73-75 | a residual is never negative, and is zero exactly when the discrete derivative equals the vector field at the earlier state |
| Metrics.Residuals | residuo.py:70-77 | there are len(trajetoria) - 1 residuals (none for an empty trajectory), each non-negative and zero exactly when the discrete derivative matches the field |
| Metrics.ResidualLoop | residuo.py:70-77 | the residual loop returns the residual series of the trajectory |
| Metrics.EulerDiscreteDerivIsSlope | residuo.py:29-32 | across an Euler step, (next - s) / h is exactly f(s) |
| Metrics.EulerResidualsZero | residuo.py:73-75 | an n-step Euler trajectory has n residuals, all exactly zero in real arithmetic |
| Metrics.ResidualsMatchPlotGrid | residuo.py:94 | the residual series is as long as tempo[:-1] |
| Metrics.RowDistances | erro_global.py:104 | per-row distances are defined exactly when the row counts match or one side has one row; otherwise a shape error. Every distance is non-negative, and with equal row counts a distance is zero exactly when the rows are equal |
| Metrics.RowDistancesSymmetric | perturbacoes.py:92-94 | the per-row distances do not depend on the order of the two trajectories |
| Metrics.RowDistancesSelf | erro_global.py:104 | a trajectory is at distance zero from itself on every row |
| Metrics.RowDistancesZeroIffEqual | erro_global.py:104 | for equal row counts, every distance is zero exactly when the trajectories are equal |
| Metrics.SumOfNonNegative | erro_global.py:105 | a sum of non-negative values is non-negative, and zero exactly when every value is |
| Metrics.Mean | erro_global.py:105 | the mean is undefined exactly on an empty series; otherwise it times the count is the sum |
| Metrics.MeanOfNonNegative | erro_global.py:105 | the mean of non-negative values is non-negative, and zero exactly when every value is |
| Metrics.GlobalError | erro_global.py:102-105 | the global error fails only with a shape error or an empty mean |
| Metrics.GlobalErrorZeroIffEqual | erro_global.py:102-105 | for equal lengths >= 1 the global error is defined, non-negative, and zero exactly when the trajectories are equal |
| Metrics.GlobalErrorSelf | erro_global.py:102-105 | calcular_erro_global(T, T) = 0 for a non-empty T |
| Metrics.GlobalErrorSymmetric | erro_global.py:102-105 | the global error does not depend on which trajectory is the reference |
| Metrics.GlobalErrorNonNegative | erro_global.py:102-105 | whenever the global error is defined it is non-negative, broadcast shapes included |
| Analyses.ScriptInitialStateMoves | residuo.py:11-12 | with sigma = 10, rho = 28, beta = 8/3 the initial state (rho - 1, eta, eta - 3) is not an equilibrium |
| Analyses.ScriptStepCounts | residuo.py:8-10 | the step counts the scripts derive: 10000 (residuo.py), 100000 and 10000 (erro_global.py), 50000 (perturbacoes.py), 10000 (atrator_lorenz.py) |
| Analyses.FineAndCoarseRunsDoNotAlign | erro_global.py:80-85 | the fine reference run and a coarse run cannot be compared row by row without resampling |
| Analyses.ResidualProgram | residuo.py:81-89 | fails on h = 0 and on a step count below -1 (linspace with a negative size). Otherwise it returns three residual series, one per method, plus the plot grid tempo[:-1], all of the same length. The Euler residuals are all zero; the Heun and RK4 residuals are those of their trajectories |
| Analyses.AttractorProgram | atrator_lorenz.py:82-84 | fails exactly on h = 0; otherwise the three trajectories are those of their schemes, of equal length n + 1, all starting at the initial state |
| Analyses.PerturbationOffset | perturbacoes.py:84 | a state and its copy shifted by the perturbation (0.01, 0.01, 0.01) are 0.0003 apart in squared distance |
| Analyses.Divergence | perturbacoes.py:92-94 | a divergence series has one value per state, each non-negative; the first is the squared distance of the two initial states |
| Analyses.DivergenceSymmetric | perturbacoes.py:92-94 | the divergence series is symmetric in the nominal and the perturbed run |
| Analyses.DivergenceFromSameStart | perturbacoes.py:92-94 | two runs from the same state have divergence zero throughout |
| Analyses.DivergenceZeroIffSameStart | perturbacoes.py:84-94 | the divergence series is identically zero exactly when the two initial states coincide |
| Analyses.PerturbationProgram | perturbacoes.py:79-94 | fails exactly on h = 0. Otherwise it returns three divergence series, one per method, each comparing the run from s0 with the run from s0 + perturbation. They are length-aligned (n + 1 values) and each starts at 0.0003 |

## Left out

- Floating point: rounding, overflow, and the NaN or infinity an unstable Euler run can reach. The model computes over exact reals, so it says nothing about bit-for-bit results.
- Metrics.SqDistance: it is the squared Euclidean distance, not `np.linalg.norm` of the difference, because the model has no square root. Being zero, being non-negative and symmetry carry over; the numeric values do not.
- Metrics.GlobalError: it is the mean of squared distances, not the mean of distances, because it is built on `SqDistance`.
- Analyses.Divergence: its values, including the initial 0.0003, are squared distances. The script's initial divergence is the square root, sqrt(3) * 0.01.
- The square root in `eta`: the initial state (rho - 1, eta, eta - 3) is a parameter of each program. `Analyses.IsScriptInitialState` describes eta only through eta >= 0 and eta^2 = beta (rho - 1).
- Resampling with `scipy.interpolate.interp1d` and the resampling grids (erro_global.py:87-99) are a foreign library call. For that reason the main program of erro_global.py (lines 80-110) is not modelled as a whole. `Metrics.GlobalError` takes the already-aligned trajectories, and `Analyses.FineAndCoarseRunsDoNotAlign` shows why alignment is needed.
- Metrics.Residual, Metrics.Residuals and Metrics.ResidualLoop: they require h != 0 whenever there is a pair of states. numpy divides by zero without raising and produces infinities or NaN there, which real arithmetic cannot express.
- Metrics.Mean: numpy's mean of an empty array is NaN with a warning; the model reports `EmptyMean` instead.
- Error paths: a `ZeroDivisionError` becomes `DivisionByZero`, and a broadcasting `ValueError` becomes `GridMismatch`.
- Analyses.ResidualProgram: linspace's `ValueError` for a negative sample count becomes `NegativeSamples`.
- Plotting (matplotlib) and `print` formatting are output only.
- Claims that need analysis beyond the discrete recurrence: the order of accuracy of the residuals, and the chaotic growth of the perturbation divergence.
- Cost claims, such as two vector-field evaluations per Heun step, are not modelled; only the returned values are.
- numpy arrays become `seq<State>`. Values are immutable in the model, so `.copy()` and the rebinding of `estado` need no separate treatment: the RK4 loop's first element is the input state by its contract.

## Arithmetic of the scripts

- The step count is `int((tf - t0) / h)`. Python's `int()` truncates toward zero, so for t0 <= tf and h > 0 it is the floor of the quotient (`Trajectory.TrajLengthFromInterval`). A negative quotient is rounded up, and the loops then run zero times.
- Subtracting two trajectories stacked as arrays follows numpy's broadcasting: equal row counts are compared row by row, a one-row array is compared with every row of the other, and any other pair of row counts makes the subtraction fail (`Metrics.RowDistances`).
- The plot grid is `linspace(t0, tf, n + 1)`. It is the integration grid t0 + i h when n h = tf - t0 (`Trajectory.LinspaceIsTimeGrid`), and for n >= 1 only then (`Trajectory.TimeGridIsLinspaceOnlyOnExactSpan`); with n = 0 both grids are the single point t0.
