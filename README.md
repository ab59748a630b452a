# Robust topology optimisation driver — decision and control logic

This project models the driver layer of a GPU robust topology optimiser,
`optimization/optimization.cpp`: the code that selects the analysis modes from
strings, stores the output path and parameters, runs the worst-case load
analysis (the modified power method and its incomplete variant), solves the
finite-element system, and runs the two outer optimisation loops (the density
driver `optimization` and the spline driver `optimization_ss` with
self-support and drip constraints).

The numeric kernels (V-cycles, force projection, compliance, sensitivities,
MMA) are not modelled. Each loop receives what those kernels report as an
input function indexed by the iteration that produced it (`PowerMethod.Kernels`,
`Driver.Readings`). A reading may be NaN (`Numbers.Double`), because the driver
tests for NaN and IEEE comparisons with NaN are false. The driver's
`exit(-1)` paths are modelled as `Err` results (`Outcomes.SolverError`).

Files and modules:

- `numbers.dfy` (`Numbers`): doubles with NaN, and their comparisons.
- `outcomes.dfy` (`Outcomes`): `Option`, `Result` and the error kinds.
- `modes.dfy` (`Modes`): the work, self-support and drip modes and their string names.
- `settings.dfy` (`Settings`): the `Configuration` class. It holds the state that
  `setWorkMode`, `setSSMode`, `setDripMode`, `setOutpurDir` and `setParameters`
  update in place.
- `schedules.dfy` (`Schedules`): the continuation schedules. These are the
  volume goal and its clamp, the self-support scale, the drip scale and the
  Heaviside sharpness `para_beta`.
- `powermethod.dfy` (`PowerMethod`): `modifiedPM`, `inCompleteModiPM` and
  `solveFEM`, as loops over the kernel readings. The two power methods are
  proved against first-stop specification functions. `SolveFEM` states its
  first-cycle property directly in its postcondition.
- `driver.dfy` (`Driver`): the outer loops. Each is proved against a
  per-iteration decision function. The body of one spline-driver iteration is
  a method of its own (`SplineIteration`).

Facts of the C++ driver that the model records:

- `para_beta` is read outside any `#ifdef` (`optimization.cpp:1048`), so the
  spline driver only builds with the Heaviside projection enabled. The model
  therefore always runs the beta schedule.
- The sharpness starts at 4 (`optimization.cpp:806`). It doubles on a
  20th iteration only while it is below 8 (`optimization.cpp:1053`). That
  update comes after the stop test (`optimization.cpp:996`), so the sharpness
  doubles at most once: after iteration 20, and only if that iteration
  continues.
- The scale schedules have thresholds up to iteration 200, but the outer loop
  stops after 100 iterations. The self-support scale therefore never exceeds
  1e6 and the drip scale never exceeds 1e7.
- The stop test of the spline driver compares the goal with the ratio without
  the `1e-3` slack that the density driver allows.

## Model

| member | source | states |
|---|---|---|
| Modes.ParseWorkMode | optimization/optimization.cpp:99-117 | accepted exactly when the string is one of the four work-mode names; the accepted mode's name is the string; any other string is an InvalidMode error carrying the string |
| Modes.ParseSSMode | optimization/optimization.cpp:119-144 | accepted exactly for the six self-support names; the result's name is the input; otherwise InvalidMode with the string |
| Modes.ParseDripMode | optimization/optimization.cpp:146-176 | accepted exactly for the eight drip names; the result's name is the input; otherwise InvalidMode with the string |
| Modes.WorkModeRoundTrip | optimization/optimization.cpp:99-117 | every work mode is selected by its own name (so the name-to-mode map is one-to-one) |
| Modes.SSModeRoundTrip | optimization/optimization.cpp:119-144 | every self-support mode is selected by its own name |
| Modes.DripModeRoundTrip | optimization/optimization.cpp:146-176 | every drip mode is selected by its own name |
| Modes.DripExtendsSelfSupport | optimization/optimization.cpp:119-176 | the drip selector accepts the self-support names plus "exp" and "exp2", and maps each shared name to the matching variant |
| Settings.Configuration.SetWorkMode | optimization/optimization.cpp:99-117 | the result is the selector's result; the work mode is replaced only on success, and an unknown name leaves the configuration untouched and reports the error |
| Settings.Configuration.SetSSMode | optimization/optimization.cpp:119-144 | as SetWorkMode, for the self-support mode |
| Settings.Configuration.SetDripMode | optimization/optimization.cpp:146-176 | as SetWorkMode, for the drip mode |
| Settings.WithTrailingSeparator | optimization/optimization.cpp:68-75 | the stored path ends in `\` or `/`; it starts with the given path; exactly one `\` is appended when the given path lacks a separator, and nothing otherwise |
| Settings.TrailingSeparatorIdempotent | optimization/optimization.cpp:68-75 | normalising an already normalised path changes nothing |
| Settings.Configuration.SetOutputDir | optimization/optimization.cpp:68-91 | the stored output path is the normalised given path, and nothing else changes |
| Settings.IsosurfaceValue | optimization/optimization.cpp:57 | the iso-surface level is equidistant from both coefficient bounds, hence between them when they are ordered |
| Settings.Configuration.SetParameters | optimization/optimization.cpp:36-57 | stores the volume ratio, decrease rate and coefficient bounds, with the iso-surface level derived from the bounds |
| Schedules.VolumeUpdate | optimization/optimization.cpp:706-710 | the constraint value is the shrunk goal minus the ratio, taken before the clamp; the new goal is never below the ratio or the shrunk goal, and is one of the two |
| Schedules.GoalStaysAtRatio | optimization/optimization.cpp:691-710 | starting at the target ratio with a non-negative decrease rate, the goal equals the ratio in every iteration |
| Schedules.ConstraintNonPositive | optimization/optimization.cpp:706-710 | under the same conditions the constraint value handed to the convergence criterion is the ratio shrunk by the decrease rate minus the ratio, which is never positive |
| Schedules.GoalsNonIncreasing | optimization/optimization.cpp:862-864 | from any start at or above a non-negative ratio, with a non-negative decrease rate, the goal never increases from one iteration to the next and never falls below the ratio |
| Schedules.GoalStaysClamped | optimization/optimization.cpp:862-864 | once the goal has been clamped to the target ratio, it stays at the ratio in every later iteration |
| Schedules.SSScaleUpdate | optimization/optimization.cpp:921-945 | up to iteration 25 the scale keeps its value; past it the scale is one of the staged values 1e4 to 1e8, at most 1e6 within 100 iterations; a scale of at most 1e4 is never lowered |
| Schedules.SSScaleStep | optimization/optimization.cpp:921-945 | the in-loop threshold update applied to the previous iteration's scale gives the closed-form scale of this iteration |
| Schedules.SSScaleMonotone | optimization/optimization.cpp:846-945 | the self-support scale starts at 1e3, never decreases, and never exceeds 1e8 |
| Schedules.SSScaleUnderCap | optimization/optimization.cpp:921-945 | within 100 iterations the scale is one of 1e3, 1e4, 1e5, 1e6 (the 1e7, 5e7 and 1e8 branches are unreachable) |
| Schedules.DripScaleUpdate | optimization/optimization.cpp:969-984 | up to iteration 40 the scale keeps its value; past it the scale is one of 1e6 to 1e9, at most 1e7 within 100 iterations; a scale of at most 1e6 is never lowered |
| Schedules.DripScaleStep | optimization/optimization.cpp:969-984 | the in-loop drip update applied to the previous scale gives the closed form |
| Schedules.DripScaleMonotone | optimization/optimization.cpp:847-984 | the drip scale starts at 1e5, never decreases, and never exceeds 1e9 |
| Schedules.DripScaleUnderCap | optimization/optimization.cpp:969-984 | within 100 iterations the drip scale is one of 1e5, 1e6, 1e7 (the 1e8 and 1e9 branches are unreachable) |
| Schedules.BetaUpdate | optimization/optimization.cpp:1053-1056 | the sharpness either stays or doubles; it stays unless the iteration is a multiple of 20 and the sharpness is below 8; for positive iterations those two conditions suffice to double it; a non-negative sharpness never decreases, and one at most 8 stays below 16 |
| Schedules.BetaClosedForm | optimization/optimization.cpp:1053-1056 | the sharpness used in iteration n is 4 up to iteration 20 and 8 from iteration 21 on |
| Schedules.BetaBounded | optimization/optimization.cpp:1053-1056 | the sharpness is always 4 or 8; it doubles exactly once, after iteration 20 |
| PowerMethod.StopCycle | optimization/optimization.cpp:243-292 | the first cycle at which the power method stops: it is within 1..500, it meets the stop condition (cap, divergence, or force change and residual both small), and no earlier cycle does |
| PowerMethod.FirstStopUnique | optimization/optimization.cpp:260-292 | any cycle that stops with no stop before it is the one StopCycle finds |
| PowerMethod.WorstCase | optimization/optimization.cpp:322-346 | divergence is reported exactly when the last cycle diverged; a NaN error exactly when it did not and the compliance is NaN; otherwise the result is the measured compliance |
| PowerMethod.ModifiedPM | optimization/optimization.cpp:215-353 | the cycles performed are the first stopping cycle, and the outcome is divergence, a NaN error or the compliance, as WorstCase defines it |
| PowerMethod.PowerMethodExit | optimization/optimization.cpp:260-346 | 1 to 500 cycles; no earlier cycle diverged or converged; divergence is reported exactly when the last cycle's residual exceeds 1e4; a normal end is the cap or convergence with a numeric compliance |
| PowerMethod.NaNForceChangeStops | optimization/optimization.cpp:260-346 | a NaN force change with a small residual ends the loop at that cycle as convergence would, and the result is decided by the compliance's NaN check |
| PowerMethod.IncompleteStopCycle | optimization/optimization.cpp:538 | the first cycle of the incomplete variant that reaches its 50-cycle cap or whose force change is not above the threshold, with no earlier one |
| PowerMethod.InCompleteModiPM | optimization/optimization.cpp:519-564 | at most 50 cycles; none exactly when the threshold is at least the initial change 1; every earlier cycle's force change is above the threshold; the last meets the cap or the threshold; the only failure is a NaN compliance |
| PowerMethod.DefaultIncompleteStops | optimization/optimization.cpp:519-538 | with the default threshold 1e-2 the incomplete variant runs 1 to 50 cycles, every earlier force change is above 1e-2, and the last is not or the cap is reached |
| PowerMethod.SolveFEM | optimization/optimization.cpp:178-184 | the number of V-cycles is the first cycle whose residual is not above 1e-4 |
| Driver.DensityIteration | optimization/optimization.cpp:703-729 | one density-driver iteration fails exactly when its worst-case analysis fails, with that error; otherwise it records the compliance and a goal at or above the ratio; it stops only when the criterion holds and the goal is within 1e-3 of the ratio, and continues only when one of those fails |
| Driver.Optimization | optimization/optimization.cpp:675-769 | 1 to 100 iterations; every iteration before the last continues; the status is the last iteration's decision (power-method error, converged, or cap reached only at 100); each iteration that got past the worst-case analysis is recorded in order; the cycles spent are between the iterations and 500 per iteration |
| Driver.DensityStopsWhenStable | optimization/optimization.cpp:706-729 | with a non-negative ratio and decrease rate, the density driver stops exactly when the convergence criterion holds |
| Driver.ConstrainedWorstCase | optimization/optimization.cpp:899-909 | the spline driver accepts the worst-case result exactly when it is a compliance of magnitude at least 1e-11, and then passes it on unchanged; power-method errors pass through, and a tiny compliance is an InvalidResult error |
| Driver.ConstrainedIteration | optimization/optimization.cpp:859-996 | one spline-driver iteration fails exactly when the guarded worst-case result fails, with that error; otherwise its compliance has magnitude at least 1e-11 and its goal is at or above the ratio; it stops only when the criterion holds, the goal equals the ratio and the self-support value is at most 1e-6, and continues only when that stop test fails |
| Driver.SplineIteration | optimization/optimization.cpp:859-1056 | one pass of the spline loop body yields exactly the decision ConstrainedIteration describes, spends 1 to 500 V-cycles, and when it continues leaves the goal, scales and sharpness of the next iteration |
| Driver.OptimizationSS | optimization/optimization.cpp:772-1098 | as Optimization, with the spline driver's decision: a NaN or near-zero compliance aborts, and each recorded step carries the goal, constraint, scales and sharpness of its iteration |
| Driver.ScalesWithinCap | optimization/optimization.cpp:846-1056 | in every iteration of the spline driver the self-support scale is at most 1e6, the drip scale at most 1e7, and the sharpness 4 or 8 |
| Driver.ConstrainedStopsWhenStable | optimization/optimization.cpp:862-996 | with a non-negative ratio and decrease rate, the spline driver's stop test holds exactly when the criterion holds and the self-support value is at most 1e-6 (always, when that constraint is off); by ConstrainedIteration's contract, an iteration that does not fail stops exactly when that test holds |

## Left out

- The numeric kernels are inputs, not models: V-cycles, force projection and normalisation, force change, compliance, the convergence criterion `converge_criteria`, and the self-support and drip constraint values.
- Sensitivity computation, filtering, MMA and the density or coefficient update are left out. So are the `gval` and `gdiff` assembly and the measured volume `vol`. Of the factors that scale them, only the self-support and drip scales are modelled. `sensScale` and `volScale` (`optimization/optimization.cpp:844-845`) are not.
- Printing, MATLAB dumps, compliance and volume records, `logParams` and timing are left out. These do not affect control flow.
- `Settings.Configuration.SetOutputDir`: directory creation in `setOutpurDir` is left out. The source calls the throwing overloads of `std::filesystem::exists` and `create_directory` (`optimization/optimization.cpp:78-82`). An operating-system error there raises an exception before the path is stored (`optimization/optimization.cpp:90`). The model always stores the path.
- The `_keyvalues["mu"]` side effect of both power methods is not modelled.
- `Settings.Configuration.SetParameters` keeps only the volume ratio, decrease rate, coefficient bounds and iso-surface level. The other parameters are stored in the global parameter record or passed to the grid, and are not read by the modelled logic.
- `eigenCG`, `RayleighGradient`, `Pnorm`, `Knorm`, `MGPSOR`, `project_v_cycle` and the test helpers are outside the driver core. The dead `#if 0` branches are not modelled.
- Floating point is modelled as exact reals plus NaN. Infinities are not distinguished from large numbers. The C `abs` on the compliance is the real absolute value.
- Rounding of the `float` goal and scales is not modelled. The scales are integer powers of ten (and 5e7), which are exact in `float`.
- `PowerMethod.SolveFEM`: requires that some V-cycle brings the residual to 1e-4 or below. Without such a cycle the source loops forever, and that run is not modelled.
- `PowerMethod.InCompleteModiPM`: the threshold is a parameter. The source's default of 1e-2 (`optimization/optimization.h:82`) is the constant `DefaultIncompleteTol`.
- In the spline driver with drip enabled and self-support disabled, `con_value[1]` is never written (`optimization/optimization.cpp:839,956`). Whether anything reads it depends on `converge_criteria`, `gVector` and the MMA solver, which are not part of this model. Constraint values are not modelled.
