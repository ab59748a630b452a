/** The two outer optimisation loops: the density driver and the spline driver
    with self-support and drip constraints. Each outer iteration updates the
    volume goal, runs the worst-case analysis, evaluates the constraints and asks
    the external convergence criterion whether to stop. Sensitivities, the design
    update and all file output are not modelled; the collaborators' answers are
    inputs indexed by the outer iteration. */
module Driver {
  import opened Numbers
  import opened Outcomes
  import opened Settings
  import opened Schedules
  import opened PowerMethod

  const MaxOuterIterations: nat := 100
  /** Slack on the volume goal in the stop test of the density driver. */
  const GoalSlack: real := 0.001
  /** Largest self-support constraint value the spline driver accepts as converged. */
  const SelfSupportTol: real := 0.000001
  /** Smallest compliance magnitude the spline driver accepts. */
  const MinCompliance: real := 0.00000000001

  /** What the collaborators report during one outer iteration: the numeric
      readings of its worst-case analysis, the verdict of the external
      convergence criterion, and the self-support constraint value. */
  datatype Readings = Readings(kernels: Kernels, stable: bool, ssValue: Double)

  /** The compile-time constraint variants of the spline driver. */
  datatype Features = Features(selfSupport: bool, drip: bool)

  datatype Terminal = Converged | MaxIterationsReached

  /** The values one outer iteration of the density driver works with: the
      clamped volume goal, the constraint value handed to the convergence
      criterion, and the worst compliance. */
  datatype Step = Step(volumeGoal: real, volumeConstraint: real, compliance: real)

  /** iterations: outer iterations begun; cycles: V-cycles spent in all
      worst-case analyses; steps: one record per iteration that got past the
      worst-case analysis. */
  datatype Run = Run(iterations: nat, cycles: nat, steps: seq<Step>, status: Result<Terminal>)

  function GoalAt(p: Parameters, itn: nat): real {
    VolumeGoal(p.volumeRatio, p.volumeRatio, p.volumeDecrease, itn)
  }

  function ConstraintAt(p: Parameters, itn: nat): real
    requires itn >= 1
  {
    VolumeConstraint(p.volumeRatio, p.volumeRatio, p.volumeDecrease, itn)
  }

  /** The stop test of the density driver at outer iteration itn. */
  predicate DensityStops(p: Parameters, r: Readings, itn: nat) {
    r.stable && GoalAt(p, itn) <= p.volumeRatio + GoalSlack
  }

  /** What one outer iteration decides: abort with the failure of its worst-case
      analysis, stop after recording its step, or record its step and go on. */
  datatype Decision<S> = Fail(error: SolverError) | Stop(step: S) | Continue(step: S)

  /** The terminal status of a run that ends on this decision (a Continue at
      the last iteration means the cap was reached). */
  function StatusOf<S>(d: Decision<S>): Result<Terminal> {
    match d
    case Fail(e) => Err(e)
    case Stop(_) => Ok(Converged)
    case Continue(_) => Ok(MaxIterationsReached)
  }

  /** Outer iteration itn of the density driver. */
  function DensityIteration(p: Parameters, readings: nat -> Readings, itn: nat): (d: Decision<Step>)
    requires itn >= 1
    ensures d.Fail? <==> WorstCase(readings(itn).kernels).Err?
    ensures d.Fail? ==> d.error == WorstCase(readings(itn).kernels).error
    ensures !d.Fail? ==> d.step.compliance == WorstCase(readings(itn).kernels).value && d.step.volumeGoal >= p.volumeRatio
    ensures d.Stop? ==> readings(itn).stable && d.step.volumeGoal <= p.volumeRatio + GoalSlack
    ensures d.Continue? ==> !readings(itn).stable || d.step.volumeGoal > p.volumeRatio + GoalSlack
  {
    match WorstCase(readings(itn).kernels)
    case Err(e) => Fail(e)
    case Ok(c) =>
      var step := Step(GoalAt(p, itn), ConstraintAt(p, itn), c);
      if DensityStops(p, readings(itn), itn) then Stop(step) else Continue(step)
  }

  /** The density driver: at most 100 outer iterations; the run ends at the
      first iteration that does not continue, or after iteration 100, and
      records the step of every iteration that did not fail. */
  method Optimization(p: Parameters, readings: nat -> Readings) returns (run: Run)
    ensures 1 <= run.iterations <= MaxOuterIterations
    ensures forall n :: 1 <= n < run.iterations ==> DensityIteration(p, readings, n).Continue?
    ensures run.status == StatusOf(DensityIteration(p, readings, run.iterations))
    ensures run.status == Ok(MaxIterationsReached) ==> run.iterations == MaxOuterIterations
    ensures |run.steps| == if run.status.Ok? then run.iterations else run.iterations - 1
    ensures forall n :: 1 <= n <= |run.steps| ==>
      !DensityIteration(p, readings, n).Fail? && run.steps[n - 1] == DensityIteration(p, readings, n).step
    ensures run.iterations <= run.cycles <= MaxCycles * run.iterations
  {
    var goal := p.volumeRatio;
    var itn := 0;
    var constraint := goal - p.volumeRatio;
    var steps: seq<Step> := [];
    var cycles := 0;
    // `while (itn++ < 100)`; the counter's value after the loop is never read.
    while itn < MaxOuterIterations
      invariant 0 <= itn <= MaxOuterIterations
      invariant goal == GoalAt(p, itn)
      invariant |steps| == itn
      invariant forall n :: 1 <= n <= itn ==>
        DensityIteration(p, readings, n).Continue? && steps[n - 1] == DensityIteration(p, readings, n).step
      invariant itn <= cycles <= MaxCycles * itn
      decreases MaxOuterIterations - itn
    {
      itn := itn + 1;
      var s := VolumeUpdate(goal, p.volumeRatio, p.volumeDecrease);
      goal, constraint := s.goal, s.constraint;
      var used, worst := ModifiedPM(readings(itn).kernels);
      cycles := cycles + used;
      if worst.Err? {
        run := Run(itn, cycles, steps, Err(worst.error));
        return;
      }
      var step := Step(goal, constraint, worst.value);
      assert step == DensityIteration(p, readings, itn).step;
      steps := steps + [step];
      if readings(itn).stable && goal <= p.volumeRatio + GoalSlack {
        run := Run(itn, cycles, steps, Ok(Converged));
        return;
      }
      assert DensityIteration(p, readings, itn) == Continue(step);
    }
    run := Run(itn, cycles, steps, Ok(MaxIterationsReached));
  }

  /** With a non-negative target and decrease rate the goal test always passes,
      so the density driver stops exactly when the convergence criterion says so. */
  lemma DensityStopsWhenStable(p: Parameters, r: Readings, itn: nat)
    requires 0.0 <= p.volumeRatio && 0.0 <= p.volumeDecrease
    ensures DensityStops(p, r, itn) <==> r.stable
  {
    GoalStaysAtRatio(p.volumeRatio, p.volumeDecrease, itn);
  }

  // ------------------------------------------------------------- spline driver

  /** The values one outer iteration of the spline driver works with. The
      spline driver computes volumeConstraint (`Vc`) as the density driver does
      but never reads it: its criterion and its optimiser receive the measured
      volume instead, which is not modelled. */
  datatype ConstrainedStep = ConstrainedStep(
    volumeGoal: real, volumeConstraint: real, compliance: real,
    ssScale: real, dripScale: real, beta: real)

  datatype ConstrainedRun = ConstrainedRun(iterations: nat, cycles: nat, steps: seq<ConstrainedStep>, status: Result<Terminal>)

  /** The worst-case analysis of the spline driver, with its extra rejection of
      a compliance too close to zero. */
  function ConstrainedWorstCase(k: Kernels): (r: Result<real>)
    ensures r.Ok? <==> WorstCase(k).Ok? && Abs(WorstCase(k).value) >= MinCompliance
    ensures r.Ok? ==> r == WorstCase(k)
    ensures WorstCase(k).Err? ==> r == WorstCase(k)
    ensures WorstCase(k).Ok? && r.Err? ==> r.error == InvalidResult
  {
    match WorstCase(k)
    case Err(e) => Err(e)
    case Ok(c) => if Abs(c) < MinCompliance then Err(InvalidResult) else Ok(c)
  }

  /** The self-support value the stop test reads: the collaborator's value when
      the constraint is enabled, otherwise its initial 0. */
  function SSReading(f: Features, r: Readings): Double {
    if f.selfSupport then r.ssValue else Num(0.0)
  }

  /** The stop test of the spline driver: the criterion holds, the goal has
      reached the target, and the self-support value is at most 1e-6. */
  predicate ConstrainedStops(p: Parameters, f: Features, r: Readings, itn: nat) {
    r.stable && GoalAt(p, itn) <= p.volumeRatio && AtMost(SSReading(f, r), SelfSupportTol)
  }

  function SSScaleIn(f: Features, itn: nat): real {
    if f.selfSupport then SSScaleAt(itn) else InitialSSScale
  }

  function DripScaleIn(f: Features, itn: nat): real {
    if f.drip then DripScaleAt(itn) else InitialDripScale
  }

  /** Outer iteration itn of the spline driver. */
  function ConstrainedIteration(p: Parameters, f: Features, readings: nat -> Readings, itn: nat): (d: Decision<ConstrainedStep>)
    requires itn >= 1
    ensures d.Fail? <==> ConstrainedWorstCase(readings(itn).kernels).Err?
    ensures d.Fail? ==> d.error == ConstrainedWorstCase(readings(itn).kernels).error
    ensures !d.Fail? ==> d.step.compliance == WorstCase(readings(itn).kernels).value && Abs(d.step.compliance) >= MinCompliance
    ensures !d.Fail? ==> d.step.volumeGoal >= p.volumeRatio
    ensures d.Stop? ==> readings(itn).stable && d.step.volumeGoal == p.volumeRatio && AtMost(SSReading(f, readings(itn)), SelfSupportTol)
    ensures d.Continue? ==> !ConstrainedStops(p, f, readings(itn), itn)
  {
    match ConstrainedWorstCase(readings(itn).kernels)
    case Err(e) => Fail(e)
    case Ok(c) =>
      var step := ConstrainedStep(GoalAt(p, itn), ConstraintAt(p, itn), c,
        SSScaleIn(f, itn), DripScaleIn(f, itn), BetaAt(itn));
      if ConstrainedStops(p, f, readings(itn), itn) then Stop(step) else Continue(step)
  }

  /** The loop state of the spline driver after itn outer iterations: the
      volume goal, the two constraint scales and the sharpness the next
      iteration will use. */
  predicate SplineState(p: Parameters, f: Features, itn: nat, goal: real, ssScale: real, dripScale: real, beta: real) {
    goal == GoalAt(p, itn) && ssScale == SSScaleIn(f, itn) && dripScale == DripScaleIn(f, itn) && beta == BetaAt(itn + 1)
  }

  /** The body of one outer iteration of the spline driver: update the volume
      goal, run the worst-case analysis, reject a failed or degenerate
      compliance, update the enabled constraint scales, evaluate the stop test
      and, when the loop goes on, sharpen the projection. Returns the
      iteration's decision, the V-cycles it spent and the updated state. */
  method SplineIteration(p: Parameters, f: Features, readings: nat -> Readings, itn: nat,
                         goal: real, ssScale: real, dripScale: real, beta: real)
    returns (d: Decision<ConstrainedStep>, used: nat, goal': real, ssScale': real, dripScale': real, beta': real)
    requires itn >= 1 && SplineState(p, f, itn - 1, goal, ssScale, dripScale, beta)
    ensures d == ConstrainedIteration(p, f, readings, itn)
    ensures 1 <= used <= MaxCycles
    ensures d.Continue? ==> SplineState(p, f, itn, goal', ssScale', dripScale', beta')
  {
    var s := VolumeUpdate(goal, p.volumeRatio, p.volumeDecrease);
    var constraint;
    goal', constraint := s.goal, s.constraint;
    ssScale', dripScale', beta' := ssScale, dripScale, beta;
    var worst;
    used, worst := ModifiedPM(readings(itn).kernels);
    if worst.Err? {
      d := Fail(worst.error);
      return;
    }
    var cWorst := worst.value;
    if Abs(cWorst) < MinCompliance {
      d := Fail(InvalidResult);
      return;
    }
    var ssValue := Num(0.0);
    if f.selfSupport {
      SSScaleStep(itn);
      ssScale' := SSScaleUpdate(itn, ssScale);
      ssValue := readings(itn).ssValue;
    }
    if f.drip {
      DripScaleStep(itn);
      dripScale' := DripScaleUpdate(itn, dripScale);
    }
    var step := ConstrainedStep(goal', constraint, cWorst, ssScale', dripScale', beta);
    if readings(itn).stable && goal' <= p.volumeRatio && AtMost(ssValue, SelfSupportTol) {
      d := Stop(step);
      return;
    }
    d := Continue(step);
    beta' := BetaUpdate(itn, beta);
  }

  /** The spline driver: same iteration structure as the density driver, with
      the self-support and drip scales updated in place and the Heaviside
      sharpness updated at the end of every iteration that continues. */
  method OptimizationSS(p: Parameters, f: Features, readings: nat -> Readings) returns (run: ConstrainedRun)
    ensures 1 <= run.iterations <= MaxOuterIterations
    ensures forall n :: 1 <= n < run.iterations ==> ConstrainedIteration(p, f, readings, n).Continue?
    ensures run.status == StatusOf(ConstrainedIteration(p, f, readings, run.iterations))
    ensures run.status == Ok(MaxIterationsReached) ==> run.iterations == MaxOuterIterations
    ensures |run.steps| == if run.status.Ok? then run.iterations else run.iterations - 1
    ensures forall n :: 1 <= n <= |run.steps| ==>
      !ConstrainedIteration(p, f, readings, n).Fail? &&
      run.steps[n - 1] == ConstrainedIteration(p, f, readings, n).step
    ensures run.iterations <= run.cycles <= MaxCycles * run.iterations
  {
    var goal := p.volumeRatio;
    var itn := 0;
    var ssScale := InitialSSScale;
    var dripScale := InitialDripScale;
    var beta := InitialBeta;
    var steps: seq<ConstrainedStep> := [];
    var cycles := 0;
    while itn < MaxOuterIterations
      invariant 0 <= itn <= MaxOuterIterations
      invariant SplineState(p, f, itn, goal, ssScale, dripScale, beta)
      invariant |steps| == itn
      invariant forall n :: 1 <= n <= itn ==>
        ConstrainedIteration(p, f, readings, n).Continue? && steps[n - 1] == ConstrainedIteration(p, f, readings, n).step
      invariant itn <= cycles <= MaxCycles * itn
      decreases MaxOuterIterations - itn
    {
      itn := itn + 1;
      var d, used;
      d, used, goal, ssScale, dripScale, beta := SplineIteration(p, f, readings, itn, goal, ssScale, dripScale, beta);
      cycles := cycles + used;
      if d.Fail? {
        run := ConstrainedRun(itn, cycles, steps, Err(d.error));
        return;
      }
      steps := steps + [d.step];
      if d.Stop? {
        run := ConstrainedRun(itn, cycles, steps, Ok(Converged));
        return;
      }
    }
    run := ConstrainedRun(itn, cycles, steps, Ok(MaxIterationsReached));
  }

  /** Within the 100-iteration cap every recorded step of the spline driver has
      a self-support scale of at most 1e6, a drip scale of at most 1e7 and a
      sharpness of 4 or 8. */
  lemma ScalesWithinCap(f: Features, itn: nat)
    requires 1 <= itn <= MaxOuterIterations
    ensures SSScaleIn(f, itn) <= 1000000.0
    ensures DripScaleIn(f, itn) <= 10000000.0
    ensures BetaAt(itn) in {InitialBeta, BetaCap}
  {
    SSScaleUnderCap(itn);
    DripScaleUnderCap(itn);
    BetaBounded(itn);
  }

  /** With a non-negative target and decrease rate the goal test of the spline
      driver always passes: it stops exactly when the criterion holds and the
      self-support value is at most 1e-6 (always, when that constraint is off). */
  lemma ConstrainedStopsWhenStable(p: Parameters, f: Features, r: Readings, itn: nat)
    requires 0.0 <= p.volumeRatio && 0.0 <= p.volumeDecrease
    ensures ConstrainedStops(p, f, r, itn) <==> r.stable && (!f.selfSupport || AtMost(r.ssValue, SelfSupportTol))
  {
    GoalStaysAtRatio(p.volumeRatio, p.volumeDecrease, itn);
  }
}
