/** Loop control of the worst-case analysis (the modified power method and its
    incomplete variant) and of the plain FE solve. The numeric kernels they call
    (V-cycle, force projection, normalisation, force change, compliance) are not
    modelled; what they report is an input, indexed by the iteration that
    produced it. */
module PowerMethod {
  import opened Numbers
  import opened Outcomes

  const MaxCycles: nat := 500
  const ForceChangeTol: real := 0.0001
  const ResidualTol: real := 0.01
  const DivergenceBound: real := 10000.0

  const IncompleteMaxCycles: nat := 50
  const DefaultIncompleteTol: real := 0.01

  const FemTol: real := 0.0001

  /** What the numeric layer reports during one worst-case analysis:
      residual(k) is the relative residual returned by the k-th V-cycle,
      forceChange(k) the relative change of the load-region force after it, and
      compliance the value measured once the loop has ended. */
  datatype Kernels = Kernels(residual: nat -> Double, forceChange: nat -> Double, compliance: Double)

  /** The divergence guard of cycle k. */
  predicate Diverged(k: Kernels, cycle: nat) {
    Greater(k.residual(cycle), DivergenceBound)
  }

  /** The loop condition after cycle k: the force still changes or the residual
      is still large. A NaN reading makes both tests false. */
  predicate KeepsIterating(k: Kernels, cycle: nat) {
    Greater(k.forceChange(cycle), ForceChangeTol) || Greater(k.residual(cycle), ResidualTol)
  }

  /** Cycle k is the last one: the cap is reached, the residual diverged, or the
      loop condition fails. */
  predicate StopsAt(k: Kernels, cycle: nat) {
    cycle == MaxCycles || Diverged(k, cycle) || !KeepsIterating(k, cycle)
  }

  /** The first cycle, from `from` on, at which the power method stops. */
  function StopCycle(k: Kernels, from: nat): (last: nat)
    requires 1 <= from <= MaxCycles
    ensures from <= last <= MaxCycles
    ensures StopsAt(k, last)
    ensures forall j :: from <= j < last ==> !StopsAt(k, j)
    decreases MaxCycles - from
  {
    if StopsAt(k, from) then from else StopCycle(k, from + 1)
  }

  /** The first stopping cycle is unique: any cycle at which the method stops,
      with no stop before it, is the one StopCycle finds. */
  lemma FirstStopUnique(k: Kernels, cycle: nat)
    requires 1 <= cycle <= MaxCycles && StopsAt(k, cycle)
    requires forall j :: 1 <= j < cycle ==> !StopsAt(k, j)
    ensures StopCycle(k, 1) == cycle
  {
  }

  /** The outcome of the worst-case analysis: divergence at the last cycle is
      fatal before any compliance is taken; otherwise the measured compliance,
      unless it is NaN. */
  function WorstCase(k: Kernels): (r: Result<real>)
    ensures r == Err(NumericalDivergence) <==> Diverged(k, StopCycle(k, 1))
    ensures r == Err(InvalidResult) <==> !Diverged(k, StopCycle(k, 1)) && k.compliance.NaN?
    ensures r.Ok? ==> k.compliance == Num(r.value)
  {
    if Diverged(k, StopCycle(k, 1)) then Err(NumericalDivergence)
    else if k.compliance.NaN? then Err(InvalidResult)
    else Ok(k.compliance.val)
  }

  /** The modified power method: returns the number of V-cycles performed and
      the worst compliance, or the fatal condition that ended it. */
  method ModifiedPM(k: Kernels) returns (cycles: nat, worst: Result<real>)
    ensures cycles == StopCycle(k, 1) && worst == WorstCase(k)
  {
    var fch := Num(1.0);
    var relRes := Num(1.0);
    var itn := 0;
    var failed := false;
    // `while (itn++ < max_itn && (fch > 1e-4 || rel_res > 1e-2))`: the counter
    // is incremented even when the test fails.
    while true
      invariant 0 <= itn <= MaxCycles
      invariant itn == 0 ==> fch == Num(1.0) && relRes == Num(1.0)
      invariant itn > 0 ==> relRes == k.residual(itn) && fch == k.forceChange(itn) && !Diverged(k, itn)
      invariant forall j :: 1 <= j < itn ==> !StopsAt(k, j)
      decreases MaxCycles - itn
    {
      var belowCap := itn < MaxCycles;
      itn := itn + 1;
      if !(belowCap && (Greater(fch, ForceChangeTol) || Greater(relRes, ResidualTol))) {
        break;
      }
      relRes := k.residual(itn);
      failed := Greater(relRes, DivergenceBound);
      if failed {
        break;
      }
      fch := k.forceChange(itn);
    }
    cycles := if failed then itn else itn - 1;
    FirstStopUnique(k, cycles);
    if failed {
      worst := Err(NumericalDivergence);
      return;
    }
    var compliance := k.compliance;
    if compliance.NaN? {
      worst := Err(InvalidResult);
    } else {
      worst := Ok(compliance.val);
    }
  }

  /** How the power method ends: after 1 to 500 cycles, every cycle before the
      last neither diverged nor met the convergence test; divergence at the last
      cycle is reported as such; a normal end means the cap or convergence, and
      a compliance that is a number. */
  lemma PowerMethodExit(k: Kernels)
    ensures var cycles := StopCycle(k, 1);
      && 1 <= cycles <= MaxCycles
      && (forall j :: 1 <= j < cycles ==> !Diverged(k, j) && KeepsIterating(k, j))
      && (WorstCase(k) == Err(NumericalDivergence) <==> Diverged(k, cycles))
      && (WorstCase(k).Ok? ==> cycles == MaxCycles || !KeepsIterating(k, cycles))
      && (WorstCase(k).Ok? <==> !Diverged(k, cycles) && k.compliance.Num?)
  {
    var cycles := StopCycle(k, 1);
    forall j | 1 <= j < cycles
      ensures !Diverged(k, j) && KeepsIterating(k, j)
    {
      assert !StopsAt(k, j);
    }
  }

  /** A NaN force change ends the power method at that cycle unless the
      residual diverged there, just as a converged one would. */
  lemma NaNForceChangeStops(k: Kernels, cycle: nat)
    requires 1 <= cycle <= MaxCycles
    requires k.forceChange(cycle).NaN? && !Greater(k.residual(cycle), ResidualTol)
    requires forall j :: 1 <= j < cycle ==> !StopsAt(k, j)
    ensures StopCycle(k, 1) == cycle
    ensures WorstCase(k) == if k.compliance.NaN? then Err(InvalidResult) else Ok(k.compliance.val)
  {
    FirstStopUnique(k, cycle);
  }

  // ---------------------------------------------------------- incomplete variant

  /** Cycle k is the last one of the incomplete variant: its cap, or a force
      change that is not above the threshold. */
  predicate IncompleteStopsAt(k: Kernels, tol: real, cycle: nat) {
    cycle == IncompleteMaxCycles || !Greater(k.forceChange(cycle), tol)
  }

  function IncompleteStopCycle(k: Kernels, tol: real, from: nat): (last: nat)
    requires 1 <= from <= IncompleteMaxCycles
    ensures from <= last <= IncompleteMaxCycles
    ensures IncompleteStopsAt(k, tol, last)
    ensures forall j :: from <= j < last ==> !IncompleteStopsAt(k, tol, j)
    decreases IncompleteMaxCycles - from
  {
    if IncompleteStopsAt(k, tol, from) then from else IncompleteStopCycle(k, tol, from + 1)
  }

  lemma IncompleteFirstStopUnique(k: Kernels, tol: real, cycle: nat)
    requires 1 <= cycle <= IncompleteMaxCycles && IncompleteStopsAt(k, tol, cycle)
    requires forall j :: 1 <= j < cycle ==> !IncompleteStopsAt(k, tol, j)
    ensures IncompleteStopCycle(k, tol, 1) == cycle
  {
  }

  /** The number of V-cycles of the incomplete variant: none when the initial
      change 1 is already within the threshold. */
  function IncompleteCycles(k: Kernels, tol: real): nat {
    if !(1.0 > tol) then 0 else IncompleteStopCycle(k, tol, 1)
  }

  /** The incomplete power method: at most 50 cycles, stopping on the force
      change alone; it has no residual test and no divergence guard, so its only
      fatal condition is a NaN compliance. */
  method InCompleteModiPM(k: Kernels, fchThres: real) returns (cycles: nat, worst: Result<real>)
    ensures cycles == IncompleteCycles(k, fchThres)
    ensures cycles <= IncompleteMaxCycles
    ensures cycles == 0 <==> fchThres >= 1.0
    ensures cycles > 0 ==> cycles == IncompleteMaxCycles || !Greater(k.forceChange(cycles), fchThres)
    ensures forall j :: 1 <= j < cycles ==> Greater(k.forceChange(j), fchThres)
    ensures worst == if k.compliance.NaN? then Err(InvalidResult) else Ok(k.compliance.val)
  {
    var fch := Num(1.0);
    var itn := 0;
    var relRes := Num(1.0);
    while true
      invariant 0 <= itn <= IncompleteMaxCycles
      invariant itn == 0 ==> fch == Num(1.0)
      invariant itn > 0 ==> fch == k.forceChange(itn) && 1.0 > fchThres
      invariant forall j :: 1 <= j < itn ==> !IncompleteStopsAt(k, fchThres, j)
      decreases IncompleteMaxCycles - itn
    {
      var belowCap := itn < IncompleteMaxCycles;
      itn := itn + 1;
      if !(belowCap && Greater(fch, fchThres)) {
        break;
      }
      relRes := k.residual(itn);  // reported only; no decision reads it
      fch := k.forceChange(itn);
    }
    cycles := itn - 1;
    if cycles > 0 {
      IncompleteFirstStopUnique(k, fchThres, cycles);
    }
    forall j | 1 <= j < cycles
      ensures Greater(k.forceChange(j), fchThres)
    {
      assert !IncompleteStopsAt(k, fchThres, j);
    }
    var compliance := k.compliance;
    if compliance.NaN? {
      worst := Err(InvalidResult);
    } else {
      worst := Ok(compliance.val);
    }
  }

  /** With the default threshold of 1e-2 the incomplete variant performs at
      least one cycle, and stops at the first cycle whose force change is not
      above 1e-2, or at the 50th. */
  lemma DefaultIncompleteStops(k: Kernels)
    ensures var cycles := IncompleteCycles(k, DefaultIncompleteTol);
      && 1 <= cycles <= IncompleteMaxCycles
      && (cycles == IncompleteMaxCycles || !Greater(k.forceChange(cycles), DefaultIncompleteTol))
      && (forall j :: 1 <= j < cycles ==> Greater(k.forceChange(j), DefaultIncompleteTol))
  {
    var cycles := IncompleteCycles(k, DefaultIncompleteTol);
    forall j | 1 <= j < cycles
      ensures Greater(k.forceChange(j), DefaultIncompleteTol)
    {
      assert !IncompleteStopsAt(k, DefaultIncompleteTol, j);
    }
  }

  // ------------------------------------------------------------------ FE solve

  /** Repeated V-cycles until the relative residual is no longer above 1e-4.
      There is no cycle cap, so the loop ends only if some cycle gets there;
      the precondition says so. Returns the number of cycles performed. */
  method SolveFEM(residual: nat -> Double) returns (cycles: nat)
    requires exists n: nat :: 1 <= n && !Greater(residual(n), FemTol)
    ensures 1 <= cycles && !Greater(residual(cycles), FemTol)
    ensures forall j :: 1 <= j < cycles ==> Greater(residual(j), FemTol)
  {
    ghost var bound: nat :| 1 <= bound && !Greater(residual(bound), FemTol);
    var relRes := Num(1.0);
    cycles := 0;
    while Greater(relRes, FemTol)
      invariant cycles <= bound
      invariant cycles == 0 ==> relRes == Num(1.0)
      invariant cycles > 0 ==> relRes == residual(cycles)
      invariant forall j :: 1 <= j < cycles ==> Greater(residual(j), FemTol)
      decreases bound - cycles
    {
      cycles := cycles + 1;
      relRes := residual(cycles);
    }
  }
}
