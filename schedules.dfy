/** The continuation schedules of the outer optimisation loops: the volume goal
    with its clamp, the self-support and drip constraint scales, and the Heaviside
    projection sharpness. Each is the source's in-loop update rule, plus a closed
    form of the value it holds at a given outer iteration. */
module Schedules {

  // ---------------------------------------------------------------- volume goal

  /** Result of one volume-goal update: the clamped goal and the constraint
      value computed from the goal before the clamp. */
  datatype VolumeStep = VolumeStep(goal: real, constraint: real)

  /** One outer iteration's update: shrink the goal by the decrease rate, take
      the constraint value, then clamp the goal from below at the target ratio. */
  function VolumeUpdate(goal: real, ratio: real, decrease: real): (s: VolumeStep)
    ensures s.constraint == goal * (1.0 - decrease) - ratio
    ensures s.goal >= ratio && s.goal >= goal * (1.0 - decrease)
    ensures s.goal == ratio || s.goal == goal * (1.0 - decrease)
  {
    var shrunk := goal * (1.0 - decrease);
    VolumeStep(if shrunk < ratio then ratio else shrunk, shrunk - ratio)
  }

  /** The volume goal after n outer iterations, starting from `start`. */
  function VolumeGoal(start: real, ratio: real, decrease: real, n: nat): (g: real)
    ensures n > 0 ==> g >= ratio
  {
    if n == 0 then start else VolumeUpdate(VolumeGoal(start, ratio, decrease, n - 1), ratio, decrease).goal
  }

  /** The constraint value computed during outer iteration n >= 1. */
  function VolumeConstraint(start: real, ratio: real, decrease: real, n: nat): real
    requires n >= 1
  {
    VolumeUpdate(VolumeGoal(start, ratio, decrease, n - 1), ratio, decrease).constraint
  }

  /** Starting at the target ratio with a non-negative decrease rate, the clamp
      holds the goal at the ratio in every iteration. */
  lemma {:induction false} GoalStaysAtRatio(ratio: real, decrease: real, n: nat)
    requires 0.0 <= ratio && 0.0 <= decrease
    ensures VolumeGoal(ratio, ratio, decrease, n) == ratio
  {
    if n > 0 {
      GoalStaysAtRatio(ratio, decrease, n - 1);
      RatioIsFixedPoint(ratio, decrease);
    }
  }

  /** In that setting the constraint value is the shrink of the ratio itself,
      -ratio * decrease, never positive. */
  lemma ConstraintNonPositive(ratio: real, decrease: real, n: nat)
    requires 0.0 <= ratio && 0.0 <= decrease && n >= 1
    ensures VolumeConstraint(ratio, ratio, decrease, n) == ratio * (1.0 - decrease) - ratio
    ensures VolumeConstraint(ratio, ratio, decrease, n) <= 0.0
  {
    GoalStaysAtRatio(ratio, decrease, n - 1);
    ShrinkDoesNotGrow(ratio, 1.0 - decrease);
  }

  /** From any start at or above the ratio, with a non-negative decrease rate,
      the goals never increase and never fall below the ratio. */
  lemma GoalsNonIncreasing(start: real, ratio: real, decrease: real, n: nat)
    requires 0.0 <= ratio <= start && 0.0 <= decrease
    ensures ratio <= VolumeGoal(start, ratio, decrease, n + 1) <= VolumeGoal(start, ratio, decrease, n)
  {
    var g := VolumeGoal(start, ratio, decrease, n);
    assert ratio <= g;
    var next := VolumeUpdate(g, ratio, decrease);
    assert VolumeGoal(start, ratio, decrease, n + 1) == next.goal;
    ShrinkDoesNotGrow(g, 1.0 - decrease);
  }

  /** The ratio itself is a fixed point of the update. */
  lemma RatioIsFixedPoint(ratio: real, decrease: real)
    requires 0.0 <= ratio && 0.0 <= decrease
    ensures VolumeUpdate(ratio, ratio, decrease).goal == ratio
  {
    ShrinkDoesNotGrow(ratio, 1.0 - decrease);
  }

  lemma ShrinkDoesNotGrow(g: real, factor: real)
    requires 0.0 <= g && factor <= 1.0
    ensures g * factor <= g
  {
    assert g * factor == g - g * (1.0 - factor);
  }

  /** Once the goal has reached the ratio it stays clamped there. */
  lemma {:induction false} GoalStaysClamped(start: real, ratio: real, decrease: real, n: nat, m: nat)
    requires 0.0 <= ratio && 0.0 <= decrease && n <= m
    requires VolumeGoal(start, ratio, decrease, n) == ratio
    ensures VolumeGoal(start, ratio, decrease, m) == ratio
  {
    if n < m {
      GoalStaysClamped(start, ratio, decrease, n, m - 1);
      RatioIsFixedPoint(ratio, decrease);
    }
  }

  // ---------------------------------------------------------- self-support scale

  const InitialSSScale: real := 1000.0

  /** The in-loop update of the self-support scale at outer iteration itn: the
      first threshold passed, from the top, sets the scale; up to iteration 25
      the scale keeps its current value. */
  function SSScaleUpdate(itn: int, current: real): (scale: real)
    ensures itn <= 25 ==> scale == current
    ensures itn > 25 ==> scale in {10000.0, 100000.0, 1000000.0, 10000000.0, 50000000.0, 100000000.0}
    ensures 25 < itn <= 100 ==> scale <= 1000000.0
    ensures current <= 10000.0 ==> current <= scale
  {
    if itn > 200 then 100000000.0
    else if itn > 125 then 50000000.0
    else if itn > 100 then 10000000.0
    else if itn > 75 then 1000000.0
    else if itn > 50 then 100000.0
    else if itn > 25 then 10000.0
    else current
  }

  /** The self-support scale in force during outer iteration itn (after that
      iteration's update). */
  function SSScaleAt(itn: nat): real {
    SSScaleUpdate(itn, InitialSSScale)
  }

  /** The update rule reproduces the schedule from one iteration to the next. */
  lemma SSScaleStep(itn: nat)
    requires itn >= 1
    ensures SSScaleUpdate(itn, SSScaleAt(itn - 1)) == SSScaleAt(itn)
  {
  }

  /** The schedule is non-decreasing and spans 1e3 .. 1e8. */
  lemma SSScaleMonotone(i: nat, j: nat)
    requires i <= j
    ensures InitialSSScale <= SSScaleAt(i) <= SSScaleAt(j) <= 100000000.0
  {
  }

  /** Within the 100-iteration cap of the driver the scale never exceeds 1e6. */
  lemma SSScaleUnderCap(itn: nat)
    requires itn <= 100
    ensures SSScaleAt(itn) in {1000.0, 10000.0, 100000.0, 1000000.0}
    ensures SSScaleAt(itn) <= 1000000.0
  {
  }

  // ------------------------------------------------------------------ drip scale

  const InitialDripScale: real := 100000.0

  /** The in-loop update of the drip scale at outer iteration itn; up to
      iteration 40 the scale keeps its current value. */
  function DripScaleUpdate(itn: int, current: real): (scale: real)
    ensures itn <= 40 ==> scale == current
    ensures itn > 40 ==> scale in {1000000.0, 10000000.0, 100000000.0, 1000000000.0}
    ensures 40 < itn <= 100 ==> scale <= 10000000.0
    ensures current <= 1000000.0 ==> current <= scale
  {
    if itn > 160 then 1000000000.0
    else if itn > 120 then 100000000.0
    else if itn > 80 then 10000000.0
    else if itn > 40 then 1000000.0
    else current
  }

  function DripScaleAt(itn: nat): real {
    DripScaleUpdate(itn, InitialDripScale)
  }

  lemma DripScaleStep(itn: nat)
    requires itn >= 1
    ensures DripScaleUpdate(itn, DripScaleAt(itn - 1)) == DripScaleAt(itn)
  {
  }

  /** The schedule is non-decreasing and spans 1e5 .. 1e9. */
  lemma DripScaleMonotone(i: nat, j: nat)
    requires i <= j
    ensures InitialDripScale <= DripScaleAt(i) <= DripScaleAt(j) <= 1000000000.0
  {
  }

  /** Within the 100-iteration cap the drip scale never exceeds 1e7. */
  lemma DripScaleUnderCap(itn: nat)
    requires itn <= 100
    ensures DripScaleAt(itn) in {100000.0, 1000000.0, 10000000.0}
    ensures DripScaleAt(itn) <= 10000000.0
  {
  }

  // ------------------------------------------------------- Heaviside sharpness

  const InitialBeta: real := 4.0
  const BetaCap: real := 8.0

  /** The end-of-iteration update of the Heaviside sharpness: double it on every
      20th iteration past the second while it is below the cap. For positive
      iteration numbers the `itn > 2` test is implied by the multiple of 20. */
  function BetaUpdate(itn: int, beta: real): (next: real)
    ensures next == beta || next == 2.0 * beta
    ensures itn % 20 != 0 || beta >= BetaCap ==> next == beta
    ensures itn > 0 && itn % 20 == 0 && beta < BetaCap ==> next == 2.0 * beta
    ensures 0.0 <= beta ==> beta <= next
    ensures beta <= BetaCap ==> next < 2.0 * BetaCap
  {
    if itn % 20 == 0 && itn > 2 && beta < BetaCap then beta * 2.0 else beta
  }

  /** The sharpness in force during outer iteration itn >= 1: the initial value
      followed by the update of every earlier iteration. */
  function BetaAt(itn: nat): real
    requires itn >= 1
  {
    if itn == 1 then InitialBeta else BetaUpdate(itn - 1, BetaAt(itn - 1))
  }

  /** The sharpness is 4 up to iteration 20 and 8 from iteration 21 on: it
      doubles exactly once and never exceeds the cap. */
  lemma {:induction false} BetaClosedForm(itn: nat)
    requires itn >= 1
    ensures BetaAt(itn) == if itn > 20 then BetaCap else InitialBeta
  {
    if itn > 1 {
      BetaClosedForm(itn - 1);
    }
  }

  lemma BetaBounded(itn: nat)
    requires itn >= 1
    ensures BetaAt(itn) in {InitialBeta, BetaCap}
    ensures InitialBeta <= BetaAt(itn) <= BetaCap
    ensures BetaAt(itn + 1) == (if itn == 20 then 2.0 * BetaAt(itn) else BetaAt(itn))
  {
    BetaClosedForm(itn);
    BetaClosedForm(itn + 1);
  }
}
