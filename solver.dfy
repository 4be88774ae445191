/** The two accept/reject loops of `ConvexConcaveSolver`: the inner
    projected-gradient loop on the linearised objective
    (`solve_convex_iter`) and the outer convex-concave loop (`solve`).

    The objective, the error, the concave part, its gradient, the linearised
    objective and its gradient are numerical oracles of the problem object;
    they are fields of `Problem` and every statement below holds for every
    choice of them. Each loop hands back its records: one per iteration,
    holding what the source keeps in `o_iter` (and, for the outer loop,
    `z_iter` and `err_iter`) together with the step size. */
module Solver {
  import opened Vectors
  import opened Simplex
  import opened Convergence
  import opened Runs

  /** The numerical side of `ConvexConcaveProblem`, seen as black boxes. */
  datatype Problem = Problem(
    p: nat,                                              // number of domains
    obj: Vector -> Vector,                               // compute_obj
    err: Vector -> Vector,                               // compute_err
    sqErr: Vector -> real,                               // compute_sq_err
    concave: Vector -> Vector,                           // compute_concave
    gradConcave: Vector -> Matrix,                       // compute_grad_concave
    linObj: (Vector, Vector, Vector, Matrix) -> Vector,  // compute_linearized_obj
    linGrad: (Vector, Matrix) -> Matrix)                 // linearized_obj_gradient

  /** The shapes the solver relies on, for every weight vector of length `p`. */
  ghost predicate ValidProblem(prob: Problem)
  {
    prob.p > 0 &&
    (forall z :: |z| == prob.p ==> |prob.obj(z)| == prob.p) &&
    (forall z :: |z| == prob.p ==> |prob.err(z)| > 0) &&
    (forall z0, z, v0, g :: |z| == prob.p ==> |prob.linObj(z0, z, v0, g)| == prob.p) &&
    (forall z, g :: |z| == prob.p ==> IsMatrix(prob.linGrad(z, g), prob.p, prob.p))
  }

  // ---------------------------------------------------------------------
  // The inner loop, `solve_convex_iter`

  /** One projected-gradient step, `update_z`: move against row `k` of the
      linearised gradient with step `delta` (scale 1), then project onto the
      unit simplex. */
  function UpdateZ(prob: Problem, k: nat, z: Vector, gvt: Matrix, delta: real): (r: Vector)
    requires ValidProblem(prob) && |z| == prob.p && k < prob.p
    ensures |r| == prob.p && OnSimplex(r, 1.0)
  {
    var grad := prob.linGrad(z, gvt);
    Project(SubScaled(z, delta, grad[k]), 1.0)
  }

  /** The domain the inner loop works on: the first worst one at `zt`. */
  function WorstDomain(prob: Problem, zt: Vector): (k: nat)
    requires ValidProblem(prob) && |zt| == prob.p
    ensures k < prob.p
    ensures IsFirstArgMax(prob.obj(zt), k)
  {
    ArgMax(prob.obj(zt))
  }

  /** What `solve_convex_iter` fixes at `zt` before its loop: the worst
      domain `k`, the concave part `vt` and its gradient `gvt`. */
  datatype Linearisation = Linearisation(k: nat, vt: Vector, gvt: Matrix)

  function LinearisedAt(prob: Problem, zt: Vector): (lin: Linearisation)
    requires ValidProblem(prob) && |zt| == prob.p
    ensures lin.k < prob.p
  {
    Linearisation(WorstDomain(prob, zt), prob.concave(zt), prob.gradConcave(zt))
  }

  /** The state of the inner loop after iteration `it`: the iterate `z`,
      `o_iter[it]`, the step `delta`, `last_change`, and whether the step of
      this iteration was kept. */
  datatype InnerState = InnerState(z: Vector, value: real, delta: real, lastChange: nat, it: nat, accepted: bool)

  /** Before the loop: `z = zt`, `o_iter[0]` is the linearised objective at
      `zt` itself. */
  function InnerStart(prob: Problem, zt: Vector, delta: real): (s: InnerState)
    requires ValidProblem(prob) && |zt| == prob.p
    ensures s.z == zt && s.delta == delta && s.it == 0 && s.lastChange == 0 && s.accepted
  {
    var lin := LinearisedAt(prob, zt);
    InnerState(zt, prob.linObj(zt, zt, lin.vt, lin.gvt)[lin.k], delta, 0, 0, true)
  }

  /** What one iteration of the inner loop guarantees, whatever the oracles
      return: the counter advances; a kept step has a value that did not go
      up and is not negative, and marks the change; a rejected step keeps
      the iterate and the value and shrinks the step tenfold; from a
      negative value no step is kept. */
  predicate InnerTransition(s: InnerState, r: InnerState)
  {
    r.it == s.it + 1 && r.value <= s.value && (s.value < 0.0 ==> !r.accepted) &&
    if r.accepted then
      r.value >= 0.0 && r.delta == s.delta && r.lastChange == r.it &&
      |r.z| == |s.z| && OnSimplex(r.z, 1.0)
    else
      r.z == s.z && r.value == s.value && r.delta == 0.1 * s.delta && r.lastChange == s.lastChange
  }

  /** One iteration of the inner loop. A step whose linearised value goes
      up or below zero is rejected: the iterate and the value stay, the step
      shrinks tenfold. A kept step moves to the projected gradient step. */
  function InnerNext(prob: Problem, zt: Vector, s: InnerState): (r: InnerState)
    requires ValidProblem(prob) && |zt| == prob.p && |s.z| == prob.p
    ensures |r.z| == prob.p
  {
    var lin := LinearisedAt(prob, zt);
    var cand := UpdateZ(prob, lin.k, s.z, lin.gvt, s.delta);
    var o := prob.linObj(s.z, cand, lin.vt, lin.gvt)[lin.k];
    if o > s.value || o < 0.0 then InnerState(s.z, s.value, 0.1 * s.delta, s.lastChange, s.it + 1, false)
    else InnerState(cand, o, s.delta, s.it + 1, s.it + 1, true)
  }

  /** Every iteration of the inner loop is an `InnerTransition`, and a kept
      step lands on the projected gradient step from the previous iterate. */
  lemma InnerNextTransition(prob: Problem, zt: Vector, s: InnerState)
    requires ValidProblem(prob) && |zt| == prob.p && |s.z| == prob.p
    ensures InnerTransition(s, InnerNext(prob, zt, s))
    ensures var r := InnerNext(prob, zt, s);
      r.accepted ==> r.z == UpdateZ(prob, WorstDomain(prob, zt), s.z, prob.gradConcave(zt), s.delta)
  {
  }

  /** No movement for more than five iterations. */
  predicate Stalled(s: InnerState)
  {
    s.it - s.lastChange > 5
  }

  /** The inner loop leaves after the iteration that took `prev` to `next`:
      on a kept step whose value converged, or on a stall. */
  predicate InnerStops(prev: InnerState, next: InnerState)
  {
    (next.accepted && CheckConverged(next.value, prev.value)) || Stalled(next)
  }

  /** The iteration as a step function on records (every record of a run
      has an iterate of length `p`, so the second branch never fires). */
  function InnerLoopStep(prob: Problem, zt: Vector): InnerState -> InnerState
    requires ValidProblem(prob) && |zt| == prob.p
  {
    (s: InnerState) => if |s.z| == prob.p then InnerNext(prob, zt, s) else s
  }

  /** The records of a whole run of `solve_convex_iter(zt, delta, max_iter)`:
      `o_iter[0]` and then one record per iteration, at most `max_iter`. */
  function InnerRun(prob: Problem, zt: Vector, delta: real, maxIter: nat): (r: seq<InnerState>)
    requires ValidProblem(prob) && |zt| == prob.p
    ensures 1 <= |r| <= maxIter + 1
  {
    Run(InnerLoopStep(prob, zt), InnerStops, maxIter + 1, InnerStart(prob, zt, delta))
  }

  /** One pass of the loop body of `solve_convex_iter`: step, evaluate,
      and undo the step (shrinking `delta`) when the value went up or
      below zero. */
  method InnerStep(prob: Problem, zt: Vector, lin: Linearisation, s: InnerState) returns (next: InnerState)
    requires ValidProblem(prob) && |zt| == prob.p && |s.z| == prob.p
    requires lin == LinearisedAt(prob, zt)
    ensures next == InnerNext(prob, zt, s)
  {
    var zPrev := s.z;
    var z := UpdateZ(prob, lin.k, zPrev, lin.gvt, s.delta);
    var o := prob.linObj(zPrev, z, lin.vt, lin.gvt)[lin.k];
    if o > s.value || o < 0.0 {
      next := InnerState(zPrev, s.value, 0.1 * s.delta, s.lastChange, s.it + 1, false);
    } else {
      next := InnerState(z, o, s.delta, s.it + 1, s.it + 1, true);
    }
  }

  /** One pass of the loop of `solve_convex_iter`, on the records so far:
      appends the record of the new iteration and says whether the loop
      leaves after it. */
  method InnerAdvance(prob: Problem, zt: Vector, lin: Linearisation, maxIter: nat, trace: seq<InnerState>)
    returns (trace': seq<InnerState>, stop: bool)
    requires ValidProblem(prob) && |zt| == prob.p
    requires lin == LinearisedAt(prob, zt)
    requires 1 <= |trace| < maxIter + 1 && |trace[|trace| - 1].z| == prob.p
    ensures |trace'| == |trace| + 1 && |trace'[|trace|].z| == prob.p
    ensures RunFrom(InnerLoopStep(prob, zt), InnerStops, maxIter + 1, trace) ==
      if stop then trace' else RunFrom(InnerLoopStep(prob, zt), InnerStops, maxIter + 1, trace')
  {
    var s := trace[|trace| - 1];
    var next := InnerStep(prob, zt, lin, s);
    assert next == InnerLoopStep(prob, zt)(s);
    RunFromOnce(InnerLoopStep(prob, zt), InnerStops, maxIter + 1, trace);
    trace' := trace + [next];
    stop := (next.accepted && CheckConverged(next.value, s.value)) || Stalled(next);
  }

  /** `solve_convex_iter(zt, delta, max_iter)`: returns the final iterate
      together with the records of the run, which are the run `InnerRun`
      describes. */
  method SolveConvexIter(prob: Problem, zt: Vector, delta: real, maxIter: nat) returns (z: Vector, trace: seq<InnerState>)
    requires ValidProblem(prob) && |zt| == prob.p
    ensures trace == InnerRun(prob, zt, delta, maxIter)
    ensures z == trace[|trace| - 1].z
  {
    var k := WorstDomain(prob, zt);
    var vt := prob.concave(zt);
    var gvt := prob.gradConcave(zt);
    trace := InnerLoop(prob, zt, Linearisation(k, vt, gvt), delta, maxIter);
    z := trace[|trace| - 1].z;
  }

  /** The loop of `solve_convex_iter`, once the worst domain, the concave
      part and its gradient at `zt` are known. */
  method InnerLoop(prob: Problem, zt: Vector, lin: Linearisation, delta: real, maxIter: nat)
    returns (trace: seq<InnerState>)
    requires ValidProblem(prob) && |zt| == prob.p
    requires lin == LinearisedAt(prob, zt)
    ensures trace == InnerRun(prob, zt, delta, maxIter)
  {
    ghost var step, run := InnerLoopStep(prob, zt), InnerRun(prob, zt, delta, maxIter);
    trace := [InnerStart(prob, zt, delta)];
    var stop := false;
    while |trace| <= maxIter && !stop
      invariant 1 <= |trace| <= maxIter + 1 && |trace[|trace| - 1].z| == prob.p
      invariant (if stop then trace else RunFrom(step, InnerStops, maxIter + 1, trace)) == run
      decreases maxIter + 1 - |trace|, if stop then 0 else 1
    {
      trace, stop := InnerAdvance(prob, zt, lin, maxIter, trace);
    }
    if !stop {
      RunFromFull(step, InnerStops, maxIter + 1, trace);
    }
  }

  // ---------------------------------------------------------------------
  // What a run of the inner loop is

  /** Consecutive records are related by `InnerTransition`. */
  predicate InnerSteps(tr: seq<InnerState>)
  {
    forall i :: 0 < i < |tr| ==> InnerTransition(tr[i - 1], tr[i])
  }

  /** A run starts at the initial record, every iterate has `p` weights,
      and consecutive records are related by `InnerTransition`. */
  lemma InnerRunSteps(prob: Problem, zt: Vector, delta: real, maxIter: nat)
    requires ValidProblem(prob) && |zt| == prob.p
    ensures var r := InnerRun(prob, zt, delta, maxIter);
      r[0] == InnerStart(prob, zt, delta) && InnerSteps(r) &&
      forall i :: 0 <= i < |r| ==> |r[i].z| == prob.p
  {
    InnerRunFirst(prob, zt, delta, maxIter);
    InnerRunKept(prob, zt, delta, maxIter);
  }

  lemma InnerRunFirst(prob: Problem, zt: Vector, delta: real, maxIter: nat)
    requires ValidProblem(prob) && |zt| == prob.p
    ensures InnerRun(prob, zt, delta, maxIter)[0] == InnerStart(prob, zt, delta)
  {
    RunShape(InnerLoopStep(prob, zt), InnerStops, maxIter + 1, InnerStart(prob, zt, delta));
  }

  lemma InnerRunKept(prob: Problem, zt: Vector, delta: real, maxIter: nat)
    requires ValidProblem(prob) && |zt| == prob.p
    ensures var r := InnerRun(prob, zt, delta, maxIter);
      forall i :: 0 <= i < |r| ==> |r[i].z| == prob.p
    ensures InnerSteps(InnerRun(prob, zt, delta, maxIter))
  {
    InnerLoopStepKeeps(prob, zt);
    RunKeeps(InnerLoopStep(prob, zt), InnerStops, maxIter + 1, InnerStart(prob, zt, delta),
             (s: InnerState) => |s.z| == prob.p, InnerTransition);
  }

  lemma InnerLoopStepKeeps(prob: Problem, zt: Vector)
    requires ValidProblem(prob) && |zt| == prob.p
    ensures forall s: InnerState :: |s.z| == prob.p ==>
      |InnerLoopStep(prob, zt)(s).z| == prob.p && InnerTransition(s, InnerLoopStep(prob, zt)(s))
  {
    forall s: InnerState | |s.z| == prob.p
      ensures |InnerLoopStep(prob, zt)(s).z| == prob.p && InnerTransition(s, InnerLoopStep(prob, zt)(s))
    {
      InnerNextTransition(prob, zt, s);
    }
  }

  /** Where a run of `solve_convex_iter` ends: no iteration but the last
      stopped the loop, and the last one stopped it unless the `max_iter`
      iterations were used up. */
  lemma InnerRunStops(prob: Problem, zt: Vector, delta: real, maxIter: nat)
    requires ValidProblem(prob) && |zt| == prob.p
    ensures var r := InnerRun(prob, zt, delta, maxIter);
      (|r| == maxIter + 1 || (|r| >= 2 && InnerStops(r[|r| - 2], r[|r| - 1]))) &&
      forall i :: 0 < i < |r| - 1 ==> !InnerStops(r[i - 1], r[i])
  {
    RunStops(InnerLoopStep(prob, zt), InnerStops, maxIter + 1, InnerStart(prob, zt, delta));
  }

  // ---------------------------------------------------------------------
  // Properties of the records, from the transitions alone

  lemma {:induction false} StepsCount(tr: seq<InnerState>, i: nat)
    requires InnerSteps(tr) && |tr| > 0 && tr[0].it == 0 && i < |tr|
    ensures tr[i].it == i
    decreases i
  {
    if i > 0 {
      StepsCount(tr, i - 1);
      assert InnerTransition(tr[i - 1], tr[i]);
    }
  }

  /** `last_change` is the latest iteration whose step was kept, and every
      later one was rejected. */
  lemma {:induction false} StepsLastChange(tr: seq<InnerState>, i: nat)
    requires InnerSteps(tr) && |tr| > 0 && i < |tr|
    requires tr[0].it == 0 && tr[0].lastChange == 0 && tr[0].accepted
    ensures tr[i].lastChange <= i && tr[tr[i].lastChange].accepted
    ensures forall j :: tr[i].lastChange < j <= i ==> !tr[j].accepted
    decreases i
  {
    if i > 0 {
      StepsLastChange(tr, i - 1);
      StepsCount(tr, i);
      assert InnerTransition(tr[i - 1], tr[i]);
    }
  }

  lemma {:induction false} StepsValueBelow(tr: seq<InnerState>, i: nat, j: nat)
    requires InnerSteps(tr) && i <= j < |tr|
    ensures tr[j].value <= tr[i].value
    decreases j - i
  {
    if i < j {
      StepsValueBelow(tr, i, j - 1);
      assert InnerTransition(tr[j - 1], tr[j]);
    }
  }

  lemma {:induction false} StepsOnSimplex(tr: seq<InnerState>, i: nat)
    requires InnerSteps(tr) && i < |tr|
    ensures tr[i].z == tr[0].z || OnSimplex(tr[i].z, 1.0)
    decreases i
  {
    if i > 0 {
      StepsOnSimplex(tr, i - 1);
      assert InnerTransition(tr[i - 1], tr[i]);
    }
  }

  lemma {:induction false} StepsFromNegative(tr: seq<InnerState>, i: nat)
    requires InnerSteps(tr) && i < |tr| && tr[0].value < 0.0
    ensures tr[i].z == tr[0].z && tr[i].value == tr[0].value
    ensures i > 0 ==> !tr[i].accepted
    decreases i
  {
    if i > 0 {
      StepsFromNegative(tr, i - 1);
      assert InnerTransition(tr[i - 1], tr[i]);
    }
  }

  // ---------------------------------------------------------------------
  // Properties of a run of the inner loop

  /** The recorded values `o_iter[0..it]` never go up. */
  lemma InnerRunValuesNonIncreasing(prob: Problem, zt: Vector, delta: real, maxIter: nat)
    requires ValidProblem(prob) && |zt| == prob.p
    ensures var r := InnerRun(prob, zt, delta, maxIter);
      forall i, j :: 0 <= i <= j < |r| ==> r[j].value <= r[i].value
  {
    InnerRunSteps(prob, zt, delta, maxIter);
    var r := InnerRun(prob, zt, delta, maxIter);
    forall i, j | 0 <= i <= j < |r|
      ensures r[j].value <= r[i].value
    {
      StepsValueBelow(r, i, j);
    }
  }

  /** Record `i` is the state after iteration `i`, and every iterate of the
      run is `zt` itself or a point of the unit simplex. */
  lemma InnerRunIterates(prob: Problem, zt: Vector, delta: real, maxIter: nat)
    requires ValidProblem(prob) && |zt| == prob.p
    ensures var r := InnerRun(prob, zt, delta, maxIter);
      forall i :: 0 <= i < |r| ==> r[i].it == i && |r[i].z| == prob.p && (r[i].z == zt || OnSimplex(r[i].z, 1.0))
  {
    InnerRunSteps(prob, zt, delta, maxIter);
    var r := InnerRun(prob, zt, delta, maxIter);
    forall i | 0 <= i < |r|
      ensures r[i].it == i && (r[i].z == zt || OnSimplex(r[i].z, 1.0))
    {
      StepsCount(r, i);
      StepsOnSimplex(r, i);
    }
  }

  /** The stall test `it - last_change > 5` holds exactly when the last
      six iterations were all rejected. */
  lemma InnerRunStall(prob: Problem, zt: Vector, delta: real, maxIter: nat)
    requires ValidProblem(prob) && |zt| == prob.p
    ensures var r := InnerRun(prob, zt, delta, maxIter);
      forall i :: 0 <= i < |r| ==>
        (Stalled(r[i]) <==> i > 5 && forall j :: i - 5 <= j <= i ==> !r[j].accepted)
  {
    InnerRunSteps(prob, zt, delta, maxIter);
    var r := InnerRun(prob, zt, delta, maxIter);
    forall i | 0 <= i < |r|
      ensures Stalled(r[i]) <==> i > 5 && forall j :: i - 5 <= j <= i ==> !r[j].accepted
    {
      StepsCount(r, i);
      StepsLastChange(r, i);
      var lc := r[i].lastChange;
      if i > 5 && forall j :: i - 5 <= j <= i ==> !r[j].accepted {
        assert !(i - 5 <= lc <= i);
      }
    }
  }

  /** From a negative linearised value no step is ever kept: the run stalls
      after six iterations (or ends at `max_iter`) and every iterate is
      `zt`. */
  lemma InnerRunNegativeStart(prob: Problem, zt: Vector, delta: real, maxIter: nat)
    requires ValidProblem(prob) && |zt| == prob.p
    requires InnerStart(prob, zt, delta).value < 0.0
    ensures var r := InnerRun(prob, zt, delta, maxIter);
      |r| == (if maxIter < 6 then maxIter else 6) + 1 &&
      forall i :: 0 <= i < |r| ==> r[i].z == zt
  {
    InnerRunSteps(prob, zt, delta, maxIter);
    InnerRunStops(prob, zt, delta, maxIter);
    var r := InnerRun(prob, zt, delta, maxIter);
    forall i | 0 <= i < |r|
      ensures r[i].z == zt && (i > 0 ==> !r[i].accepted) && (i > 0 ==> (InnerStops(r[i - 1], r[i]) <==> i > 5))
    {
      StepsFromNegative(r, i);
      StepsCount(r, i);
      StepsLastChange(r, i);
      StepsFromNegative(r, r[i].lastChange);
    }
    var m := |r| - 1;
    if m >= 2 {
      assert !InnerStops(r[m - 2], r[m - 1]);
    }
    if 0 < m < maxIter {
      assert InnerStops(r[m - 1], r[m]);
    }
  }

  // ---------------------------------------------------------------------
  // The outer loop, `solve`

  /** `max_iter` of the inner loop when the outer loop calls it. */
  const InnerMaxIter: nat := 100

  /** How far the weights of the starting point may sum away from one. */
  const NormTol: real := 0.00000001

  /** `compute_err_obj(z)`: the squared error and the worst domain
      objective at `z`. */
  function ErrObj(prob: Problem, z: Vector): (eo: (real, real))
    requires ValidProblem(prob) && |z| == prob.p
    ensures eo.0 == prob.sqErr(z)
    ensures forall j :: 0 <= j < prob.p ==> prob.obj(z)[j] <= eo.1
    ensures exists j :: 0 <= j < prob.p && prob.obj(z)[j] == eo.1
  {
    (prob.sqErr(z), MaxOf(prob.obj(z)))
  }

  /** The state of the outer loop after iteration `it`: `z_iter[:, it]`,
      `o_iter[it]`, `err_iter[it]`, the step `delta`, and whether the
      iteration was kept. */
  datatype OuterState = OuterState(z: Vector, obj: real, err: real, delta: real, accepted: bool)

  /** The recorded objective and error are those of the recorded point. */
  predicate Consistent(prob: Problem, s: OuterState)
    requires ValidProblem(prob)
  {
    |s.z| == prob.p && (s.err, s.obj) == ErrObj(prob, s.z)
  }

  function OuterStart(prob: Problem, z0: Vector, delta: real): (s: OuterState)
    requires ValidProblem(prob) && |z0| == prob.p
    ensures s.z == z0 && s.delta == delta && Consistent(prob, s)
  {
    var eo := ErrObj(prob, z0);
    OuterState(z0, eo.1, eo.0, delta, true)
  }

  /** The point the inner loop returns. */
  function InnerLast(prob: Problem, zt: Vector, delta: real): (z: Vector)
    requires ValidProblem(prob) && |zt| == prob.p
    ensures |z| == prob.p && (z == zt || OnSimplex(z, 1.0))
  {
    var tr := InnerRun(prob, zt, delta, InnerMaxIter);
    InnerRunIterates(prob, zt, delta, InnerMaxIter);
    tr[|tr| - 1].z
  }

  /** What one iteration of the outer loop guarantees: the objective does
      not go up; a rejected iteration restores the point, the objective and
      the error and halves the step; a kept one keeps the step; the point
      stays where it was or lands on the unit simplex. */
  predicate OuterTransition(s: OuterState, r: OuterState)
  {
    r.obj <= s.obj && (r.z == s.z || OnSimplex(r.z, 1.0)) &&
    if r.accepted then r.delta == s.delta
    else r.z == s.z && r.obj == s.obj && r.err == s.err && r.delta == 0.5 * s.delta
  }

  /** One iteration of the outer loop: run the inner loop from the current
      point with the current step, and keep its result unless the worst
      domain objective went up. */
  function OuterNext(prob: Problem, s: OuterState): (r: OuterState)
    requires ValidProblem(prob) && |s.z| == prob.p
    ensures |r.z| == prob.p
  {
    var z := InnerLast(prob, s.z, s.delta);
    var eo := ErrObj(prob, z);
    if s.obj < eo.1 then OuterState(s.z, s.obj, s.err, 0.5 * s.delta, false)
    else OuterState(z, eo.1, eo.0, s.delta, true)
  }

  /** Every iteration of the outer loop is an `OuterTransition` that keeps
      the records consistent, and a kept iteration moves to the point the
      inner loop returned. */
  lemma OuterNextTransition(prob: Problem, s: OuterState)
    requires ValidProblem(prob) && |s.z| == prob.p
    ensures OuterTransition(s, OuterNext(prob, s))
    ensures Consistent(prob, s) ==> Consistent(prob, OuterNext(prob, s))
    ensures OuterNext(prob, s).accepted ==> OuterNext(prob, s).z == InnerLast(prob, s.z, s.delta)
  {
  }

  /** The outer loop leaves after a kept iteration whose objective
      converged. */
  predicate OuterStops(prev: OuterState, next: OuterState)
  {
    next.accepted && CheckConverged(next.obj, prev.obj)
  }

  /** The iteration as a step function on records (every record of a run
      has a point of length `p`, so the second branch never fires). */
  function OuterLoopStep(prob: Problem): OuterState -> OuterState
    requires ValidProblem(prob)
  {
    (s: OuterState) => if |s.z| == prob.p then OuterNext(prob, s) else s
  }

  /** The records of a whole run of `solve(z0, n, delta)`: iteration 0 and
      then one record per iteration, at most `n`. */
  function OuterRun(prob: Problem, z0: Vector, delta: real, n: nat): (r: seq<OuterState>)
    requires ValidProblem(prob) && |z0| == prob.p
    ensures 1 <= |r| <= n + 1
  {
    Run(OuterLoopStep(prob), OuterStops, n + 1, OuterStart(prob, z0, delta))
  }

  /** One pass of the loop body of `solve`. */
  method OuterStep(prob: Problem, s: OuterState) returns (next: OuterState)
    requires ValidProblem(prob) && |s.z| == prob.p
    ensures next == OuterNext(prob, s)
  {
    var z := RunInner(prob, s.z, s.delta);
    var eo := ErrObj(prob, z);
    if s.obj < eo.1 {
      next := OuterState(s.z, s.obj, s.err, 0.5 * s.delta, false);
    } else {
      next := OuterState(z, eo.1, eo.0, s.delta, true);
    }
  }

  /** The call `solve_convex_iter(z_iter[:, it - 1], delta=delta)`. */
  method RunInner(prob: Problem, zt: Vector, delta: real) returns (z: Vector)
    requires ValidProblem(prob) && |zt| == prob.p
    ensures z == InnerLast(prob, zt, delta)
  {
    var tr;
    z, tr := SolveConvexIter(prob, zt, delta, InnerMaxIter);
  }

  /** One pass of the loop of `solve`, on the records so far: appends the
      record of the new iteration and says whether the loop leaves after
      it. */
  method OuterAdvance(prob: Problem, n: nat, trace: seq<OuterState>) returns (trace': seq<OuterState>, stop: bool)
    requires ValidProblem(prob)
    requires 1 <= |trace| < n + 1 && |trace[|trace| - 1].z| == prob.p
    ensures |trace'| == |trace| + 1 && |trace'[|trace|].z| == prob.p
    ensures RunFrom(OuterLoopStep(prob), OuterStops, n + 1, trace) ==
      if stop then trace' else RunFrom(OuterLoopStep(prob), OuterStops, n + 1, trace')
  {
    var s := trace[|trace| - 1];
    var next := OuterStep(prob, s);
    assert next == OuterLoopStep(prob)(s);
    RunFromOnce(OuterLoopStep(prob), OuterStops, n + 1, trace);
    trace' := trace + [next];
    stop := OuterStops(s, next);
  }

  /** The loop of `solve(z0, n, delta)`: the records of the run. */
  method OuterLoop(prob: Problem, z0: Vector, n: nat, delta: real) returns (trace: seq<OuterState>)
    requires ValidProblem(prob) && |z0| == prob.p
    ensures trace == OuterRun(prob, z0, delta, n)
  {
    ghost var step, run := OuterLoopStep(prob), OuterRun(prob, z0, delta, n);
    trace := [OuterStart(prob, z0, delta)];
    var stop := false;
    while |trace| <= n && !stop
      invariant 1 <= |trace| <= n + 1 && |trace[|trace| - 1].z| == prob.p
      invariant (if stop then trace else RunFrom(step, OuterStops, n + 1, trace)) == run
      decreases n + 1 - |trace|, if stop then 0 else 1
    {
      trace, stop := OuterAdvance(prob, n, trace);
    }
    if !stop {
      RunFromFull(step, OuterStops, n + 1, trace);
    }
  }

  // ---------------------------------------------------------------------
  // What a run of the outer loop is

  /** Consecutive records are related by `OuterTransition`. */
  predicate OuterSteps(tr: seq<OuterState>)
  {
    forall i :: 0 < i < |tr| ==> OuterTransition(tr[i - 1], tr[i])
  }

  /** A run starts at iteration 0, every record holds the objective and the
      error of its own point, and consecutive records are related by
      `OuterTransition`. */
  lemma OuterRunSteps(prob: Problem, z0: Vector, delta: real, n: nat)
    requires ValidProblem(prob) && |z0| == prob.p
    ensures var r := OuterRun(prob, z0, delta, n);
      r[0] == OuterStart(prob, z0, delta) && OuterSteps(r) &&
      forall i :: 0 <= i < |r| ==> Consistent(prob, r[i])
  {
    OuterRunFirst(prob, z0, delta, n);
    OuterRunKept(prob, z0, delta, n);
  }

  lemma OuterRunFirst(prob: Problem, z0: Vector, delta: real, n: nat)
    requires ValidProblem(prob) && |z0| == prob.p
    ensures OuterRun(prob, z0, delta, n)[0] == OuterStart(prob, z0, delta)
  {
    RunShape(OuterLoopStep(prob), OuterStops, n + 1, OuterStart(prob, z0, delta));
  }

  lemma OuterRunKept(prob: Problem, z0: Vector, delta: real, n: nat)
    requires ValidProblem(prob) && |z0| == prob.p
    ensures var r := OuterRun(prob, z0, delta, n);
      forall i :: 0 <= i < |r| ==> Consistent(prob, r[i])
    ensures OuterSteps(OuterRun(prob, z0, delta, n))
  {
    OuterLoopStepKeeps(prob);
    RunKeeps(OuterLoopStep(prob), OuterStops, n + 1, OuterStart(prob, z0, delta),
             (s: OuterState) => Consistent(prob, s), OuterTransition);
  }

  lemma OuterLoopStepKeeps(prob: Problem)
    requires ValidProblem(prob)
    ensures forall s: OuterState :: Consistent(prob, s) ==>
      Consistent(prob, OuterLoopStep(prob)(s)) && OuterTransition(s, OuterLoopStep(prob)(s))
  {
    forall s: OuterState | Consistent(prob, s)
      ensures Consistent(prob, OuterLoopStep(prob)(s)) && OuterTransition(s, OuterLoopStep(prob)(s))
    {
      OuterNextTransition(prob, s);
    }
  }

  /** Where a run of `solve` ends: no iteration but the last stopped the
      loop, and the last one stopped it unless the `n` iterations were used
      up. So the loop leaves early only through the convergence test on a
      kept iteration. */
  lemma OuterRunStops(prob: Problem, z0: Vector, delta: real, n: nat)
    requires ValidProblem(prob) && |z0| == prob.p
    ensures var r := OuterRun(prob, z0, delta, n);
      (|r| == n + 1 || (|r| >= 2 && OuterStops(r[|r| - 2], r[|r| - 1]))) &&
      forall i :: 0 < i < |r| - 1 ==> !OuterStops(r[i - 1], r[i])
  {
    RunStops(OuterLoopStep(prob), OuterStops, n + 1, OuterStart(prob, z0, delta));
  }

  lemma {:induction false} OuterObjBelow(tr: seq<OuterState>, i: nat, j: nat)
    requires OuterSteps(tr) && i <= j < |tr|
    ensures tr[j].obj <= tr[i].obj
    decreases j - i
  {
    if i < j {
      OuterObjBelow(tr, i, j - 1);
      assert OuterTransition(tr[j - 1], tr[j]);
    }
  }

  lemma {:induction false} OuterOnSimplexAt(tr: seq<OuterState>, i: nat)
    requires OuterSteps(tr) && i < |tr|
    ensures tr[i].z == tr[0].z || OnSimplex(tr[i].z, 1.0)
    decreases i
  {
    if i > 0 {
      OuterOnSimplexAt(tr, i - 1);
      assert OuterTransition(tr[i - 1], tr[i]);
    }
  }

  // ---------------------------------------------------------------------
  // Properties of a run of the outer loop

  /** The recorded objectives `o_iter[0..it]` never go up. */
  lemma OuterRunObjNonIncreasing(prob: Problem, z0: Vector, delta: real, n: nat)
    requires ValidProblem(prob) && |z0| == prob.p
    ensures var r := OuterRun(prob, z0, delta, n);
      forall i, j :: 0 <= i <= j < |r| ==> r[j].obj <= r[i].obj
  {
    OuterRunSteps(prob, z0, delta, n);
    var r := OuterRun(prob, z0, delta, n);
    forall i, j | 0 <= i <= j < |r|
      ensures r[j].obj <= r[i].obj
    {
      OuterObjBelow(r, i, j);
    }
  }

  /** Every record holds the objective and the error of its own point,
      also after a rollback; every point is `z0` or on the unit simplex. */
  lemma OuterRunConsistent(prob: Problem, z0: Vector, delta: real, n: nat)
    requires ValidProblem(prob) && |z0| == prob.p
    ensures var r := OuterRun(prob, z0, delta, n);
      forall i :: 0 <= i < |r| ==> Consistent(prob, r[i]) && (r[i].z == z0 || OnSimplex(r[i].z, 1.0))
  {
    OuterRunSteps(prob, z0, delta, n);
    var r := OuterRun(prob, z0, delta, n);
    forall i | 0 <= i < |r|
      ensures r[i].z == z0 || OnSimplex(r[i].z, 1.0)
    {
      OuterOnSimplexAt(r, i);
    }
  }
}
