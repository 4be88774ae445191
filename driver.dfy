/** The entry points of `ConvexConcaveSolver`: the choice of the starting
    weights among random candidates (`choose_init_z`) and `solve`, which
    fills in the defaults, checks the starting point and runs the outer
    loop.

    The random candidates are a parameter: `draws` is the `p` by `n` matrix
    that `np.random.rand(p, n)` would return for the solver's seed. */
module Driver {
  import opened Vectors
  import opened Convergence
  import opened Solver
  import opened Arrays

  /** The `init_z` setting: score candidates by their worst error, by their
      worst domain objective, or (any other string) not at all. */
  datatype InitCriterion = ByErr | ByObj | Unrecognised

  /** An entry of `o_vals`: a number, or `np.inf` for a rejected
      candidate. */
  datatype Score = Finite(value: real) | Infinite

  /** How far a normalised candidate may sum away from one before it is
      rejected. */
  const InitTol: real := 0.0001

  /** The number of candidates `solve` asks for. */
  const InitCandidates: nat := 100

  /** `a < b` on scores, with `np.inf` above every number. */
  predicate Below(a: Score, b: Score)
  {
    match a
    case Infinite => false
    case Finite(x) => b.Infinite? || x < b.value
  }

  /** `k` is where `np.argmin` lands: a least score, and the first one. */
  predicate IsFirstArgMin(scores: seq<Score>, k: nat)
  {
    k < |scores| &&
    (forall j :: 0 <= j < |scores| ==> !Below(scores[j], scores[k])) &&
    (forall j :: 0 <= j < k ==> Below(scores[k], scores[j]))
  }

  /** `np.argmin` over the scores. */
  function ArgMin(scores: seq<Score>): (k: nat)
    requires |scores| > 0
    ensures IsFirstArgMin(scores, k)
  {
    if |scores| == 1 then 0
    else
      var k := ArgMin(scores[..|scores| - 1]);
      if Below(scores[|scores| - 1], scores[k]) then |scores| - 1 else k
  }

  /** Column `c` of a matrix, `m[:, c]`. */
  function Column(m: Matrix, rows: nat, c: nat): (col: Vector)
    requires |m| == rows && forall r :: 0 <= r < rows ==> c < |m[r]|
    ensures |col| == rows && forall r :: 0 <= r < rows ==> col[r] == m[r][c]
  {
    seq(rows, r requires 0 <= r < rows => m[r][c])
  }

  /** What `choose_init_z` needs of the draws: `p` rows of `n` entries, none
      negative, and no column summing to zero (`np.random.rand` draws from
      `[0, 1)`). */
  predicate ValidDraws(draws: Matrix, p: nat, n: nat)
  {
    IsMatrix(draws, p, n) &&
    (forall r, c :: 0 <= r < p && 0 <= c < n ==> draws[r][c] >= 0.0) &&
    (forall c :: 0 <= c < n ==> Sum(Column(draws, p, c)) > 0.0)
  }

  /** Candidate `c`: column `c` of the draws divided by its sum. */
  function Candidate(draws: Matrix, p: nat, n: nat, c: nat): (z: Vector)
    requires ValidDraws(draws, p, n) && c < n
    ensures |z| == p && OnSimplex(z, 1.0)
  {
    var col := Column(draws, p, c);
    NormalisedOnSimplex(col);
    DivideBy(col, Sum(col))
  }

  /** `o_vals[i]` for a normalised candidate `z`. */
  function ScoreOf(prob: Problem, crit: InitCriterion, z: Vector): Score
    requires ValidProblem(prob) && |z| == prob.p
  {
    if Abs(Sum(z) - 1.0) > InitTol then Infinite
    else
      match crit
      case ByErr => Finite(MaxOf(prob.err(z)))
      case ByObj => Finite(MaxOf(prob.obj(z)))
      case Unrecognised => Finite(0.0)
  }

  /** All of `o_vals`. */
  function Scores(prob: Problem, crit: InitCriterion, draws: Matrix, n: nat): (o: seq<Score>)
    requires ValidProblem(prob) && ValidDraws(draws, prob.p, n)
    ensures |o| == n
  {
    seq(n, c requires 0 <= c < n => ScoreOf(prob, crit, Candidate(draws, prob.p, n, c)))
  }

  /** The candidate `choose_init_z` returns. */
  function ChosenZ(prob: Problem, crit: InitCriterion, draws: Matrix, n: nat): (z: Vector)
    requires ValidProblem(prob) && ValidDraws(draws, prob.p, n) && n > 0
    ensures |z| == prob.p && OnSimplex(z, 1.0)
  {
    Candidate(draws, prob.p, n, ArgMin(Scores(prob, crit, draws, n)))
  }

  /** `choose_init_z(n)`: normalise every candidate column in place, score
      it (or reject it when its sum is off by more than `1e-4`), and return
      the first candidate of least score, with its index. */
  method ChooseInitZ(prob: Problem, crit: InitCriterion, draws: Matrix, n: nat) returns (z: Vector, k: nat)
    requires ValidProblem(prob) && ValidDraws(draws, prob.p, n) && n > 0
    ensures IsFirstArgMin(Scores(prob, crit, draws, n), k)
    ensures z == Candidate(draws, prob.p, n, k) && z == ChosenZ(prob, crit, draws, n)
    ensures OnSimplex(z, 1.0)
  {
    var p := prob.p;
    var zVals := new real[p, n];
    forall r, c | 0 <= r < p && 0 <= c < n {
      zVals[r, c] := draws[r][c];
    }
    var oVals := new Score[n](_ => Finite(0.0));
    ScoreCandidates(prob, crit, draws, n, zVals, oVals);
    k := ArgMin(oVals[..]);
    z := ColumnOf(zVals, k);
  }

  /** The loop of `choose_init_z`: normalise each column of `z_vals` in
      place and record its score in `o_vals`. */
  method ScoreCandidates(prob: Problem, crit: InitCriterion, draws: Matrix, n: nat, zVals: array2<real>, oVals: array<Score>)
    requires ValidProblem(prob) && ValidDraws(draws, prob.p, n)
    requires zVals.Length0 == prob.p && zVals.Length1 == n && oVals.Length == n
    requires forall r, c :: 0 <= r < prob.p && 0 <= c < n ==> zVals[r, c] == draws[r][c]
    modifies zVals, oVals
    ensures forall c :: 0 <= c < n ==> ColumnOf(zVals, c) == Candidate(draws, prob.p, n, c)
    ensures oVals[..] == Scores(prob, crit, draws, n)
  {
    var i := 0;
    while i < n
      invariant 0 <= i <= n
      invariant forall c :: 0 <= c < i ==> ColumnOf(zVals, c) == Candidate(draws, prob.p, n, c)
      invariant forall r, c :: 0 <= r < prob.p && i <= c < n ==> zVals[r, c] == draws[r][c]
      invariant forall c :: 0 <= c < i ==> oVals[c] == ScoreOf(prob, crit, Candidate(draws, prob.p, n, c))
    {
      NormaliseColumn(draws, n, zVals, i);
      oVals[i] := ScoreColumn(prob, crit, zVals, i);
      i := i + 1;
    }
  }

  /** The score of the normalised column `i`: `np.inf` when its sum is off
      by more than `1e-4`, else its worst error or worst domain objective,
      and `0` for an unrecognised criterion. */
  method ScoreColumn(prob: Problem, crit: InitCriterion, zVals: array2<real>, i: nat) returns (o: Score)
    requires ValidProblem(prob) && zVals.Length0 == prob.p && i < zVals.Length1
    ensures o == ScoreOf(prob, crit, ColumnOf(zVals, i))
  {
    o := Finite(0.0);
    var total := ColumnSum(zVals, i);
    var z := ColumnOf(zVals, i);
    if Abs(total - 1.0) > InitTol {
      o := Infinite;
    } else if crit == ByErr {
      o := Finite(MaxOf(prob.err(z)));
    } else if crit == ByObj {
      o := Finite(MaxOf(prob.obj(z)));
    }
  }

  /** `z_vals[:, i] /= z_vals[:, i].sum()` on a column still holding its
      draws; the normalised columns before it and the draws after it
      stay. */
  method NormaliseColumn(draws: Matrix, n: nat, zVals: array2<real>, i: nat)
    requires ValidDraws(draws, zVals.Length0, n) && zVals.Length1 == n && i < n
    requires forall r, c :: 0 <= r < zVals.Length0 && i <= c < n ==> zVals[r, c] == draws[r][c]
    modifies zVals
    ensures ColumnOf(zVals, i) == Candidate(draws, zVals.Length0, n, i)
    ensures forall c :: 0 <= c < n && c != i ==> ColumnOf(zVals, c) == old(ColumnOf(zVals, c))
    ensures forall r, c :: 0 <= r < zVals.Length0 && i < c < n ==> zVals[r, c] == draws[r][c]
  {
    assert ColumnOf(zVals, i) == Column(draws, zVals.Length0, i);
    var total := ColumnSum(zVals, i);
    DivideColumn(zVals, i, total);
  }

  /** In exact arithmetic no candidate is rejected: each normalised
      column sums to one. */
  lemma NoCandidateRejected(prob: Problem, crit: InitCriterion, draws: Matrix, n: nat)
    requires ValidProblem(prob) && ValidDraws(draws, prob.p, n)
    ensures forall c :: 0 <= c < n ==> Scores(prob, crit, draws, n)[c].Finite?
  {
    forall c | 0 <= c < n
      ensures Scores(prob, crit, draws, n)[c].Finite?
    {
      var z := Candidate(draws, prob.p, n, c);
      assert Sum(z) == 1.0;
    }
  }

  // ---------------------------------------------------------------------
  // `solve`

  datatype Option<T> = None | Some(value: T)

  /** The settings of a `ConvexConcaveSolver`. */
  datatype SolverConfig = SolverConfig(prob: Problem, initZ: InitCriterion, maxIter: int)

  /** How `solve` fails: the starting weights do not sum to one (the warning
      at that point names variables that do not exist, so Python raises
      `NameError`); fewer than -1 iterations were asked for (`np.zeros`
      refuses the negative length `N + 1` with `ValueError`); exactly -1
      was asked for (the record arrays are empty, so storing iteration 0
      raises `IndexError`); or no iteration was asked for (the final report
      reads the loop variable, which was never bound). */
  datatype SolveError = NotNormalised | NegativeDimension | NoFirstRecord | NoIterations

  /** What `solve` returns: the last point, its objective and its error. */
  datatype SolveResult = Solved(z: Vector, obj: real, err: real) | SolveFailed(error: SolveError)

  /** The number of iterations: `step` when given, else `max_iter`. */
  function Iterations(cfg: SolverConfig, step: Option<int>): int
  {
    match step
    case Some(s) => s
    case None => cfg.maxIter
  }

  /** What `solve` needs of its inputs: a sound problem, a starting point of
      `p` weights when one is given, and valid draws when it is not. */
  ghost predicate SolveInputs(cfg: SolverConfig, z0: Option<Vector>, draws: Matrix)
  {
    ValidProblem(cfg.prob) &&
    (z0.Some? ==> |z0.value| == cfg.prob.p) &&
    (z0.None? ==> ValidDraws(draws, cfg.prob.p, InitCandidates))
  }

  /** The starting point: `z0` when given, else the chosen candidate. */
  function StartPoint(cfg: SolverConfig, z0: Option<Vector>, draws: Matrix): (z: Vector)
    requires SolveInputs(cfg, z0, draws)
    ensures |z| == cfg.prob.p
    ensures z0.None? ==> OnSimplex(z, 1.0)
  {
    match z0
    case Some(z) => z
    case None => ChosenZ(cfg.prob, cfg.initZ, draws, InitCandidates)
  }

  /** The check `solve` makes of its starting weights: their sum is within
      `1e-8` of one. */
  predicate SumsToOne(z: Vector)
  {
    Abs(Sum(z) - 1.0) <= NormTol
  }

  /** What `solve` returns once it has its starting point and its number of
      iterations, as written. */
  function SolveFrom(prob: Problem, start: Vector, n: int, delta: real): SolveResult
    requires ValidProblem(prob) && |start| == prob.p
  {
    if !SumsToOne(start) then SolveFailed(NotNormalised)
    else if n < -1 then SolveFailed(NegativeDimension)
    else if n == -1 then SolveFailed(NoFirstRecord)
    else if n == 0 then SolveFailed(NoIterations)
    else
      var r := OuterRun(prob, start, delta, n);
      Solved(r[|r| - 1].z, r[|r| - 1].obj, r[|r| - 1].err)
  }

  /** What `solve(z0, step, delta)` returns, as written. */
  function SolveOutcome(cfg: SolverConfig, z0: Option<Vector>, step: Option<int>, delta: real, draws: Matrix): SolveResult
    requires SolveInputs(cfg, z0, draws)
  {
    SolveFrom(cfg.prob, StartPoint(cfg, z0, draws), Iterations(cfg, step), delta)
  }

  /** The part of `solve` after the starting point is known: the check of
      its sum, the allocation of the record arrays, the outer loop, and the
      final report. */
  method SolveStarting(prob: Problem, start: Vector, n: int, delta: real) returns (result: SolveResult, trace: seq<OuterState>)
    requires ValidProblem(prob) && |start| == prob.p
    ensures result == SolveFrom(prob, start, n, delta)
    ensures result.Solved? ==> n > 0 && trace == OuterRun(prob, start, delta, n)
  {
    if !SumsToOne(start) {
      result, trace := SolveFailed(NotNormalised), [];
    } else if n < -1 {
      result, trace := SolveFailed(NegativeDimension), [];
    } else if n == -1 {
      result, trace := SolveFailed(NoFirstRecord), [];
    } else {
      result, trace := SolveNormalised(prob, start, n, delta);
    }
  }

  /** The outer loop from weights that passed the sum check, and the report
      of its last iteration. */
  method SolveNormalised(prob: Problem, start: Vector, n: nat, delta: real) returns (result: SolveResult, trace: seq<OuterState>)
    requires ValidProblem(prob) && |start| == prob.p && SumsToOne(start)
    ensures result == SolveFrom(prob, start, n, delta)
    ensures trace == OuterRun(prob, start, delta, n)
  {
    trace := OuterLoop(prob, start, n, delta);
    if n == 0 {
      result := SolveFailed(NoIterations);
    } else {
      var last := trace[|trace| - 1];
      result := Solved(last.z, last.obj, last.err);
      SolveFromLast(prob, start, n, delta);
    }
  }

  /** After the sum check and with at least one iteration, `solve` reports
      the last record of the outer run. */
  lemma SolveFromLast(prob: Problem, start: Vector, n: nat, delta: real)
    requires ValidProblem(prob) && |start| == prob.p && SumsToOne(start) && n > 0
    ensures var r := OuterRun(prob, start, delta, n);
      SolveFrom(prob, start, n, delta) == Solved(r[|r| - 1].z, r[|r| - 1].obj, r[|r| - 1].err)
  {
  }

  /** `solve(z0, step, delta)`: returns the outcome and, when it solved, the
      records of the outer loop. */
  method Solve(cfg: SolverConfig, z0: Option<Vector>, step: Option<int>, delta: real, draws: Matrix)
    returns (result: SolveResult, trace: seq<OuterState>)
    requires SolveInputs(cfg, z0, draws)
    ensures result == SolveOutcome(cfg, z0, step, delta, draws)
    ensures result.Solved? ==>
      Iterations(cfg, step) > 0 &&
      trace == OuterRun(cfg.prob, StartPoint(cfg, z0, draws), delta, Iterations(cfg, step))
  {
    var n: int;
    if step.None? {
      n := cfg.maxIter;
    } else {
      n := step.value;
    }
    var start: Vector;
    if z0.Some? {
      start := z0.value;
    } else {
      var k;
      start, k := ChooseInitZ(cfg.prob, cfg.initZ, draws, InitCandidates);
    }
    result, trace := SolveStarting(cfg.prob, start, n, delta);
  }

  /** `solve` fails exactly when the starting weights are off by more than
      `1e-8` or fewer than one iteration is asked for, each count below one
      failing its own way; when it succeeds it returns a point on the unit
      simplex (or the starting point itself) with its own error and
      objective, and the objective is no worse than at the start. */
  lemma SolveOutcomeMeaning(cfg: SolverConfig, z0: Option<Vector>, step: Option<int>, delta: real, draws: Matrix)
    requires SolveInputs(cfg, z0, draws)
    ensures var start, n := StartPoint(cfg, z0, draws), Iterations(cfg, step);
      var res := SolveOutcome(cfg, z0, step, delta, draws);
      (res == SolveFailed(NotNormalised) <==> !SumsToOne(start)) &&
      (res == SolveFailed(NegativeDimension) <==> SumsToOne(start) && n < -1) &&
      (res == SolveFailed(NoFirstRecord) <==> SumsToOne(start) && n == -1) &&
      (res == SolveFailed(NoIterations) <==> SumsToOne(start) && n == 0) &&
      (res.Solved? <==> SumsToOne(start) && n > 0) &&
      (res.Solved? ==>
        |res.z| == cfg.prob.p && (res.err, res.obj) == ErrObj(cfg.prob, res.z) &&
        res.obj <= ErrObj(cfg.prob, start).1 &&
        (res.z == start || OnSimplex(res.z, 1.0)))
  {
    var start, n := StartPoint(cfg, z0, draws), Iterations(cfg, step);
    if SumsToOne(start) && n > 0 {
      OuterRunConsistent(cfg.prob, start, delta, n);
      OuterRunObjNonIncreasing(cfg.prob, start, delta, n);
      OuterRunFirst(cfg.prob, start, delta, n);
    }
  }

  /** Without `z0`, the chosen candidate sums to one, so `solve` never
      fails on the sum check. */
  lemma ChosenStartNormalised(cfg: SolverConfig, step: Option<int>, delta: real, draws: Matrix)
    requires SolveInputs(cfg, None, draws)
    ensures SolveOutcome(cfg, None, step, delta, draws) != SolveFailed(NotNormalised)
  {
    var start := StartPoint(cfg, None, draws);
    assert Sum(start) == 1.0;
  }
}
