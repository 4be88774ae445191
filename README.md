# A verified model of the convex-concave solver for multiple-source adaptation

`dc.py` learns mixture weights `z` (one per source domain, on the unit
simplex) for a distribution-weighted combination of source regressors. It
minimises the worst domain objective with a convex-concave procedure. An
outer loop linearises the concave part at the current point. An inner
projected-gradient loop then minimises the linearised objective, and each
of its steps ends with a Euclidean projection onto the simplex.

This project models the discrete and control logic of that program in Dafny,
with numbers as `real`:

- `vectors.dfy` (`Vectors`): sums, the simplex, first-index `argmax`/`max`.
- `simplex.dfy` (`Simplex`): `euclidean_proj_simplex`, the sort /
  cumulative-sum / threshold algorithm of Duchi, Shalev-Shwartz, Singer and
  Chandra (ICML 2008). It proves the result is on the simplex, that the
  fast path returns the input, that the pivot exists, that the result is the
  nearest point of the simplex, and that projecting is idempotent.
- `convergence.dfy` (`Convergence`): `check_converged`.
- `runs.dfy` (`Runs`): the shape shared by both solver loops. A run is a
  first record, then one record per iteration made by a step function,
  until a stop test passes or the iteration bound is reached. Facts proved
  once here serve both loops.
- `solver.dfy` (`Solver`): `solve_convex_iter` (the inner loop) and the
  loop of `solve` (the outer loop). Each is a method with a `while` loop.
  The method returns its per-iteration records (what the source keeps in
  `o_iter`, `z_iter` and `err_iter`, plus the step size). These records
  are proved equal to a functional run, and the accept/reject properties
  are proved of every run.
- `driver.dfy` (`Driver`): `choose_init_z` over a `z_vals` array that it
  normalises in place, and `solve` with its defaults for `z0` and `step`
  and its failure cases (`delta` is passed explicitly).
- `arrays.dfy` (`Arrays`): column sums and in-place column division on
  two-dimensional arrays.
- `problem_data.dfy` (`ProblemData`): the class `init_problem_from_model`,
  with `load_M`, the `H` loop and `verify_D`. `verify_D` normalises the
  density array's columns in place.
- `aggregation.dfy` (`Aggregation`): the bucketed branch of
  `compute_DzJzKzhz`. Each domain votes for the class its regressor
  predicts. The nested loops tally the votes in two arrays, and a row-wise
  `argmax` picks the class.

The numerical objectives are uninterpreted fields of `Solver.Problem`. They
are the objective, the error, the squared error, the concave part and its
gradient, the linearised objective and its gradient. Every solver property
holds for every choice of them.

Python failures that the code reaches are modelled as error results:

- `euclidean_proj_simplex` fails its assertion when `s <= 0`, and raises
  `IndexError` for an empty vector (`Simplex.ProjError`).
- `solve` raises `NameError` at dc.py:225 when the starting weights are off
  by more than `1e-8`, because the warning names variables that do not
  exist there. A negative iteration count fails in numpy: for `N <= -2`
  `np.zeros(N + 1)` at dc.py:227 raises `ValueError`, and for `N == -1` the
  record arrays are empty, so storing iteration 0 at dc.py:230 raises
  `IndexError`. It also fails at dc.py:248 when no iteration is asked for,
  because the loop variable was never bound (`Driver.SolveError`).
- The bucketed vote raises `IndexError` for a label outside `[-C, C)`, and
  `argmax` fails on an empty row when `C == 0` (`Aggregation.AggError`).

Two behaviours that a reader might not expect are kept as the code has
them:

- `check_converged` compares with `obj * 1e-8`, not with `|obj| * 1e-8`.
  So every negative objective counts as converged.
- `solve` with zero iterations fails rather than returning the starting
  point.

## Model

| member | source | states |
|---|---|---|
| Vectors.ArgMax | dc.py:322-323 | the result is the first index of a largest entry (numpy's `argmax`) |
| Vectors.MaxOf | dc.py:212 | the result bounds every entry and is one of them (`max`) |
| Simplex.SortDesc | dc.py:85 | the sorted copy is descending and a permutation of `v` |
| Simplex.InsertDesc | dc.py:85 | inserting into a descending sequence keeps it descending, adds exactly `x`, and puts the larger of `x` and the old head first |
| Simplex.CumSumIsRunningSum | dc.py:86 | the prefix sums are the running sum `np.cumsum` accumulates: `cssv[0] = u[0]`, `cssv[i] = cssv[i - 1] + u[i]`, and the last entry is the total |
| Simplex.FirstPasses | dc.py:78-88 | for `s > 0`, index 0 always passes the pivot test `u[i] * (i + 1) > cssv[i] - s` |
| Simplex.LastPivot | dc.py:88 | the result passes the pivot test and no later index up to `i` does |
| Simplex.Rho | dc.py:88 | for `s > 0` and a non-empty `v`, the pivot exists, is an index of `v`, passes the test, and is the last index to pass it |
| Simplex.Quotient | dc.py:90 | `theta` times `rho + 1` is `cssv[rho] - s` |
| Simplex.ClipMeaning | dc.py:92 | after `clip(min=0)` no entry is negative, each is at least `v[i] - theta`, and each is zero or exactly `v[i] - theta` |
| Simplex.PivotSplits | dc.py:88-90 | the sorted entries up to `rho` lie above `theta` and the rest at or below it |
| Simplex.ThresholdSum | dc.py:88-92 | the thresholded vector sums to exactly `s` |
| Simplex.ClipSort | dc.py:85-92 | thresholding the sorted copy or `v` itself gives the same total |
| Simplex.Project | dc.py:81-92 | the result has the length of `v`, is nonnegative, sums to `s`, and is `v` itself when `v` is already on the simplex |
| Simplex.EuclideanProjSimplex | dc.py:52-93 | it fails exactly when `s <= 0` (the assertion) or `v` is empty (the index error); otherwise it has the properties of `Project` |
| Simplex.ProjectIsNearest | dc.py:53-55 | no point of the simplex of radius `s` is closer to `v` than the result, so the result solves the docstring's problem |
| Simplex.ProjectIdempotent | dc.py:81-92 | projecting the projection returns it unchanged |
| Convergence.CheckConverged | dc.py:143-159 | converged iff `obj < 0`, or `obj > 0` and `abs(obj - prev) < 1e-8 * obj` |
| Convergence.NegativeConverges | dc.py:144-151 | a negative objective always counts as converged |
| Convergence.ZeroNeverConverges | dc.py:144-151 | an objective of exactly 0 never counts as converged |
| Convergence.RepeatConverges | dc.py:144-147 | an unchanged objective counts as converged iff it is not 0 |
| Solver.UpdateZ | dc.py:199-203 | the gradient step followed by the projection gives `p` weights on the unit simplex |
| Solver.WorstDomain | dc.py:162-163 | `k` is the first domain of largest objective at `zt` |
| Solver.LinearisedAt | dc.py:162-166 | the domain the inner loop fixes at `zt` is one of the `p` domains |
| Solver.InnerStart | dc.py:167-171 | before the loop, `z = zt`, `last_change = 0` and `delta` is the given step |
| Solver.InnerNextTransition | dc.py:174-193 | every iteration advances the counter and does not raise the value. A rejected step keeps `z` and `o_iter[it - 1]` and multiplies `delta` by 0.1. A kept step is the projected gradient step, with value at least 0, the same `delta`, and `last_change = it`. From a negative value no step is kept |
| Solver.InnerStep | dc.py:174-185 | one pass of the loop body computes `InnerNext` |
| Solver.InnerAdvance | dc.py:173-193 | appending one iteration continues the run, or ends it when the convergence or stall test fires |
| Solver.InnerRun | dc.py:170-193 | a run has at most `max_iter + 1` records |
| Solver.InnerLoop | dc.py:167-193 | the loop's records are the run `InnerRun` |
| Solver.SolveConvexIter | dc.py:161-197 | the loop's records are the run `InnerRun`, and the returned point is that of the last record |
| Solver.InnerRunSteps | dc.py:167-193 | a run starts at the initial record, keeps `p` weights, and every pair of consecutive records is an inner transition |
| Solver.InnerRunStops | dc.py:173-193 | the loop leaves early only after a kept step that converged or after a stall; otherwise it runs `max_iter` iterations |
| Solver.StepsLastChange | dc.py:190-191 | `last_change` is the latest iteration whose step was kept, and every later step was rejected |
| Solver.InnerRunValuesNonIncreasing | dc.py:170-185 | the recorded values `o_iter[0..it]` never go up |
| Solver.InnerRunIterates | dc.py:173-191 | record `i` is iteration `i`, and every iterate is `zt` or on the unit simplex |
| Solver.InnerRunStall | dc.py:190-193 | `it - last_change > 5` holds iff the last six iterations were all rejected |
| Solver.InnerRunNegativeStart | dc.py:171-193 | from a negative starting value the loop keeps `zt` and stops after `min(max_iter, 6)` iterations |
| Solver.ErrObj | dc.py:210-213 | the error is the squared error, and the objective is the largest domain objective |
| Solver.OuterStart | dc.py:229-231 | iteration 0 records `z0` with its own error and objective |
| Solver.InnerLast | dc.py:236 | the inner loop returns `p` weights, either `zt` or a point on the unit simplex |
| Solver.OuterNextTransition | dc.py:236-246 | the objective never goes up. A rejected iteration restores the point, the objective and the error and halves `delta`. A kept one moves to the inner loop's result with its own error and objective, and keeps `delta` |
| Solver.RunInner | dc.py:236 | the call of the inner loop from the current point returns the point `InnerLast` names |
| Solver.OuterStep | dc.py:236-243 | one pass of the loop body computes `OuterNext` |
| Solver.OuterAdvance | dc.py:235-246 | appending one iteration continues the run, or ends it when the convergence test fires |
| Solver.OuterRun | dc.py:227-246 | a run has at most `N + 1` records |
| Solver.OuterLoop | dc.py:227-246 | the loop's records are the run `OuterRun` |
| Solver.OuterRunSteps | dc.py:230-246 | a run starts at iteration 0, every record is consistent, and consecutive records are outer transitions |
| Solver.OuterRunStops | dc.py:235-246 | the loop leaves early only through `check_converged` on a kept iteration; otherwise it runs `N` iterations |
| Solver.OuterRunObjNonIncreasing | dc.py:235-246 | the recorded objectives `o_iter[0..it]` never go up |
| Solver.OuterRunConsistent | dc.py:230-243 | every record holds the error and the objective of its own point, also after a rollback, and every point is `z0` or on the unit simplex |
| Driver.ArgMin | dc.py:122 | `k` is the first index of a least score, with `np.inf` above every number |
| Driver.Candidate | dc.py:109 | a normalised column of the draws lies on the unit simplex |
| Driver.Scores | dc.py:107-120 | there is one score per candidate |
| Driver.ChosenZ | dc.py:104-125 | the chosen candidate lies on the unit simplex |
| Driver.NormaliseColumn | dc.py:109 | column `i` becomes its candidate, and every other column stays |
| Driver.ScoreColumn | dc.py:110-120 | the score is `np.inf` when the sum is off by more than `1e-4`, otherwise the worst error, the worst objective, or 0 |
| Driver.ScoreCandidates | dc.py:108-120 | after the loop every column of `z_vals` is normalised and `o_vals` holds every score |
| Driver.ChooseInitZ | dc.py:104-125 | it returns the candidate at the first least score, which lies on the unit simplex |
| Driver.NoCandidateRejected | dc.py:109-111 | in exact arithmetic every normalised candidate passes the `1e-4` test |
| Driver.StartPoint | dc.py:221-222 | the start is `z0` when given, else the chosen candidate, which lies on the simplex |
| Driver.SolveStarting | dc.py:224-251 | it returns `SolveFrom`: the sum check first, then `ValueError` for `N <= -2` and `IndexError` for `N == -1` from the record arrays; when it solved, `N > 0` and the records are those of the outer loop |
| Driver.SolveNormalised | dc.py:227-251 | from weights that pass the sum check, the records are exactly the outer run of `N` iterations, and the result is `SolveFrom`: no result for `N == 0`, otherwise the last record's point, objective and error |
| Driver.Solve | dc.py:215-251 | it returns `SolveOutcome`, and when it solved, `N > 0` and the records are the outer run from the start point with `N` iterations, where `N` is `step` when given and `max_iter` otherwise (`Iterations`) |
| Driver.SolveOutcomeMeaning | dc.py:215-251 | it fails with `NotNormalised` iff the start is off by more than `1e-8`, and otherwise with `NegativeDimension` iff `N <= -2`, `NoFirstRecord` iff `N == -1` and `NoIterations` iff `N == 0`; it solves iff the start passes and `N > 0`. Then it returns `p` weights with their own error and objective, an objective no worse than at the start, and a point that is the start or on the unit simplex |
| Driver.ChosenStartNormalised | dc.py:221-225 | without `z0`, `solve` never fails the sum check |
| Arrays.ColumnSum | dc.py:28 | the result is the sum of column `c` |
| Arrays.DivideColumn | dc.py:28 | column `c` is divided entrywise by `t`, and every other entry stays |
| ProblemData.Residual | dc.py:33-34 | a squared residual is not negative |
| ProblemData.ColumnResidualMax | dc.py:33-35 | `tmp.max()` bounds the squared residuals of regressor `k` and is one of them |
| ProblemData.ResidualBound | dc.py:30-36 | `M >= 0`, `M` bounds `(y[i] - h[i, k])^2` for every point and every `k < p`, and `M` is 0 or one of those residuals |
| ProblemData.InitProblemFromModel.constructor | dc.py:3-24 | it records the data with `U = 1/n` and `eta = 0.01`, then sets `M`, `H` and the normalised columns as the three steps below state, leaving columns from `p` on untouched |
| ProblemData.InitProblemFromModel.LoadM | dc.py:30-36 | afterwards `M` is the residual bound |
| ProblemData.InitProblemFromModel.ComputeH | dc.py:20-22 | `H[i]` is `1/p` times the sum of row `i` of `h` |
| ProblemData.InitProblemFromModel.VerifyD | dc.py:26-28 | each of the first `p` columns of `D` becomes its old values divided by their sum and sums to one; every other entry stays |
| ProblemData.InitProblemFromModel.NormaliseDensity | dc.py:28 | column `k` becomes its old values divided by their sum and sums to one; other columns stay |
| Aggregation.Trunc | dc.py:318-319 | `int()` truncates toward zero |
| Aggregation.Slot | dc.py:318-319 | an index in `[-C, C)` names slot `i`, or `i + C` for a negative `i` |
| Aggregation.WeightBounds | dc.py:310-314 | for nonnegative weights and densities and `etaU > 0`: `Jz > 0`, `Kz > 0` and `0 < hz <= 1` |
| Aggregation.JzVotes | dc.py:309-312 | there is one `Jz` vote per point and domain |
| Aggregation.HzVotes | dc.py:309-314 | there is one `hz` vote per point and domain |
| Aggregation.Buckets | dc.py:306-307 | a tally row has `C` slots |
| Aggregation.AddDomain | dc.py:317-319 | for domain `k`, each vote at each counted point is added only to the slot of `int(h[x, k])`, in both tallies; the pass fails iff some label is outside `[-C, C)` |
| Aggregation.Tallies | dc.py:316-319 | the loops succeed iff every label is in range, and then each tally entry is the sum of the votes for that slot |
| Aggregation.ComputeDzJzKzhz | dc.py:304-325 | the method computes `AggregateVotes` |
| Aggregation.AggregateVotesMeaning | dc.py:304-325 | it fails with an index error iff some label is out of range. It fails with no classes iff labels are in range and `C == 0`, which needs an empty `y`. Otherwise `hz[x]` and `Jz[x]` are the first slots of largest tally, `Dz >= 0`, and `Kz = Dz + etaU` |
| Aggregation.RowMass | dc.py:316-319 | summed over all slots, the tallies of the first `kk` domains equal the sum of their votes |
| Aggregation.BucketMass | dc.py:316-319 | for each counted point `x`, `sum_c hz_prob[x, c] = sum_k hz[x, k]` (and likewise for `Jz`); an uncounted row stays zero |
| Aggregation.RowBucketUnvoted | dc.py:316-319 | a slot no domain voted for has an empty tally |
| Aggregation.RowBucketUnanimous | dc.py:316-319 | a slot every domain voted for with positive votes has a positive tally |
| Aggregation.UnanimousBucket | dc.py:316-323 | when every domain votes for the same slot with positive votes, that slot wins the `argmax` |
| Aggregation.UnanimousDomains | dc.py:304-325 | when all domains predict the same class at a counted point, the aggregated `hz` and `Jz` labels are that class |

## Left out

- The numerical parts of `ConvexConcaveProblem` (dc.py:254-295, 337-394: the convex and concave parts, their gradients, the linearised objective and its gradient, the errors) use logarithms and floating-point tensor algebra. They are uninterpreted oracles in `Solver.Problem`.
- `Solver.ValidProblem`: the only assumption about the oracles is the shape of their results.
- The constructor of `ConvexConcaveProblem` (dc.py:256-269) is not part of this model. It rescales the densities and derives `etaU`, which the aggregation takes as a parameter.
- The three-dimensional branch of `compute_DzJzKzhz` (dc.py:326-333) is left out. It computes `Dz`, `Jz`, `Kz` and `hz` from `D`, `h` and `z` in the per-class density layout (`D` of shape `[C, N, p]`), which is outside the bucketed vote modelled here.
- The two-dimensional error case in `choose_init_z` (dc.py:115-116) is left out. There the score is the largest row total of the error, `max(tmp.sum(axis=-1))`, not its largest entry. A two-dimensional error only comes from the per-class layouts (dc.py:326-333 and `ConvexConcaveProblemByClass`, dc.py:397-418), and neither is part of this model.
- `ConvexConcaveProblemByClass` (dc.py:397-418) is not part of this model: it is constructor setup and squared-error sums over numpy slices.
- The random number generator (dc.py:105-106): the candidate matrix `draws` is an input.
- All printing (`print_iter`, `print_obj_increase`, the messages of `check_converged` and `solve`) is I/O only. The display cadence `DI` only affects printing.
- Floating point: numbers are exact reals. So `v.sum() == s` and the `1e-4` / `1e-8` tolerances are exact comparisons, and rounding, `nan` and `inf` in the data are not modelled.
- `project_onto_simplex` (dc.py:206-208) is never called.
- `Solver.UpdateZ`: modelled on values. Its one call site is dc.py:175 in `solve_convex_iter`, and the argument there is the loop's private `z`: a copy of `zt` (dc.py:167) or an earlier projection result. `z_prev` is a separate copy (dc.py:174). So the in-place `z -=` changes nothing a caller can observe.
- Driver.Solve: requires a given `z0` to hold exactly `p` weights. Any other length passes the sum check at dc.py:224 but then fails in numpy. A length-1 `z0` is broadcast, by `np.tile` and `z_mat * self.D` (dc.py:309-311, reached from dc.py:230) and by `z_iter[:, 0] = z0` (dc.py:231), so the outer loop would start from `p` ones. Every other length raises a broadcasting `ValueError` at dc.py:311 or dc.py:231. Neither outcome is modelled.
- Driver.Solve: the default `delta=1e-4` (dc.py:215) is not modelled; `delta` is always an argument.
- Driver.ChooseInitZ: requires draws with nonnegative entries and columns of positive sum (what `np.random.rand` yields), and `n > 0`. Otherwise Python would divide by zero or take `argmin` of an empty array.
- ProblemData.InitProblemFromModel.constructor: requires a non-empty `y` (so that `U = 1/n` exists), `p > 0`, rows of `h` of equal length with at least `p` columns, and first `p` columns of `D` with nonzero sums. Otherwise Python divides by zero or indexes out of range.
- Aggregation.ComputeDzJzKzhz: requires nonnegative weights and densities, `etaU > 0` (so `Kz` never vanishes), `D` with one column per domain, `h` with a row per row of `D`, and no more true values than rows. Otherwise Python divides by zero or indexes out of range.
- Simplex.Project: requires `s > 0` and a non-empty vector. Simplex.EuclideanProjSimplex handles both cases as failures.
