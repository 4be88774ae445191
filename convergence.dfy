/** The convergence test shared by the inner and the outer solver loop
    (`ConvexConcaveSolver.check_converged`). */
module Convergence {

  /** The relative tolerance `1e-8`. */
  const Tol: real := 0.00000001

  function Abs(a: real): (r: real)
    ensures r >= 0.0 && (r == a || r == -a)
  {
    if a < 0.0 then -a else a
  }

  /** `check_converged(obj, obj_prev)`: the threshold is `obj * 1e-8` (the
      signed objective, not its magnitude); the change is compared with it
      first, then the objective itself. Converged exactly when the objective
      is negative, or positive with a change below the threshold. */
  function CheckConverged(obj: real, prev: real): (converged: bool)
    ensures converged <==> obj < 0.0 || (obj > 0.0 && Abs(obj - prev) < obj * Tol)
  {
    var thresh := obj * Tol;
    if Abs(obj - prev) < thresh then true
    else obj < thresh
  }

  /** Any negative objective counts as converged, whatever the previous one. */
  lemma NegativeConverges(obj: real, prev: real)
    requires obj < 0.0
    ensures CheckConverged(obj, prev)
  {
  }

  /** An objective of exactly zero never counts as converged. */
  lemma ZeroNeverConverges(prev: real)
    ensures !CheckConverged(0.0, prev)
  {
  }

  /** A repeated value counts as converged exactly when it is not zero. */
  lemma RepeatConverges(obj: real)
    ensures CheckConverged(obj, obj) <==> obj != 0.0
  {
  }
}
