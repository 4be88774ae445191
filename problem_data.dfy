/** `init_problem_from_model`: the data of a multiple-source adaptation
    problem. It keeps the true values `y`, the densities `D` (one column
    per domain, normalised in place), the regressors' predictions `h`
    (one column per domain), the upper bound `M` on the squared residuals
    and the per-point average prediction `H`. */
module ProblemData {
  import opened Vectors
  import opened Arrays

  /** The fixed mixing weight `eta`. */
  const Eta: real := 0.01

  /** The squared residual of regressor `k` at point `i`. */
  function Residual(y: Vector, h: Matrix, i: nat, k: nat): (e: real)
    requires i < |y| && i < |h| && k < |h[i]|
    ensures e >= 0.0
  {
    (y[i] - h[i][k]) * (y[i] - h[i][k])
  }

  /** `h` has a row per point and at least `p` columns, all rows alike. */
  predicate Regressors(h: Matrix, n: nat, p: nat)
  {
    |h| == n && n > 0 && p <= |h[0]| && forall i :: 0 <= i < n ==> |h[i]| == |h[0]|
  }

  /** `M` bounds the squared residual of every regressor `k < p` at every
      point, is not negative, and is zero or one of those residuals. */
  predicate IsResidualBound(y: Vector, h: Matrix, p: nat, m: real)
    requires Regressors(h, |y|, p)
  {
    m >= 0.0 &&
    (forall i, k :: 0 <= i < |y| && 0 <= k < p ==> Residual(y, h, i, k) <= m) &&
    (m == 0.0 || exists i, k :: 0 <= i < |y| && 0 <= k < p && Residual(y, h, i, k) == m)
  }

  /** `load_M` on the values: the largest squared residual of the first
      `p` regressors, and `0` above it. */
  method ResidualBound(y: Vector, h: Matrix, p: nat) returns (m: real)
    requires Regressors(h, |y|, p)
    ensures IsResidualBound(y, h, p, m)
  {
    m := 0.0;
    var k := 0;
    while k < p
      invariant 0 <= k <= p
      invariant m >= 0.0
      invariant forall i, k' :: 0 <= i < |y| && 0 <= k' < k ==> Residual(y, h, i, k') <= m
      invariant m == 0.0 || exists i, k' :: 0 <= i < |y| && 0 <= k' < k && Residual(y, h, i, k') == m
    {
      var colMax := ColumnResidualMax(y, h, k);
      if colMax > m {
        m := colMax;
      }
      k := k + 1;
    }
  }

  /** `tmp.max()` for `tmp = (y - h[..., k]) ** 2`. */
  method ColumnResidualMax(y: Vector, h: Matrix, k: nat) returns (t: real)
    requires |y| > 0 && |h| == |y| && forall i :: 0 <= i < |y| ==> k < |h[i]|
    ensures forall i :: 0 <= i < |y| ==> Residual(y, h, i, k) <= t
    ensures exists i :: 0 <= i < |y| && Residual(y, h, i, k) == t
  {
    t := Residual(y, h, 0, k);
    var i := 1;
    while i < |y|
      invariant 1 <= i <= |y|
      invariant forall i' :: 0 <= i' < i ==> Residual(y, h, i', k) <= t
      invariant exists i' :: 0 <= i' < i && Residual(y, h, i', k) == t
    {
      var e := Residual(y, h, i, k);
      if e > t {
        t := e;
      }
      i := i + 1;
    }
  }

  /** The data of the problem. `D` is the caller's array: the constructor
      normalises its first `p` columns in place. */
  class InitProblemFromModel {
    const y: Vector
    const n: nat
    const p: nat
    const C: nat
    const U: real
    const eta: real
    const D: array2<real>
    const h: Matrix
    var M: real
    const H: array<real>

    /** The shapes and constants fixed at construction. */
    ghost predicate Valid()
      reads this
    {
      n == |y| && p > 0 && Regressors(h, n, p) &&
      U == 1.0 / (n as real) && eta == Eta &&
      H.Length == n && p <= D.Length1
    }

    /** `__init__(y, D, h, p, C)`: record the data, compute `M` and `H`,
        then normalise the densities. */
    constructor (y: Vector, D: array2<real>, h: Matrix, p: nat, C: nat)
      requires |y| > 0 && p > 0 && Regressors(h, |y|, p) && p <= D.Length1
      requires forall k :: 0 <= k < p ==> Sum(ColumnOf(D, k)) != 0.0
      modifies D
      ensures Valid()
      ensures this.y == y && this.D == D && this.h == h && this.p == p && this.C == C
      ensures IsResidualBound(y, h, p, M)
      ensures forall i :: 0 <= i < |y| ==> H[i] == (1.0 / (p as real)) * Sum(h[i])
      ensures fresh(H)
      ensures forall k :: 0 <= k < p ==> ColumnOf(D, k) == DivideBy(old(ColumnOf(D, k)), Sum(old(ColumnOf(D, k))))
      ensures forall r, k :: 0 <= r < D.Length0 && p <= k < D.Length1 ==> D[r, k] == old(D[r, k])
    {
      this.y := y;
      this.n := |y|;
      this.p := p;
      this.C := C;
      this.U := 1.0 / (|y| as real);
      this.eta := Eta;
      this.D := D;
      this.h := h;
      this.H := new real[|y|](_ => 0.0);
      new;
      LoadM();
      ComputeH();
      VerifyD();
    }

    /** `load_M`: set `M` to the bound on the squared residuals. */
    method LoadM()
      requires Valid()
      modifies this
      ensures Valid() && IsResidualBound(y, h, p, M)
    {
      M := ResidualBound(y, h, p);
    }

    /** The loop of `__init__` that fills `H[i]` with `1/p` times the sum
        of the predictions at point `i`. */
    method ComputeH()
      requires Valid()
      modifies H
      ensures forall i :: 0 <= i < n ==> H[i] == (1.0 / (p as real)) * Sum(h[i])
    {
      var i := 0;
      while i < n
        invariant 0 <= i <= n
        invariant forall i' :: 0 <= i' < i ==> H[i'] == (1.0 / (p as real)) * Sum(h[i'])
      {
        H[i] := (1.0 / (p as real)) * Sum(h[i]);
        i := i + 1;
      }
    }

    /** `verify_D`: divide each of the first `p` columns of `D` by its sum,
        in place; the columns then sum to one. */
    method VerifyD()
      requires Valid()
      requires forall k :: 0 <= k < p ==> Sum(ColumnOf(D, k)) != 0.0
      modifies D
      ensures forall k :: 0 <= k < p ==> ColumnOf(D, k) == DivideBy(old(ColumnOf(D, k)), Sum(old(ColumnOf(D, k))))
      ensures forall k :: 0 <= k < p ==> Sum(ColumnOf(D, k)) == 1.0
      ensures forall r, k :: 0 <= r < D.Length0 && p <= k < D.Length1 ==> D[r, k] == old(D[r, k])
    {
      ghost var before := seq(D.Length1, k requires 0 <= k < D.Length1 reads D => ColumnOf(D, k));
      var k := 0;
      while k < p
        invariant 0 <= k <= p
        invariant forall k' :: 0 <= k' < k ==> ColumnOf(D, k') == DivideBy(before[k'], Sum(before[k']))
        invariant forall k' :: 0 <= k' < k ==> Sum(ColumnOf(D, k')) == 1.0
        invariant forall k' :: k <= k' < D.Length1 ==> ColumnOf(D, k') == before[k']
      {
        NormaliseDensity(k);
        k := k + 1;
      }
      forall r, k' | 0 <= r < D.Length0 && p <= k' < D.Length1
        ensures D[r, k'] == old(D[r, k'])
      {
        assert ColumnOf(D, k')[r] == before[k'][r];
      }
    }

    /** `D[..., k] = D[..., k] / np.sum(D[..., k])` for a column still
        holding its old values. */
    method NormaliseDensity(k: nat)
      requires k < D.Length1
      requires Sum(ColumnOf(D, k)) != 0.0
      modifies D
      ensures ColumnOf(D, k) == DivideBy(old(ColumnOf(D, k)), Sum(old(ColumnOf(D, k))))
      ensures Sum(ColumnOf(D, k)) == 1.0
      ensures forall k' :: 0 <= k' < D.Length1 && k' != k ==> ColumnOf(D, k') == old(ColumnOf(D, k'))
    {
      var total := ColumnSum(D, k);
      DivideColumn(D, k, total);
      forall k' | 0 <= k' < D.Length1 && k' != k
        ensures ColumnOf(D, k') == old(ColumnOf(D, k'))
      {
      }
      assert ColumnOf(D, k) == DivideBy(old(ColumnOf(D, k)), total);
      SumDivideBy(old(ColumnOf(D, k)), total);
      DivSelf(total);
    }
  }
}
