/** Euclidean projection onto the scaled probability simplex by sorting,
    cumulative sums and a threshold (Duchi, Shalev-Shwartz, Singer and
    Chandra, ICML 2008), as `euclidean_proj_simplex` computes it. */
module Simplex {
  import opened Vectors

  /** The ways `euclidean_proj_simplex` fails: its radius assertion, and the
      index error raised when no coordinate is left to pick a pivot from. */
  datatype ProjError = RadiusNotPositive | EmptyVector

  datatype ProjResult = Projected(w: Vector) | Failed(error: ProjError)

  predicate SortedDesc(u: Vector)
  {
    forall i, j :: 0 <= i <= j < |u| ==> u[i] >= u[j]
  }

  /** Insert `x` into a descending sequence, keeping it descending. */
  function InsertDesc(x: real, u: Vector): (r: Vector)
    requires SortedDesc(u)
    ensures |r| == |u| + 1 && SortedDesc(r)
    ensures multiset(r) == multiset(u) + multiset{x}
    ensures r[0] == if u == [] || x >= u[0] then x else u[0]
  {
    if u == [] || x >= u[0] then [x] + u
    else
      assert u == [u[0]] + u[1..];
      var t := InsertDesc(x, u[1..]);
      assert t[0] <= u[0];
      [u[0]] + t
  }

  /** The sorted, reversed copy `np.sort(v)[::-1]`: descending and a
      permutation of `v`. */
  function SortDesc(v: Vector): (u: Vector)
    ensures |u| == |v| && SortedDesc(u)
    ensures multiset(u) == multiset(v)
  {
    if v == [] then []
    else
      assert v == [v[0]] + v[1..];
      InsertDesc(v[0], SortDesc(v[1..]))
  }

  /** `np.cumsum(u)`: entry `i` is the sum of the first `i + 1` entries. */
  function CumSum(u: Vector): (c: Vector)
    ensures |c| == |u|
    ensures forall i :: 0 <= i < |u| ==> c[i] == Sum(u[..i + 1])
  {
    seq(|u|, i requires 0 <= i < |u| => Sum(u[..i + 1]))
  }

  /** The prefix sums are the running sum `np.cumsum` accumulates: the
      first is `u[0]`, each adds the next entry to the one before, and the
      last is the total. */
  lemma CumSumIsRunningSum(u: Vector)
    ensures var c := CumSum(u);
      (|u| > 0 ==> c[0] == u[0] && c[|u| - 1] == Sum(u)) &&
      forall i :: 0 < i < |u| ==> c[i] == c[i - 1] + u[i]
  {
    var c := CumSum(u);
    forall i | 0 < i < |u|
      ensures c[i] == c[i - 1] + u[i]
    {
      SumPrefixStep(u, i);
    }
    if |u| > 0 {
      SumPrefixStep(u, 0);
      assert u[..0] == [];
      assert u[..|u|] == u;
    }
  }

  /** Index `i` passes the test `u[i] * (i + 1) > cssv[i] - s`. */
  predicate PivotTest(u: Vector, c: Vector, s: real, i: nat)
    requires |c| == |u| && i < |u|
  {
    u[i] * Count(i + 1) > c[i] - s
  }

  /** The last index at or below `i` that passes the pivot test. */
  function LastPivot(u: Vector, c: Vector, s: real, i: nat): (j: nat)
    requires |c| == |u| && i < |u| && PivotTest(u, c, s, 0)
    ensures j <= i && PivotTest(u, c, s, j)
    ensures forall m :: j < m <= i ==> !PivotTest(u, c, s, m)
    decreases i
  {
    if i == 0 || PivotTest(u, c, s, i) then i else LastPivot(u, c, s, i - 1)
  }

  /** The pivot `rho`: the last index of the sorted copy passing the test.
      Index 0 always passes when `s > 0`, so the pivot exists. */
  function Rho(v: Vector, s: real): (rho: nat)
    requires s > 0.0 && |v| > 0
    ensures rho < |v|
    ensures PivotTest(SortDesc(v), CumSum(SortDesc(v)), s, rho)
    ensures forall m :: rho < m < |v| ==> !PivotTest(SortDesc(v), CumSum(SortDesc(v)), s, m)
  {
    var u := SortDesc(v);
    var c := CumSum(u);
    FirstPasses(u, c, s);
    LastPivot(u, c, s, |u| - 1)
  }

  /** Index 0 passes the pivot test whenever `s > 0`. */
  lemma FirstPasses(u: Vector, c: Vector, s: real)
    requires s > 0.0 && |u| > 0 && c == CumSum(u)
    ensures PivotTest(u, c, s, 0)
  {
    SumPrefixStep(u, 0);
    assert u[..0] == [];
    assert c[0] == u[0];
    assert Count(1) == 1.0;
  }

  /** The Lagrange multiplier `(cssv[rho] - s) / (rho + 1)`. */
  function Theta(v: Vector, s: real): real
    requires s > 0.0 && |v| > 0
  {
    var rho := Rho(v, s);
    Quotient(CumSum(SortDesc(v))[rho] - s, Count(rho + 1))
  }

  function Quotient(a: real, k: real): (t: real)
    requires k > 0.0
    ensures k * t == a
  {
    MulDiv(a, k);
    a / k
  }

  /** The natural number `n` as a real (the entries of `np.arange`),
      defined by counting so that the induction proofs below can unfold
      `Count(n + 1) == Count(n) + 1.0` instead of reasoning about `n as real`. */
  function Count(n: nat): (r: real)
    ensures n > 0 ==> r >= 1.0
    ensures r >= 0.0
  {
    if n == 0 then 0.0 else Count(n - 1) + 1.0
  }

  function Pos(a: real): real
  {
    if a > 0.0 then a else 0.0
  }

  /** `(v - theta).clip(min=0)`. */
  function Clip(v: Vector, theta: real): (w: Vector)
    ensures |w| == |v|
    ensures forall i :: 0 <= i < |v| ==> w[i] == Pos(v[i] - theta)
  {
    seq(|v|, i requires 0 <= i < |v| => Pos(v[i] - theta))
  }

  /** What `clip(min=0)` gives: no entry is negative, each is at least
      `v[i] - theta`, and each is zero or exactly `v[i] - theta`. */
  lemma ClipMeaning(v: Vector, theta: real)
    ensures var w := Clip(v, theta);
      NonNegative(w) &&
      forall i :: 0 <= i < |v| ==> w[i] >= v[i] - theta && (w[i] == 0.0 || w[i] == v[i] - theta)
  {
  }

  /** The projection of a vector of positive length onto the simplex of
      radius `s > 0`: nonnegative, summing to `s`, and the vector itself
      when it is already on the simplex. */
  function Project(v: Vector, s: real): (w: Vector)
    requires s > 0.0 && |v| > 0
    ensures |w| == |v|
    ensures OnSimplex(w, s)
    ensures OnSimplex(v, s) ==> w == v
  {
    if Sum(v) == s && NonNegative(v) then v
    else
      ThresholdSum(v, s);
      ClipMeaning(v, Theta(v, s));
      Clip(v, Theta(v, s))
  }

  /** `euclidean_proj_simplex(v, s)` with its two failures. */
  function EuclideanProjSimplex(v: Vector, s: real): (r: ProjResult)
    ensures r.Projected? <==> s > 0.0 && |v| > 0
    ensures s <= 0.0 ==> r == Failed(RadiusNotPositive)
    ensures s > 0.0 && |v| == 0 ==> r == Failed(EmptyVector)
    ensures r.Projected? ==> |r.w| == |v| && OnSimplex(r.w, s)
    ensures r.Projected? && OnSimplex(v, s) ==> r.w == v
  {
    if s <= 0.0 then Failed(RadiusNotPositive)
    else if Sum(v) == s && NonNegative(v) then Projected(v)
    else if |v| == 0 then Failed(EmptyVector)
    else Projected(Project(v, s))
  }

  // ---------------------------------------------------------------------
  // Why the thresholded vector sums to s

  lemma {:induction false} ClipTail(v: Vector, theta: real)
    requires v != []
    ensures Clip(v, theta)[1..] == Clip(v[1..], theta)
  {
  }

  lemma {:induction false} ClipAppend(a: Vector, b: Vector, theta: real)
    ensures Sum(Clip(a + b, theta)) == Sum(Clip(a, theta)) + Sum(Clip(b, theta))
  {
    assert Clip(a + b, theta) == Clip(a, theta) + Clip(b, theta);
    SumAppend(Clip(a, theta), Clip(b, theta));
  }

  /** Inserting `x` adds its clipped value to the clipped sum. */
  lemma {:induction false} ClipInsert(x: real, u: Vector, theta: real)
    requires SortedDesc(u)
    ensures Sum(Clip(InsertDesc(x, u), theta)) == Pos(x - theta) + Sum(Clip(u, theta))
  {
    var r := InsertDesc(x, u);
    if u == [] || x >= u[0] {
      assert r == [x] + u;
      ClipTail(r, theta);
    } else {
      assert r == [u[0]] + InsertDesc(x, u[1..]);
      ClipTail(r, theta);
      ClipTail(u, theta);
      ClipInsert(x, u[1..], theta);
    }
  }

  /** Sorting does not change the clipped sum. */
  lemma {:induction false} ClipSort(v: Vector, theta: real)
    ensures Sum(Clip(SortDesc(v), theta)) == Sum(Clip(v, theta))
  {
    if v != [] {
      ClipInsert(v[0], SortDesc(v[1..]), theta);
      ClipTail(v, theta);
      ClipSort(v[1..], theta);
    }
  }

  lemma {:induction false} ClipAbove(a: Vector, theta: real)
    requires forall i :: 0 <= i < |a| ==> a[i] > theta
    ensures Sum(Clip(a, theta)) == Sum(a) - Count(|a|) * theta
  {
    if a != [] {
      ClipTail(a, theta);
      ClipAbove(a[1..], theta);
    }
  }

  lemma {:induction false} ClipBelow(a: Vector, theta: real)
    requires forall i :: 0 <= i < |a| ==> a[i] <= theta
    ensures Sum(Clip(a, theta)) == 0.0
  {
    if a != [] {
      ClipTail(a, theta);
      ClipBelow(a[1..], theta);
    }
  }

  lemma MulDiv(a: real, k: real)
    requires k > 0.0
    ensures k * (a / k) == a
  {
  }

  lemma ThetaBelow(a: real, t: real, k: real, cs: real)
    requires k > 0.0 && a * k > cs && k * t == cs
    ensures a > t
  {
  }

  lemma ThetaAbove(a: real, t: real, k: real, k1: real, cs: real)
    requires k > 0.0 && k1 == k + 1.0 && a * k1 <= cs + a && k * t == cs
    ensures a <= t
  {
    assert a * k1 == a * k + a;
  }

  /** In a descending sequence, the entries up to a last passing index lie
      strictly above its multiplier `theta` and the rest at or below it. */
  lemma {:induction false} PivotSplits(u: Vector, c: Vector, s: real, rho: nat, theta: real)
    requires SortedDesc(u) && c == CumSum(u) && rho < |u|
    requires PivotTest(u, c, s, rho)
    requires rho + 1 < |u| ==> !PivotTest(u, c, s, rho + 1)
    requires theta == Quotient(c[rho] - s, Count(rho + 1))
    ensures forall i :: 0 <= i <= rho ==> u[i] > theta
    ensures forall i :: rho < i < |u| ==> u[i] <= theta
  {
    var k, cs := Count(rho + 1), c[rho] - s;
    assert k * theta == cs;
    assert u[rho] * k > cs;
    ThetaBelow(u[rho], theta, k, cs);
    if rho + 1 < |u| {
      var k1 := Count(rho + 2);
      assert k1 == k + 1.0;
      SumPrefixStep(u, rho + 1);
      assert c[rho + 1] == c[rho] + u[rho + 1];
      assert u[rho + 1] * k1 <= c[rho + 1] - s;
      ThetaAbove(u[rho + 1], theta, k, k1, cs);
    }
  }

  /** The thresholded vector sums to `s`. */
  lemma {:induction false} ThresholdSum(v: Vector, s: real)
    requires s > 0.0 && |v| > 0
    ensures Sum(Clip(v, Theta(v, s))) == s
  {
    var u := SortDesc(v);
    var c := CumSum(u);
    var rho := Rho(v, s);
    var theta := Quotient(c[rho] - s, Count(rho + 1));
    assert theta == Theta(v, s);
    PivotThreshold(u, c, s, rho, theta);
    ClipSort(v, theta);
  }

  /** Thresholding a descending sequence at its pivot's multiplier leaves
      mass `s`. */
  lemma {:induction false} PivotThreshold(u: Vector, c: Vector, s: real, rho: nat, theta: real)
    requires SortedDesc(u) && c == CumSum(u) && rho < |u|
    requires PivotTest(u, c, s, rho)
    requires rho + 1 < |u| ==> !PivotTest(u, c, s, rho + 1)
    requires theta == Quotient(c[rho] - s, Count(rho + 1))
    ensures Sum(Clip(u, theta)) == s
  {
    PivotSplits(u, c, s, rho, theta);
    ThresholdSorted(u, rho + 1, theta);
    assert Sum(u[..rho + 1]) == c[rho];
  }

  lemma {:induction false} ThresholdSorted(u: Vector, m: nat, theta: real)
    requires 0 < m <= |u|
    requires forall i :: 0 <= i < m ==> u[i] > theta
    requires forall i :: m <= i < |u| ==> u[i] <= theta
    ensures Sum(Clip(u, theta)) == Sum(u[..m]) - Count(m) * theta
  {
    ClipSplit(u, m, theta);
    ClipAbove(u[..m], theta);
    ClipBelow(u[m..], theta);
  }

  lemma {:induction false} ClipSplit(u: Vector, m: nat, theta: real)
    requires m <= |u|
    ensures Sum(Clip(u, theta)) == Sum(Clip(u[..m], theta)) + Sum(Clip(u[m..], theta))
  {
    assert u == u[..m] + u[m..];
    ClipAppend(u[..m], u[m..], theta);
  }

  // ---------------------------------------------------------------------
  // The result is the nearest point of the simplex, and projecting twice
  // changes nothing

  function SqDist(a: Vector, b: Vector): (d: real)
    requires |a| == |b|
    ensures d >= 0.0
  {
    if a == [] then 0.0 else (a[0] - b[0]) * (a[0] - b[0]) + SqDist(a[1..], b[1..])
  }

  /** `sum_i theta * (x[i] - w[i])`. */
  function Cross(x: Vector, w: Vector, theta: real): real
    requires |x| == |w|
  {
    if x == [] then 0.0 else theta * (x[0] - w[0]) + Cross(x[1..], w[1..], theta)
  }

  lemma Distrib(t: real, a: real, b: real)
    ensures t * (a + b) == t * a + t * b
  {
  }

  lemma {:induction false} CrossIsMassGap(x: Vector, w: Vector, theta: real)
    requires |x| == |w|
    ensures Cross(x, w, theta) == theta * (Sum(x) - Sum(w))
  {
    if x != [] {
      CrossIsMassGap(x[1..], w[1..], theta);
      Distrib(theta, x[0] - w[0], Sum(x[1..]) - Sum(w[1..]));
      assert Sum(x) - Sum(w) == (x[0] - w[0]) + (Sum(x[1..]) - Sum(w[1..]));
    }
  }

  /** How much farther `x` is from `v` than `w` is, in one coordinate, plus
      twice the multiplier times `x - w`. */
  function Excess(x: real, v: real, w: real, theta: real): real
  {
    (x - v) * (x - v) - (w - v) * (w - v) + 2.0 * (theta * (x - w))
  }

  /** Clipping one coordinate minimises its distance plus the multiplier
      term over the nonnegative reals (the optimality condition per
      coordinate). */
  lemma ClipCoordinate(x: real, v: real, theta: real)
    requires x >= 0.0
    ensures Excess(x, v, Pos(v - theta), theta) >= 0.0
  {
    if v - theta > 0.0 {
      var d := x - v + theta;
      assert Excess(x, v, v - theta, theta) == d * d;
    } else {
      assert Excess(x, v, 0.0, theta) == x * x + 2.0 * (x * (theta - v));
      assert x * (theta - v) >= 0.0;
    }
  }

  /** The coordinate excesses summed over the vector. */
  function TotalExcess(x: Vector, v: Vector, theta: real): real
    requires |x| == |v|
  {
    if x == [] then 0.0
    else Excess(x[0], v[0], Pos(v[0] - theta), theta) + TotalExcess(x[1..], v[1..], theta)
  }

  lemma {:induction false} TotalExcessNonNegative(x: Vector, v: Vector, theta: real)
    requires |x| == |v| && NonNegative(x)
    ensures TotalExcess(x, v, theta) >= 0.0
  {
    if x != [] {
      ClipCoordinate(x[0], v[0], theta);
      TotalExcessNonNegative(x[1..], v[1..], theta);
    }
  }

  lemma {:induction false} TotalExcessIsGap(x: Vector, v: Vector, theta: real)
    requires |x| == |v|
    ensures TotalExcess(x, v, theta)
      == SqDist(x, v) - SqDist(Clip(v, theta), v) + 2.0 * Cross(x, Clip(v, theta), theta)
  {
    if x != [] {
      var w := Clip(v, theta);
      ClipTail(v, theta);
      var px, pw, pc := (x[0] - v[0]) * (x[0] - v[0]), (w[0] - v[0]) * (w[0] - v[0]), theta * (x[0] - w[0]);
      assert Excess(x[0], v[0], Pos(v[0] - theta), theta) == px - pw + 2.0 * pc by {
        assert w[0] == Pos(v[0] - theta);
      }
      var dx, dw, cr := SqDist(x[1..], v[1..]), SqDist(w[1..], v[1..]), Cross(x[1..], w[1..], theta);
      assert TotalExcess(x[1..], v[1..], theta) == dx - dw + 2.0 * cr by {
        TotalExcessIsGap(x[1..], v[1..], theta);
      }
      assert SqDist(x, v) == px + dx;
      assert SqDist(w, v) == pw + dw;
      assert Cross(x, w, theta) == pc + cr;
    }
  }

  /** For every threshold, clipping is at least as close to `v` as any
      nonnegative `x`, up to twice the multiplier times the difference in
      mass. */
  lemma {:induction false} ClipNearest(v: Vector, x: Vector, theta: real)
    requires |x| == |v| && NonNegative(x)
    ensures SqDist(x, v) - SqDist(Clip(v, theta), v) >= -2.0 * Cross(x, Clip(v, theta), theta)
  {
    TotalExcessNonNegative(x, v, theta);
    TotalExcessIsGap(x, v, theta);
  }

  /** The projection is no farther from `v` than any point of the simplex. */
  lemma {:induction false} ProjectIsNearest(v: Vector, s: real, x: Vector)
    requires s > 0.0 && |v| > 0
    requires |x| == |v| && OnSimplex(x, s)
    ensures SqDist(Project(v, s), v) <= SqDist(x, v)
  {
    if Sum(v) == s && NonNegative(v) {
      SqDistSelf(v);
    } else {
      ThresholdSum(v, s);
      ClipOfSameMassIsNearer(v, x, Theta(v, s), s);
    }
  }

  /** A clipped vector with the same mass as a nonnegative `x` is at least
      as close to `v` as `x` is. */
  lemma {:induction false} ClipOfSameMassIsNearer(v: Vector, x: Vector, theta: real, s: real)
    requires |x| == |v| && NonNegative(x) && Sum(x) == s
    requires Sum(Clip(v, theta)) == s
    ensures SqDist(Clip(v, theta), v) <= SqDist(x, v)
  {
    var w := Clip(v, theta);
    var dx, dw, cr := SqDist(x, v), SqDist(w, v), Cross(x, w, theta);
    assert dx - dw >= -2.0 * cr by { ClipNearest(v, x, theta); }
    assert cr == 0.0 by {
      CrossIsMassGap(x, w, theta);
      assert Sum(x) == Sum(w);
    }
  }

  lemma {:induction false} SqDistSelf(v: Vector)
    ensures SqDist(v, v) == 0.0
  {
    if v != [] {
      SqDistSelf(v[1..]);
    }
  }

  /** Projecting a projection returns it unchanged. */
  lemma {:induction false} ProjectIdempotent(v: Vector, s: real)
    requires s > 0.0 && |v| > 0
    ensures Project(Project(v, s), s) == Project(v, s)
  {
  }
}
