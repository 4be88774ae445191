/** The bucketed branch of `ConvexConcaveProblem.compute_DzJzKzhz`, used when
    the regressors predict class labels: every domain `k` votes at point
    `x` for the class `int(h[x, k])` with weight `hz[x, k]` (and, in a
    second tally, `Jz[x, k]`), and the aggregated prediction at `x` is the
    first class of largest total vote. */
module Aggregation {
  import opened Vectors
  import opened Arrays

  /** Python's `int()` on a float: truncation toward zero. */
  function Trunc(t: real): (i: int)
    ensures t >= 0.0 ==> 0 <= i && (i as real) <= t < (i as real) + 1.0
    ensures t < 0.0 ==> i <= 0 && (i as real) - 1.0 < t <= (i as real)
  {
    if t >= 0.0 then t.Floor else -((-t).Floor)
  }

  /** The label `t` names a slot of a row of `C` entries: numpy accepts
      indices from `-C` to `C - 1`. */
  predicate InRange(t: real, C: nat)
  {
    -(C as int) <= Trunc(t) < C as int
  }

  /** The slot `int(t)` designates, negative indices counting from the
      end. */
  function Slot(t: real, C: nat): (c: nat)
    requires InRange(t, C)
    ensures c < C
    ensures Trunc(t) >= 0 ==> c as int == Trunc(t)
    ensures Trunc(t) < 0 ==> c as int == Trunc(t) + C as int
  {
    var i := Trunc(t);
    if i < 0 then i + C as int else i
  }

  /** `Jz[x, k]` before the vote: `z_k D[x, k] + etaU / p`. */
  function JzWeight(zk: real, dxk: real, etaU: real, p: nat): real
    requires p > 0
  {
    zk * dxk + etaU / (p as real)
  }

  /** `hz[x, k]` before the vote: `Jz[x, k] / (z_k D[x, k] + etaU)`. */
  function HzWeight(zk: real, dxk: real, etaU: real, p: nat): real
    requires p > 0 && zk * dxk + etaU != 0.0
  {
    JzWeight(zk, dxk, etaU, p) / (zk * dxk + etaU)
  }

  /** For weights and densities that are not negative, every vote is
      positive, and no `hz` vote exceeds one. */
  lemma WeightBounds(zk: real, dxk: real, etaU: real, p: nat)
    requires p > 0 && zk >= 0.0 && dxk >= 0.0 && etaU > 0.0
    ensures JzWeight(zk, dxk, etaU, p) > 0.0
    ensures zk * dxk + etaU > 0.0 && 0.0 < HzWeight(zk, dxk, etaU, p) <= 1.0
  {
    var a := zk * dxk;
    assert a >= 0.0;
    var q, pr := etaU / (p as real), p as real;
    assert q * pr == etaU;
    assert q > 0.0;
    ProductNonNegative(q, pr - 1.0);
    assert q * pr - q == q * (pr - 1.0);
    var j := JzWeight(zk, dxk, etaU, p);
    assert 0.0 < j <= a + etaU;
    assert (j / (a + etaU)) * (a + etaU) == j;
  }

  lemma ProductNonNegative(a: real, b: real)
    requires a >= 0.0 && b >= 0.0
    ensures a * b >= 0.0
  {
  }

  /** What `compute_DzJzKzhz` needs of its inputs: `p` domains, densities
      and predictions with a row per point, at most that many true values,
      weights and densities that are not negative, and `etaU > 0` (so that
      no denominator vanishes). */
  predicate Inputs(y: Vector, D: Matrix, h: Matrix, z: Vector, etaU: real)
  {
    |z| > 0 && IsMatrix(D, |D|, |z|) && |h| == |D| && |y| <= |D| &&
    (forall x :: 0 <= x < |h| ==> |z| <= |h[x]|) &&
    NonNegative(z) && (forall x, k :: 0 <= x < |D| && 0 <= k < |z| ==> D[x][k] >= 0.0) &&
    etaU > 0.0
  }

  /** The table of `Jz` votes, one row per point, one column per domain. */
  function JzVotes(D: Matrix, z: Vector, etaU: real): (w: Matrix)
    requires |z| > 0 && IsMatrix(D, |D|, |z|)
    ensures IsMatrix(w, |D|, |z|)
  {
    seq(|D|, x requires 0 <= x < |D| =>
      seq(|z|, k requires 0 <= k < |z| => JzWeight(z[k], D[x][k], etaU, |z|)))
  }

  /** The table of `hz` votes. */
  function HzVotes(D: Matrix, z: Vector, etaU: real): (w: Matrix)
    requires |z| > 0 && IsMatrix(D, |D|, |z|) && etaU > 0.0 && NonNegative(z)
    requires forall x, k :: 0 <= x < |D| && 0 <= k < |z| ==> D[x][k] >= 0.0
    ensures IsMatrix(w, |D|, |z|)
  {
    seq(|D|, x requires 0 <= x < |D| =>
      seq(|z|, k requires 0 <= k < |z| =>
        WeightBounds(z[k], D[x][k], etaU, |z|);
        HzWeight(z[k], D[x][k], etaU, |z|)))
  }

  /** The total vote for slot `c` of the first `kk` domains, whose labels
      are `labels`. */
  function RowBucket(w: Vector, labels: Vector, C: nat, c: nat, kk: nat): real
    requires kk <= |w| && kk <= |labels|
    requires forall k :: 0 <= k < kk ==> InRange(labels[k], C)
    decreases kk
  {
    if kk == 0 then 0.0
    else RowBucket(w, labels, C, c, kk - 1) + (if Slot(labels[kk - 1], C) == c then w[kk - 1] else 0.0)
  }

  /** Every domain's label at every counted point names a slot. */
  predicate LabelsInRange(h: Matrix, m: nat, p: nat, C: nat)
  {
    forall x, k :: 0 <= x < m && 0 <= k < p && x < |h| && k < |h[x]| ==> InRange(h[x][k], C)
  }

  /** Row `x` of `hz_prob` (or `Jz_prob`, for the `Jz` votes) after the
      loops: the tally of all `p` domains at the first `m` points, zero at
      the others. */
  function Buckets(w: Matrix, h: Matrix, m: nat, p: nat, C: nat, x: nat): (b: Vector)
    requires x < |w| == |h| && p <= |w[x]| && p <= |h[x]| && LabelsInRange(h, m, p, C)
    ensures |b| == C
  {
    seq(C, c requires 0 <= c < C => if x < m then RowBucket(w[x], h[x], C, c, p) else 0.0)
  }

  /** The outcome of the bucketed branch: `Dz`, the `Jz` labels, `Kz` and
      the `hz` labels. */
  datatype Aggregated = Aggregated(dz: Vector, jz: seq<nat>, kz: Vector, hz: seq<nat>)

  /** How the branch fails: a label outside `[-C, C)` (`IndexError`), or no
      classes at all (`argmax` of an empty row). */
  datatype AggError = LabelOutOfRange | NoClasses

  datatype AggResult = Aggregate(value: Aggregated) | AggFailed(error: AggError)

  /** `Dz[x] = sum_k z_k D[x, k]`. */
  function MixedDensity(D: Matrix, z: Vector, x: nat): real
    requires x < |D| && |D[x]| == |z|
  {
    Sum(seq(|z|, k requires 0 <= k < |z| => z[k] * D[x][k]))
  }

  /** The bucketed branch of `compute_DzJzKzhz(z)` with `C` classes, on the
      values. */
  function AggregateVotes(y: Vector, D: Matrix, h: Matrix, z: Vector, etaU: real, C: nat): AggResult
    requires Inputs(y, D, h, z, etaU)
  {
    var p := |z|;
    if !LabelsInRange(h, |y|, p, C) then AggFailed(LabelOutOfRange)
    else if C == 0 then AggFailed(NoClasses)
    else
      var dz := seq(|D|, x requires 0 <= x < |D| => MixedDensity(D, z, x));
      var hzW, jzW := HzVotes(D, z, etaU), JzVotes(D, z, etaU);
      Aggregate(Aggregated(
        dz,
        seq(|D|, x requires 0 <= x < |D| => ArgMax(Buckets(jzW, h, |y|, p, C, x))),
        seq(|D|, x requires 0 <= x < |D| => dz[x] + etaU),
        seq(|D|, x requires 0 <= x < |D| => ArgMax(Buckets(hzW, h, |y|, p, C, x)))))
  }

  /** Outcome of the branch: it fails with `LabelOutOfRange` exactly when
      some domain's label at a counted point lies outside `[-C, C)`, and with
      `NoClasses` exactly when the labels are in range but `C == 0`, which
      can only happen with no counted points; otherwise `hz[x]` and `jz[x]`
      are the first slots of largest tally at every point, `Dz` is not
      negative, and `Kz` exceeds it by `etaU`. */
  lemma AggregateVotesMeaning(y: Vector, D: Matrix, h: Matrix, z: Vector, etaU: real, C: nat)
    requires Inputs(y, D, h, z, etaU)
    ensures var r := AggregateVotes(y, D, h, z, etaU, C);
      (r == AggFailed(LabelOutOfRange) <==> !LabelsInRange(h, |y|, |z|, C)) &&
      (r == AggFailed(NoClasses) <==> LabelsInRange(h, |y|, |z|, C) && C == 0) &&
      (r == AggFailed(NoClasses) ==> |y| == 0)
    ensures var r := AggregateVotes(y, D, h, z, etaU, C);
      r.Aggregate? ==>
        var a := r.value;
        |a.dz| == |a.jz| == |a.kz| == |a.hz| == |D| &&
        forall x :: 0 <= x < |D| ==>
          IsFirstArgMax(Buckets(HzVotes(D, z, etaU), h, |y|, |z|, C, x), a.hz[x]) && a.hz[x] < C &&
          IsFirstArgMax(Buckets(JzVotes(D, z, etaU), h, |y|, |z|, C, x), a.jz[x]) && a.jz[x] < C &&
          a.dz[x] == MixedDensity(D, z, x) && a.dz[x] >= 0.0 && a.kz[x] - a.dz[x] == etaU
  {
    if C == 0 && |y| > 0 {
      assert !InRange(h[0][0], C);
    }
    var r := AggregateVotes(y, D, h, z, etaU, C);
    if r.Aggregate? {
      forall x | 0 <= x < |D|
        ensures MixedDensity(D, z, x) >= 0.0
      {
        var terms := seq(|z|, k requires 0 <= k < |z| => z[k] * D[x][k]);
        forall k | 0 <= k < |z|
          ensures terms[k] >= 0.0
        {
          ProductNonNegative(z[k], D[x][k]);
        }
        SumNonNegative(terms);
      }
    }
  }

  /** The votes for slot `c` of the first `kk` domains, over all slots,
      add up to the first `kk` votes: each domain's vote lands in exactly
      one slot. */
  lemma {:induction false} RowMass(w: Vector, labels: Vector, C: nat, kk: nat)
    requires kk <= |w| && kk <= |labels|
    requires forall k :: 0 <= k < kk ==> InRange(labels[k], C)
    ensures Sum(seq(C, c requires 0 <= c < C => RowBucket(w, labels, C, c, kk))) == Sum(w[..kk])
    decreases kk
  {
    var row := seq(C, c requires 0 <= c < C => RowBucket(w, labels, C, c, kk));
    if kk == 0 {
      assert row == seq(C, c requires 0 <= c < C => if c == C then 0.0 else 0.0);
      SumSingle(C, C, 0.0);
    } else {
      var prev := seq(C, c requires 0 <= c < C => RowBucket(w, labels, C, c, kk - 1));
      var slot := Slot(labels[kk - 1], C);
      var hot := seq(C, c requires 0 <= c < C => if c == slot then w[kk - 1] else 0.0);
      assert row == seq(C, c requires 0 <= c < C => prev[c] + hot[c]);
      RowMass(w, labels, C, kk - 1);
      SumPointwise(prev, hot);
      SumSingle(C, slot, w[kk - 1]);
      SumPrefixStep(w, kk - 1);
    }
  }

  /** Row `x` of a tally sums to the votes of the `p` domains at `x` (for a
      counted point; an uncounted row stays zero): the loops move every
      vote into a slot and lose none. */
  lemma BucketMass(w: Matrix, h: Matrix, m: nat, p: nat, C: nat, x: nat)
    requires x < |w| == |h| && p <= |w[x]| && p <= |h[x]| && LabelsInRange(h, m, p, C)
    ensures Sum(Buckets(w, h, m, p, C, x)) == if x < m then Sum(w[x][..p]) else 0.0
  {
    var b := Buckets(w, h, m, p, C, x);
    if x < m {
      RowMass(w[x], h[x], C, p);
      assert b == seq(C, c requires 0 <= c < C => RowBucket(w[x], h[x], C, c, p));
    } else {
      SumSingle(C, C, 0.0);
      assert b == seq(C, c requires 0 <= c < C => if c == C then 0.0 else 0.0);
    }
  }

  /** A slot no domain voted for has an empty tally. */
  lemma {:induction false} RowBucketUnvoted(w: Vector, labels: Vector, C: nat, c: nat, kk: nat)
    requires kk <= |w| && kk <= |labels|
    requires forall k :: 0 <= k < kk ==> InRange(labels[k], C) && Slot(labels[k], C) != c
    ensures RowBucket(w, labels, C, c, kk) == 0.0
    decreases kk
  {
    if kk > 0 {
      RowBucketUnvoted(w, labels, C, c, kk - 1);
    }
  }

  /** A slot every domain voted for, with positive votes, has a positive
      tally. */
  lemma {:induction false} RowBucketUnanimous(w: Vector, labels: Vector, C: nat, c: nat, kk: nat)
    requires 0 < kk <= |w| && kk <= |labels|
    requires forall k :: 0 <= k < kk ==> InRange(labels[k], C) && Slot(labels[k], C) == c && w[k] > 0.0
    ensures RowBucket(w, labels, C, c, kk) > 0.0
    decreases kk
  {
    if kk > 1 {
      RowBucketUnanimous(w, labels, C, c, kk - 1);
    }
  }

  /** When every domain's label at a counted point names the same slot
      and every vote is positive, that slot wins the `argmax`. */
  lemma UnanimousBucket(w: Matrix, h: Matrix, m: nat, p: nat, C: nat, x: nat, c0: nat)
    requires x < m && x < |w| == |h| && 0 < p <= |w[x]| && p <= |h[x]| && LabelsInRange(h, m, p, C)
    requires forall k :: 0 <= k < p ==> Slot(h[x][k], C) == c0 && w[x][k] > 0.0
    ensures C > 0 && ArgMax(Buckets(w, h, m, p, C, x)) == c0
  {
    assert InRange(h[x][0], C);
    var b := Buckets(w, h, m, p, C, x);
    RowBucketUnanimous(w[x], h[x], C, c0, p);
    forall c | 0 <= c < C && c != c0
      ensures b[c] == 0.0
    {
      RowBucketUnvoted(w[x], h[x], C, c, p);
    }
    assert b[c0] <= b[ArgMax(b)];
  }

  /** When all domains predict the same class at a counted point, the
      aggregated `hz` and `Jz` labels are that class. */
  lemma UnanimousDomains(y: Vector, D: Matrix, h: Matrix, z: Vector, etaU: real, C: nat, x: nat, c0: nat)
    requires Inputs(y, D, h, z, etaU) && LabelsInRange(h, |y|, |z|, C) && x < |y|
    requires forall k :: 0 <= k < |z| ==> Slot(h[x][k], C) == c0
    ensures var r := AggregateVotes(y, D, h, z, etaU, C);
      r.Aggregate? && r.value.hz[x] == c0 && r.value.jz[x] == c0
  {
    var hzW, jzW := HzVotes(D, z, etaU), JzVotes(D, z, etaU);
    forall k | 0 <= k < |z|
      ensures hzW[x][k] > 0.0 && jzW[x][k] > 0.0
    {
      WeightBounds(z[k], D[x][k], etaU, |z|);
    }
    UnanimousBucket(hzW, h, |y|, |z|, C, x, c0);
    UnanimousBucket(jzW, h, |y|, |z|, C, x, c0);
  }

  // ---------------------------------------------------------------------
  // The loops

  /** `hz_prob[x, c]` (or `Jz_prob[x, c]`) after the first `kk` domains. */
  function Tally(w: Matrix, h: Matrix, m: nat, C: nat, kk: nat, x: nat, c: nat): real
    requires x < |w| == |h| && kk <= |w[x]| && kk <= |h[x]|
    requires LabelsInRange(h, m, kk, C)
  {
    if x < m then RowBucket(w[x], h[x], C, c, kk) else 0.0
  }

  /** The inner loop for domain `k`: at every counted point `x`, add
      `hz[x, k]` and `Jz[x, k]` into slot `int(h[x, k])` of row `x` of
      `hz_prob` and `Jz_prob`; stop at the first label outside the row. */
  method AddDomain(hzW: Matrix, jzW: Matrix, h: Matrix, m: nat, C: nat, k: nat, hzProb: array2<real>, jzProb: array2<real>)
    returns (ok: bool)
    requires hzProb != jzProb
    requires hzProb.Length0 == jzProb.Length0 == |hzW| == |jzW| == |h| && hzProb.Length1 == jzProb.Length1 == C
    requires m <= |h| && forall x :: 0 <= x < |h| ==> k < |hzW[x]| && k < |jzW[x]| && k < |h[x]|
    modifies hzProb, jzProb
    ensures ok <==> forall x :: 0 <= x < m ==> InRange(h[x][k], C)
    ensures ok ==> forall x, c :: 0 <= x < |h| && 0 <= c < C ==>
      hzProb[x, c] == old(hzProb[x, c]) + (if x < m && Slot(h[x][k], C) == c then hzW[x][k] else 0.0) &&
      jzProb[x, c] == old(jzProb[x, c]) + (if x < m && Slot(h[x][k], C) == c then jzW[x][k] else 0.0)
  {
    var x := 0;
    while x < m
      invariant 0 <= x <= m
      invariant forall x' :: 0 <= x' < x ==> InRange(h[x'][k], C)
      invariant forall x', c :: 0 <= x' < |h| && 0 <= c < C ==>
        hzProb[x', c] == old(hzProb[x', c]) + (if x' < x && Slot(h[x'][k], C) == c then hzW[x'][k] else 0.0) &&
        jzProb[x', c] == old(jzProb[x', c]) + (if x' < x && Slot(h[x'][k], C) == c then jzW[x'][k] else 0.0)
    {
      if !InRange(h[x][k], C) {
        return false;
      }
      var c := Slot(h[x][k], C);
      hzProb[x, c] := hzProb[x, c] + hzW[x][k];
      jzProb[x, c] := jzProb[x, c] + jzW[x][k];
      x := x + 1;
    }
    return true;
  }

  /** The two nested loops: for every domain, for every counted point, add
      both votes into the slot of the label; stop at the first label outside
      the row. */
  method Tallies(hzW: Matrix, jzW: Matrix, h: Matrix, m: nat, p: nat, C: nat, hzProb: array2<real>, jzProb: array2<real>)
    returns (ok: bool)
    requires hzProb != jzProb
    requires hzProb.Length0 == jzProb.Length0 == |hzW| == |jzW| == |h| && hzProb.Length1 == jzProb.Length1 == C
    requires m <= |h| && forall x :: 0 <= x < |h| ==> p <= |hzW[x]| && p <= |jzW[x]| && p <= |h[x]|
    requires forall x, c :: 0 <= x < |h| && 0 <= c < C ==> hzProb[x, c] == 0.0 && jzProb[x, c] == 0.0
    modifies hzProb, jzProb
    ensures ok <==> LabelsInRange(h, m, p, C)
    ensures ok ==> forall x, c :: 0 <= x < |h| && 0 <= c < C ==>
      hzProb[x, c] == Tally(hzW, h, m, C, p, x, c) && jzProb[x, c] == Tally(jzW, h, m, C, p, x, c)
  {
    var k := 0;
    while k < p
      invariant 0 <= k <= p
      invariant LabelsInRange(h, m, k, C)
      invariant forall x, c :: 0 <= x < |h| && 0 <= c < C ==>
        hzProb[x, c] == Tally(hzW, h, m, C, k, x, c) && jzProb[x, c] == Tally(jzW, h, m, C, k, x, c)
    {
      ok := AddDomain(hzW, jzW, h, m, C, k, hzProb, jzProb);
      if !ok {
        assert !LabelsInRange(h, m, p, C);
        return false;
      }
      k := k + 1;
    }
    return true;
  }

  /** `compute_DzJzKzhz(z)` in the bucketed case: the vectorised votes, the
      two tallies, and the row-wise `argmax`. */
  method ComputeDzJzKzhz(y: Vector, D: Matrix, h: Matrix, z: Vector, etaU: real, C: nat) returns (r: AggResult)
    requires Inputs(y, D, h, z, etaU)
    ensures r == AggregateVotes(y, D, h, z, etaU, C)
  {
    var p, N := |z|, |D|;
    var jzW := JzVotes(D, z, etaU);
    var hzW := HzVotes(D, z, etaU);
    var hzProb := new real[N, C]((x, c) => 0.0);
    var jzProb := new real[N, C]((x, c) => 0.0);
    var ok := Tallies(hzW, jzW, h, |y|, p, C, hzProb, jzProb);
    if !ok {
      return AggFailed(LabelOutOfRange);
    }
    if C == 0 {
      return AggFailed(NoClasses);
    }
    forall x | 0 <= x < N
      ensures RowOf(hzProb, x) == Buckets(hzW, h, |y|, p, C, x)
      ensures RowOf(jzProb, x) == Buckets(jzW, h, |y|, p, C, x)
    {
    }
    var hz := seq(N, x requires 0 <= x < N reads hzProb => ArgMax(RowOf(hzProb, x)));
    var jz := seq(N, x requires 0 <= x < N reads jzProb => ArgMax(RowOf(jzProb, x)));
    var dz := seq(N, x requires 0 <= x < N => MixedDensity(D, z, x));
    var kz := seq(N, x requires 0 <= x < N => dz[x] + etaU);
    r := Aggregate(Aggregated(dz, jz, kz, hz));
  }
}
