/** Real vectors as sequences: sums, elementwise helpers and first-index argmax,
    shared by the projection, the solver and the aggregation. */
module Vectors {

  type Vector = seq<real>

  /** Sum of the entries (numpy's `sum`). */
  function Sum(v: Vector): real
  {
    if v == [] then 0.0 else v[0] + Sum(v[1..])
  }

  lemma {:induction false} SumAppend(a: Vector, b: Vector)
    ensures Sum(a + b) == Sum(a) + Sum(b)
  {
    if a == [] {
      assert a + b == b;
    } else {
      assert (a + b)[1..] == a[1..] + b;
      SumAppend(a[1..], b);
    }
  }

  /** The sum of a prefix grows by the next entry. */
  lemma {:induction false} SumPrefixStep(v: Vector, i: nat)
    requires i < |v|
    ensures Sum(v[..i + 1]) == Sum(v[..i]) + v[i]
  {
    assert v[..i + 1] == v[..i] + [v[i]];
    SumAppend(v[..i], [v[i]]);
  }

  /** Summing two vectors entry by entry adds their sums. */
  lemma {:induction false} SumPointwise(a: Vector, b: Vector)
    requires |a| == |b|
    ensures Sum(seq(|a|, i requires 0 <= i < |a| => a[i] + b[i])) == Sum(a) + Sum(b)
  {
    if |a| > 0 {
      var s := seq(|a|, i requires 0 <= i < |a| => a[i] + b[i]);
      SumPointwise(a[1..], b[1..]);
      assert s[1..] == seq(|a| - 1, i requires 0 <= i < |a| - 1 => a[1..][i] + b[1..][i]);
    }
  }

  /** A vector that is `v` at index `c` and zero elsewhere sums to `v`, or
      to zero when `c` is not an index. */
  lemma {:induction false} SumSingle(n: nat, c: int, v: real)
    ensures Sum(seq(n, i requires 0 <= i < n => if i == c then v else 0.0)) == if 0 <= c < n then v else 0.0
  {
    if n > 0 {
      var s := seq(n, i requires 0 <= i < n => if i == c then v else 0.0);
      SumSingle(n - 1, c - 1, v);
      assert s[1..] == seq(n - 1, i requires 0 <= i < n - 1 => if i == c - 1 then v else 0.0);
    }
  }

  lemma {:induction false} SumNonNegative(v: Vector)
    requires NonNegative(v)
    ensures Sum(v) >= 0.0
  {
    if v != [] {
      SumNonNegative(v[1..]);
    }
  }

  predicate NonNegative(v: Vector)
  {
    forall i :: 0 <= i < |v| ==> v[i] >= 0.0
  }

  /** The scaled probability simplex: nonnegative entries summing to `s`. */
  predicate OnSimplex(v: Vector, s: real)
  {
    NonNegative(v) && Sum(v) == s
  }

  /** Elementwise `a - c * b`. */
  function SubScaled(a: Vector, c: real, b: Vector): (r: Vector)
    requires |a| == |b|
    ensures |r| == |a|
    ensures forall i :: 0 <= i < |a| ==> r[i] == a[i] - c * b[i]
  {
    seq(|a|, i requires 0 <= i < |a| => a[i] - c * b[i])
  }

  /** Every entry divided by `d`. */
  function DivideBy(v: Vector, d: real): (r: Vector)
    requires d != 0.0
    ensures |r| == |v|
    ensures forall i :: 0 <= i < |v| ==> r[i] == v[i] / d
  {
    seq(|v|, i requires 0 <= i < |v| => v[i] / d)
  }

  /** Dividing every entry by `d` divides the sum by `d`. */
  lemma {:induction false} SumDivideBy(v: Vector, d: real)
    requires d != 0.0
    ensures Sum(DivideBy(v, d)) == Sum(v) / d
  {
    if v != [] {
      assert DivideBy(v, d)[1..] == DivideBy(v[1..], d);
      SumDivideBy(v[1..], d);
    }
  }

  /** Normalising a vector whose entries are nonnegative with a positive sum
      puts it on the unit simplex. */
  lemma {:induction false} NormalisedOnSimplex(v: Vector)
    requires NonNegative(v) && Sum(v) > 0.0
    ensures OnSimplex(DivideBy(v, Sum(v)), 1.0)
  {
    var t := Sum(v);
    SumDivideBy(v, t);
    DivSelf(t);
    forall i | 0 <= i < |v| ensures DivideBy(v, t)[i] >= 0.0 {
      DivNonNegative(v[i], t);
    }
  }

  lemma DivSelf(t: real)
    requires t != 0.0
    ensures t / t == 1.0
  {
    assert (t / t) * t == t;
  }

  lemma DivNonNegative(a: real, t: real)
    requires a >= 0.0 && t > 0.0
    ensures a / t >= 0.0
  {
    assert (a / t) * t == a;
  }

  type Matrix = seq<Vector>

  /** `m` has `rows` rows of `cols` entries each. */
  predicate IsMatrix(m: Matrix, rows: nat, cols: nat)
  {
    |m| == rows && forall i :: 0 <= i < rows ==> |m[i]| == cols
  }

  /** `i` is the first index of a maximal entry (numpy's `argmax`). */
  predicate IsFirstArgMax(v: Vector, i: nat)
  {
    i < |v| &&
    (forall j :: 0 <= j < |v| ==> v[j] <= v[i]) &&
    (forall j :: 0 <= j < i ==> v[j] < v[i])
  }

  function ArgMax(v: Vector): (i: nat)
    requires |v| > 0
    ensures IsFirstArgMax(v, i)
  {
    if |v| == 1 then 0
    else
      var i := ArgMax(v[..|v| - 1]);
      if v[|v| - 1] > v[i] then |v| - 1 else i
  }

  /** Python's built-in `max` over a non-empty vector. */
  function MaxOf(v: Vector): (m: real)
    requires |v| > 0
    ensures forall j :: 0 <= j < |v| ==> v[j] <= m
    ensures exists j :: 0 <= j < |v| && v[j] == m
  {
    v[ArgMax(v)]
  }
}
