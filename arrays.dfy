/** Columns and rows of numpy's two-dimensional arrays, read and updated in
    place. */
module Arrays {
  import opened Vectors

  /** Column `c` of a two-dimensional array, `a[:, c]`. */
  function ColumnOf(a: array2<real>, c: nat): (col: Vector)
    reads a
    requires c < a.Length1
    ensures |col| == a.Length0 && forall r :: 0 <= r < a.Length0 ==> col[r] == a[r, c]
  {
    seq(a.Length0, r requires 0 <= r < a.Length0 reads a => a[r, c])
  }

  /** `a[:, c].sum()`. */
  method ColumnSum(a: array2<real>, c: nat) returns (t: real)
    requires c < a.Length1
    ensures t == Sum(ColumnOf(a, c))
  {
    ghost var col := ColumnOf(a, c);
    t := 0.0;
    var r := 0;
    while r < a.Length0
      invariant 0 <= r <= a.Length0
      invariant t == Sum(col[..r])
    {
      SumPrefixStep(col, r);
      t := t + a[r, c];
      r := r + 1;
    }
    assert col[..a.Length0] == col;
  }

  /** `a[:, c] /= t`, in place; the other columns stay. */
  method DivideColumn(a: array2<real>, c: nat, t: real)
    requires c < a.Length1 && t != 0.0
    modifies a
    ensures forall r :: 0 <= r < a.Length0 ==> a[r, c] == old(a[r, c]) / t
    ensures forall r, c' :: 0 <= r < a.Length0 && 0 <= c' < a.Length1 && c' != c ==> a[r, c'] == old(a[r, c'])
  {
    var r := 0;
    while r < a.Length0
      invariant 0 <= r <= a.Length0
      invariant forall r' :: 0 <= r' < r ==> a[r', c] == old(a[r', c]) / t
      invariant forall r', c' :: 0 <= r' < a.Length0 && 0 <= c' < a.Length1 && (r' >= r || c' != c) ==> a[r', c'] == old(a[r', c'])
    {
      a[r, c] := a[r, c] / t;
      r := r + 1;
    }
  }

  /** Row `r` of a two-dimensional array, `a[r, :]`. */
  function RowOf(a: array2<real>, r: nat): (row: Vector)
    reads a
    requires r < a.Length0
    ensures |row| == a.Length1 && forall c :: 0 <= c < a.Length1 ==> row[c] == a[r, c]
  {
    seq(a.Length1, c requires 0 <= c < a.Length1 reads a => a[r, c])
  }
}
