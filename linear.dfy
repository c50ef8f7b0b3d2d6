/** Matrix helpers of the trainer: transpose, matrix product and the
    element-wise (Hadamard) product, over the nested vectors of doubles the
    network uses. A double is modelled as a `real`. */
module Linear {

  type Vector = seq<real>
  type Matrix = seq<Vector>

  /** `m` has exactly `rows` rows of exactly `cols` entries each. */
  predicate Rectangular(m: Matrix, rows: nat, cols: nat) {
    |m| == rows && forall r :: 0 <= r < rows ==> |m[r]| == cols
  }

  // ---------------------------------------------------------------- transpose

  /** What `transpose` reads: a first row (its length is the column count)
      and no row shorter than that first row. */
  predicate Transposable(m: Matrix) {
    |m| > 0 && forall r :: 0 <= r < |m| ==> |m[0]| <= |m[r]|
  }

  /** The transpose: one row per entry of the first row of `m`. */
  function Transposed(m: Matrix): Matrix
    requires Transposable(m)
  {
    seq(|m[0]|, c requires 0 <= c < |m[0]| => seq(|m|, r requires 0 <= r < |m| => m[r][c]))
  }

  /** The source's `transpose`: column `c` of `m` becomes row `c`. */
  method Transpose(m: Matrix) returns (t: Matrix)
    requires Transposable(m)
    ensures Rectangular(t, |m[0]|, |m|)
    ensures forall c, r :: 0 <= c < |m[0]| && 0 <= r < |m| ==> t[c][r] == m[r][c]
    ensures t == Transposed(m)
  {
    t := [];
    var c := 0;
    while c < |m[0]|
      invariant 0 <= c <= |m[0]|
      invariant t == Transposed(m)[..c]
    {
      var oneR: Vector := [];
      var r := 0;
      while r < |m|
        invariant 0 <= r <= |m|
        invariant oneR == Transposed(m)[c][..r]
      {
        oneR := oneR + [m[r][c]];
        r := r + 1;
      }
      assert oneR == Transposed(m)[c];
      assert Transposed(m)[..c + 1] == Transposed(m)[..c] + [oneR];
      t := t + [oneR];
      c := c + 1;
    }
  }

  /** Transposing twice gives back any rectangular matrix with at least one
      row and one column (a matrix without columns transposes to the empty
      matrix, which has no first row to transpose again). */
  lemma TransposeInvolution(m: Matrix)
    requires |m| > 0 && |m[0]| > 0 && Rectangular(m, |m|, |m[0]|)
    ensures Transposable(Transposed(m))
    ensures Rectangular(Transposed(m), |m[0]|, |m|)
    ensures Transposed(Transposed(m)) == m
  {
    var t := Transposed(m);
    assert Transposable(t);
    var tt := Transposed(t);
    assert |tt| == |m|;
    forall r | 0 <= r < |m|
      ensures tt[r] == m[r]
    {
      assert |tt[r]| == |m[r]|;
    }
  }

  /** The transposes checked by the repository's tests: a square matrix,
      a column into a row and that row back into the column. */
  lemma TransposeExamples()
    ensures Transposed([[1.0, 2.0, 3.0], [4.0, 5.0, 6.0], [7.0, 8.0, 9.0]])
         == [[1.0, 4.0, 7.0], [2.0, 5.0, 8.0], [3.0, 6.0, 9.0]]
    ensures Transposed([[5.0], [6.0], [7.0]]) == [[5.0, 6.0, 7.0]]
    ensures Transposed([[5.0, 6.0, 7.0]]) == [[5.0], [6.0], [7.0]]
  {
    var a: Matrix := [[1.0, 2.0, 3.0], [4.0, 5.0, 6.0], [7.0, 8.0, 9.0]];
    assert Transposed(a)[0] == [1.0, 4.0, 7.0];
    assert Transposed(a)[1] == [2.0, 5.0, 8.0];
    assert Transposed(a)[2] == [3.0, 6.0, 9.0];
    var b: Matrix := [[5.0], [6.0], [7.0]];
    assert Transposed(b)[0] == [5.0, 6.0, 7.0];
    var c: Matrix := [[5.0, 6.0, 7.0]];
    assert Transposed(c)[0] == [5.0];
    assert Transposed(c)[1] == [6.0];
    assert Transposed(c)[2] == [7.0];
  }

  /** A vector as a one-column matrix. */
  function Column(v: Vector): Matrix {
    seq(|v|, i requires 0 <= i < |v| => [v[i]])
  }

  /** Transposing a one-row matrix gives the column of that row. */
  lemma TransposedRow(v: Vector)
    ensures Transposable([v]) && Transposed([v]) == Column(v)
  {
    assert |Transposed([v])| == |Column(v)|;
    forall c | 0 <= c < |v|
      ensures Transposed([v])[c] == Column(v)[c]
    {
    }
  }

  // ------------------------------------------------------------------ product

  /** Σ_{k < n} row[k] * b[k][j], accumulated from k = 0 upwards as the
      source's innermost loop does. */
  function DotColumn(row: Vector, b: Matrix, j: nat, n: nat): real
    requires n <= |row| && n <= |b|
    requires forall k :: 0 <= k < n ==> j < |b[k]|
  {
    if n == 0 then 0.0 else DotColumn(row, b, j, n - 1) + row[n - 1] * b[n - 1][j]
  }

  /** What `multiplyMatrices` reads. The row count comes from `a`, the column
      count from `b[0]` (read once `a` has a row) and the inner length from
      `a[0]` (read once `b[0]` has a column); every `a[i][k]` and `b[k][j]`
      inside those bounds must exist. `b` may have more rows than `a[0]` has
      entries: the extra rows are never read. */
  predicate Multipliable(a: Matrix, b: Matrix) {
    |a| == 0 ||
    (|b| > 0 &&
     (|b[0]| > 0 ==>
        |a[0]| <= |b| &&
        (forall i :: 0 <= i < |a| ==> |a[0]| <= |a[i]|) &&
        (forall k :: 0 <= k < |a[0]| ==> |b[0]| <= |b[k]|)))
  }

  /** The product: |a| rows of |b[0]| entries, entry (i, j) being
      Σ_{k < |a[0]|} a[i][k] * b[k][j]. */
  function Product(a: Matrix, b: Matrix): Matrix
    requires Multipliable(a, b)
  {
    if |a| == 0 then []
    else
      seq(|a|, i requires 0 <= i < |a| =>
        seq(|b[0]|, j requires 0 <= j < |b[0]| => DotColumn(a[i], b, j, |a[0]|)))
  }

  /** The source's `multiplyMatrices`. */
  method MultiplyMatrices(a: Matrix, b: Matrix) returns (mult: Matrix)
    requires Multipliable(a, b)
    ensures |mult| == |a|
    ensures |a| > 0 ==> Rectangular(mult, |a|, |b[0]|)
    ensures forall i, j :: 0 <= i < |a| && 0 <= j < |b[0]| ==>
              mult[i][j] == DotColumn(a[i], b, j, |a[0]|)
    ensures mult == Product(a, b)
  {
    mult := [];
    var i := 0;
    while i < |a|
      invariant 0 <= i <= |a|
      invariant |mult| == i
      invariant forall i' :: 0 <= i' < i ==> mult[i'] == Product(a, b)[i']
    {
      var oneR: Vector := [];
      var j := 0;
      while j < |b[0]|
        invariant 0 <= j <= |b[0]|
        invariant oneR == Product(a, b)[i][..j]
      {
        var total := 0.0;
        var k := 0;
        while k < |a[0]|
          invariant 0 <= k <= |a[0]|
          invariant total == DotColumn(a[i], b, j, k)
        {
          total := total + a[i][k] * b[k][j];
          k := k + 1;
        }
        oneR := oneR + [total];
        j := j + 1;
      }
      mult := mult + [oneR];
      i := i + 1;
    }
  }

  /** Σ_{k < n} w[k][i] * v[k]: entry i of wᵗ·v. */
  function TransposedDot(w: Matrix, v: Vector, i: nat, n: nat): real
    requires n <= |w| && n <= |v|
    requires forall k :: 0 <= k < n ==> i < |w[k]|
  {
    if n == 0 then 0.0 else TransposedDot(w, v, i, n - 1) + w[n - 1][i] * v[n - 1]
  }

  lemma {:induction false} DotColumnTransposed(w: Matrix, v: Vector, i: nat, n: nat)
    requires |w| > 0 && Rectangular(w, |w|, |w[0]|) && i < |w[0]|
    requires n <= |w| && n <= |v|
    ensures DotColumn(Transposed(w)[i], Column(v), 0, n) == TransposedDot(w, v, i, n)
  {
    if n > 0 {
      DotColumnTransposed(w, v, i, n - 1);
    }
  }

  /** Wᵗ·v as the source computes it (transpose W, multiply by v as a
      column, transpose the one-column result and take its row): a vector
      with one entry per column of W, entry i being Σ_k W[k][i] * v[k]. */
  lemma TransposedTimesColumn(w: Matrix, v: Vector)
    requires |w| > 0 && |w[0]| > 0 && Rectangular(w, |w|, |w[0]|) && |v| == |w|
    ensures Multipliable(Transposed(w), Column(v))
    ensures Transposable(Product(Transposed(w), Column(v)))
    ensures |Transposed(Product(Transposed(w), Column(v)))| == 1
    ensures |Transposed(Product(Transposed(w), Column(v)))[0]| == |w[0]|
    ensures forall i :: 0 <= i < |w[0]| ==>
              Transposed(Product(Transposed(w), Column(v)))[0][i] == TransposedDot(w, v, i, |w|)
  {
    var t := Transposed(w);
    var c := Column(v);
    assert Multipliable(t, c);
    var p := Product(t, c);
    assert |p| == |w[0]| && forall i :: 0 <= i < |p| ==> |p[i]| == 1;
    forall i | 0 <= i < |w[0]|
      ensures Transposed(p)[0][i] == TransposedDot(w, v, i, |w|)
    {
      DotColumnTransposed(w, v, i, |w|);
    }
  }

  /** The identity matrix of size n. */
  function Identity(n: nat): Matrix {
    seq(n, i requires 0 <= i < n => seq(n, j requires 0 <= j < n => if i == j then 1.0 else 0.0))
  }

  lemma {:induction false} DotColumnIdentity(row: Vector, size: nat, j: nat, n: nat)
    requires j < size && n <= size && size <= |row|
    ensures DotColumn(row, Identity(size), j, n) == if j < n then row[j] else 0.0
  {
    if n > 0 {
      DotColumnIdentity(row, size, j, n - 1);
    }
  }

  /** Multiplying by the identity of the column count gives the matrix back. */
  lemma ProductIdentity(a: Matrix, cols: nat)
    requires cols > 0 && Rectangular(a, |a|, cols)
    ensures Multipliable(a, Identity(cols)) && Product(a, Identity(cols)) == a
  {
    var p := Product(a, Identity(cols));
    assert |p| == |a|;
    forall i | 0 <= i < |a|
      ensures p[i] == a[i]
    {
      forall j | 0 <= j < cols
        ensures p[i][j] == a[i][j]
      {
        DotColumnIdentity(a[i], cols, j, cols);
      }
    }
  }

  /** The product checked by the repository's tests. */
  lemma MultiplyExample()
    ensures Product([[1.0, 2.0, 3.0], [4.0, 5.0, 6.0], [7.0, 8.0, 9.0]], [[5.0], [6.0], [7.0]])
         == [[38.0], [92.0], [146.0]]
  {
    var a: Matrix := [[1.0, 2.0, 3.0], [4.0, 5.0, 6.0], [7.0, 8.0, 9.0]];
    var b: Matrix := [[5.0], [6.0], [7.0]];
    assert DotColumn(a[0], b, 0, 3) == 38.0;
    assert DotColumn(a[1], b, 0, 3) == 92.0;
    assert DotColumn(a[2], b, 0, 3) == 146.0;
    assert Product(a, b)[0] == [38.0];
    assert Product(a, b)[1] == [92.0];
    assert Product(a, b)[2] == [146.0];
  }

  // ----------------------------------------------------------------- hadamard

  /** Element-wise product; entries of `b` past |a| are never read. */
  function HadamardOf(a: Vector, b: Vector): Vector
    requires |a| <= |b|
  {
    seq(|a|, i requires 0 <= i < |a| => a[i] * b[i])
  }

  /** The source's `hadamard`: it reads b[i] for every i < |a| unchecked,
      so `b` must be at least as long as `a`. */
  method Hadamard(a: Vector, b: Vector) returns (product: Vector)
    requires |a| <= |b|
    ensures |product| == |a|
    ensures forall i :: 0 <= i < |a| ==> product[i] == a[i] * b[i]
    ensures product == HadamardOf(a, b)
  {
    product := [];
    var i := 0;
    while i < |a|
      invariant 0 <= i <= |a|
      invariant product == HadamardOf(a, b)[..i]
    {
      assert HadamardOf(a, b)[i] == a[i] * b[i];
      assert HadamardOf(a, b)[..i + 1] == HadamardOf(a, b)[..i] + [a[i] * b[i]];
      product := product + [a[i] * b[i]];
      i := i + 1;
    }
  }

  /** The product checked by the repository's tests. */
  lemma HadamardExample()
    ensures HadamardOf([1.0, 2.0, 3.0, 4.0], [5.0, 6.0, 7.0, 8.0]) == [5.0, 12.0, 21.0, 32.0]
  {
  }
}
