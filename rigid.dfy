/**
 * game_engine.physics.RigidTransform3D: the dimension-checked matrix
 * helpers, which fill freshly allocated arrays in nested loops, the
 * centroid helpers, and the input checks of `rigid_transform_3d` and
 * `apply_transform`. A `double[][]` is an `array2<real>`; what each
 * helper computes is stated as a `Matrix` value.
 */
module Rigid {
  import opened Vec
  import opened Wrappers

  /** A matrix as a value: a sequence of rows. */
  type Matrix = seq<seq<real>>

  predicate IsMatrix(M: Matrix, rows: nat, cols: nat)
  {
    |M| == rows && forall i :: 0 <= i < rows ==> |M[i]| == cols
  }

  /** The contents of an array as a matrix value. */
  function Elements(A: array2<real>): (M: Matrix)
    reads A
    ensures IsMatrix(M, A.Length0, A.Length1)
    ensures forall i, j :: 0 <= i < A.Length0 && 0 <= j < A.Length1 ==> M[i][j] == A[i, j]
  {
    seq(A.Length0, i requires 0 <= i < A.Length0 reads A =>
      seq(A.Length1, j requires 0 <= j < A.Length1 reads A => A[i, j]))
  }

  /** Two matrices of the same shape that agree entry by entry are equal. */
  lemma MatrixEq(M: Matrix, N: Matrix, rows: nat, cols: nat)
    requires IsMatrix(M, rows, cols) && IsMatrix(N, rows, cols)
    requires forall i, j :: 0 <= i < rows && 0 <= j < cols ==> M[i][j] == N[i][j]
    ensures M == N
  {
    forall i | 0 <= i < rows
      ensures M[i] == N[i]
    {
      assert |M[i]| == |N[i]|;
    }
  }

  // ---------------------------------------------------------------
  // Matrix values
  // ---------------------------------------------------------------

  /** A[i][0]·B[0][j] + … + A[i][k−1]·B[k−1][j], summed in the source's order. */
  function RowCol(A: Matrix, B: Matrix, i: nat, j: nat, k: nat): real
    requires i < |A| && k <= |A[i]| && k <= |B|
    requires forall m :: 0 <= m < k ==> j < |B[m]|
  {
    if k == 0 then 0.0 else RowCol(A, B, i, j, k - 1) + A[i][k - 1] * B[k - 1][j]
  }

  /** The product A·B of a rows×inner and an inner×cols matrix. */
  function Mul(A: Matrix, B: Matrix, rows: nat, inner: nat, cols: nat): (C: Matrix)
    requires IsMatrix(A, rows, inner) && IsMatrix(B, inner, cols)
    ensures IsMatrix(C, rows, cols)
  {
    seq(rows, i requires 0 <= i < rows =>
      seq(cols, j requires 0 <= j < cols => RowCol(A, B, i, j, inner)))
  }

  /** The cols×rows matrix with entry (j, i) equal to entry (i, j) of A. */
  function Transposed(A: Matrix, rows: nat, cols: nat): (T: Matrix)
    requires IsMatrix(A, rows, cols)
    ensures IsMatrix(T, cols, rows)
  {
    seq(cols, j requires 0 <= j < cols => seq(rows, i requires 0 <= i < rows => A[i][j]))
  }

  function IdentityMatrix(n: nat): (I: Matrix)
    ensures IsMatrix(I, n, n)
  {
    seq(n, i requires 0 <= i < n => seq(n, j requires 0 <= j < n => if i == j then 1.0 else 0.0))
  }

  /** The cofactor expansion of a 3×3 determinant along the first row. */
  function Det3(M: Matrix): real
    requires IsMatrix(M, 3, 3)
  {
    M[0][0] * (M[1][1] * M[2][2] - M[1][2] * M[2][1])
    - M[0][1] * (M[1][0] * M[2][2] - M[1][2] * M[2][0])
    + M[0][2] * (M[1][0] * M[2][1] - M[1][1] * M[2][0])
  }

  /** R·c for a 3×3 matrix and a 3-vector. */
  function MatVec(R: Matrix, c: seq<real>): (r: seq<real>)
    requires IsMatrix(R, 3, 3) && |c| == 3
    ensures |r| == 3
  {
    seq(3, i requires 0 <= i < 3 => R[i][0] * c[0] + R[i][1] * c[1] + R[i][2] * c[2])
  }

  /** The 4×4 matrix [R t; 0 0 0 1] built from the top-left 3×3 of R and the first three entries of t. */
  function Homogeneous(R: Matrix, t: seq<real>): (T: Matrix)
    requires |R| >= 3 && (forall i :: 0 <= i < 3 ==> |R[i]| >= 3) && |t| >= 3
    ensures IsMatrix(T, 4, 4)
  {
    seq(4, i requires 0 <= i < 4 => seq(4, j requires 0 <= j < 4 =>
      if i < 3 && j < 3 then R[i][j]
      else if i < 3 then t[i]
      else if j == 3 then 1.0
      else 0.0))
  }

  /** P[0][c] + … + P[n−1][c]. */
  function ColumnSum(P: Matrix, c: nat, n: nat): real
    requires n <= |P| && forall i :: 0 <= i < n ==> c < |P[i]|
  {
    if n == 0 then 0.0 else ColumnSum(P, c, n - 1) + P[n - 1][c]
  }

  /** The coordinate-wise mean of n points given as the rows of an n×3 matrix. */
  function Centroid(P: Matrix, n: nat): (ctr: seq<real>)
    requires IsMatrix(P, n, 3) && n > 0
    ensures |ctr| == 3
    ensures forall c :: 0 <= c < 3 ==> ctr[c] * (n as real) == ColumnSum(P, c, n)
  {
    seq(3, c requires 0 <= c < 3 => ColumnSum(P, c, n) / (n as real))
  }

  /** Each point minus the centroid. */
  function Centered(P: Matrix, n: nat, ctr: seq<real>): (Q: Matrix)
    requires IsMatrix(P, n, 3) && |ctr| == 3
    ensures IsMatrix(Q, n, 3)
  {
    seq(n, i requires 0 <= i < n => seq(3, c requires 0 <= c < 3 => P[i][c] - ctr[c]))
  }

  /** The n×3 matrix of a point list (`convertToDoubleArray`). */
  function PointRows(points: seq<Float3>): (P: Matrix)
    ensures IsMatrix(P, |points|, 3)
  {
    seq(|points|, i requires 0 <= i < |points| => [points[i].x, points[i].y, points[i].z])
  }

  /** The 4×N matrix whose column i is point i with w = 1. */
  function HomogeneousPoints(points: seq<Float3>): (H: Matrix)
    ensures IsMatrix(H, 4, |points|)
  {
    seq(4, r requires 0 <= r < 4 => seq(|points|, i requires 0 <= i < |points| =>
      if r == 0 then points[i].x else if r == 1 then points[i].y else if r == 2 then points[i].z else 1.0))
  }

  /** `apply_transform`'s result: rows 0–2 of T·H read back column by column. */
  function Transformed(T: Matrix, points: seq<Float3>): (q: seq<Float3>)
    requires IsMatrix(T, 4, 4)
    ensures |q| == |points|
  {
    var C := Mul(T, HomogeneousPoints(points), 4, 4, |points|);
    seq(|points|, i requires 0 <= i < |points| => Float3(C[0][i], C[1][i], C[2][i]))
  }

  // ---------------------------------------------------------------
  // Properties of the matrix values
  // ---------------------------------------------------------------

  /** Transposing twice gives back the matrix. */
  lemma TransposeTwice(A: Matrix, rows: nat, cols: nat)
    requires IsMatrix(A, rows, cols)
    ensures Transposed(Transposed(A, rows, cols), cols, rows) == A
  {
    MatrixEq(Transposed(Transposed(A, rows, cols), cols, rows), A, rows, cols);
  }

  /** Row i of the identity picks entry (i, j) of M out of the first k terms. */
  lemma {:induction false} RowColIdentityLeft(M: Matrix, n: nat, cols: nat, i: nat, j: nat, k: nat)
    requires IsMatrix(M, n, cols) && i < n && j < cols && k <= n
    ensures RowCol(IdentityMatrix(n), M, i, j, k) == if i < k then M[i][j] else 0.0
  {
    if k > 0 {
      RowColIdentityLeft(M, n, cols, i, j, k - 1);
    }
  }

  /** Column j of the identity picks entry (i, j) of M out of the first k terms. */
  lemma {:induction false} RowColIdentityRight(M: Matrix, rows: nat, n: nat, i: nat, j: nat, k: nat)
    requires IsMatrix(M, rows, n) && i < rows && j < n && k <= n
    ensures RowCol(M, IdentityMatrix(n), i, j, k) == if j < k then M[i][j] else 0.0
  {
    if k > 0 {
      RowColIdentityRight(M, rows, n, i, j, k - 1);
    }
  }

  /** identity(n)·M = M. */
  lemma IdentityLeft(M: Matrix, n: nat, cols: nat)
    requires IsMatrix(M, n, cols)
    ensures Mul(IdentityMatrix(n), M, n, n, cols) == M
  {
    forall i, j | 0 <= i < n && 0 <= j < cols
      ensures Mul(IdentityMatrix(n), M, n, n, cols)[i][j] == M[i][j]
    {
      RowColIdentityLeft(M, n, cols, i, j, n);
    }
    MatrixEq(Mul(IdentityMatrix(n), M, n, n, cols), M, n, cols);
  }

  /** M·identity(n) = M. */
  lemma IdentityRight(M: Matrix, rows: nat, n: nat)
    requires IsMatrix(M, rows, n)
    ensures Mul(M, IdentityMatrix(n), rows, n, n) == M
  {
    forall i, j | 0 <= i < rows && 0 <= j < n
      ensures Mul(M, IdentityMatrix(n), rows, n, n)[i][j] == M[i][j]
    {
      RowColIdentityRight(M, rows, n, i, j, n);
    }
    MatrixEq(Mul(M, IdentityMatrix(n), rows, n, n), M, rows, n);
  }

  /** The transpose of the identity is the identity. */
  lemma TransposeIdentity(n: nat)
    ensures Transposed(IdentityMatrix(n), n, n) == IdentityMatrix(n)
  {
    MatrixEq(Transposed(IdentityMatrix(n), n, n), IdentityMatrix(n), n, n);
  }

  /** det(identity(3)) = 1. */
  lemma Det3Identity()
    ensures Det3(IdentityMatrix(3)) == 1.0
  {
    var I := IdentityMatrix(3);
    assert I[0] == [1.0, 0.0, 0.0] && I[1] == [0.0, 1.0, 0.0] && I[2] == [0.0, 0.0, 1.0];
  }

  /** A 3×3 matrix and its transpose have the same determinant. */
  lemma Det3Transpose(M: Matrix)
    requires IsMatrix(M, 3, 3)
    ensures Det3(Transposed(M, 3, 3)) == Det3(M)
  {
    var T := Transposed(M, 3, 3);
    assert T[0] == [M[0][0], M[1][0], M[2][0]];
    assert T[1] == [M[0][1], M[1][1], M[2][1]];
    assert T[2] == [M[0][2], M[1][2], M[2][2]];
  }

  /** The diagonal correction S = diag(1, 1, −1) of the reflection fix has determinant −1. */
  lemma Det3Reflection()
    ensures Det3([[1.0, 0.0, 0.0], [0.0, 1.0, 0.0], [0.0, 0.0, -1.0]]) == -1.0
  {
  }

  /** identity(3)·c = c. */
  lemma MatVecIdentity(c: seq<real>)
    requires |c| == 3
    ensures MatVec(IdentityMatrix(3), c) == c
  {
    var I := IdentityMatrix(3);
    assert I[0] == [1.0, 0.0, 0.0] && I[1] == [0.0, 1.0, 0.0] && I[2] == [0.0, 0.0, 1.0];
  }

  /** With R = identity(3) and t = 0 the homogeneous matrix is identity(4). */
  lemma HomogeneousOfIdentity()
    ensures Homogeneous(IdentityMatrix(3), [0.0, 0.0, 0.0]) == IdentityMatrix(4)
  {
    MatrixEq(Homogeneous(IdentityMatrix(3), [0.0, 0.0, 0.0]), IdentityMatrix(4), 4, 4);
  }

  /** Sums of the shifted points: the shift is subtracted once per point. */
  lemma {:induction false} CenteredColumnSum(P: Matrix, n: nat, ctr: seq<real>, c: nat, k: nat)
    requires IsMatrix(P, n, 3) && |ctr| == 3 && c < 3 && k <= n
    ensures ColumnSum(Centered(P, n, ctr), c, k) == ColumnSum(P, c, k) - (k as real) * ctr[c]
  {
    if k > 0 {
      CenteredColumnSum(P, n, ctr, c, k - 1);
    }
  }

  /** The points minus their centroid sum to 0 in each coordinate. */
  lemma CenteredSumsZero(P: Matrix, n: nat)
    requires IsMatrix(P, n, 3) && n > 0
    ensures forall c :: 0 <= c < 3 ==> ColumnSum(Centered(P, n, Centroid(P, n)), c, n) == 0.0
  {
    forall c | 0 <= c < 3
      ensures ColumnSum(Centered(P, n, Centroid(P, n)), c, n) == 0.0
    {
      CenteredColumnSum(P, n, Centroid(P, n), c, n);
    }
  }

  /** The first four terms of an entry of T·H, written out. */
  lemma RowColFour(T: Matrix, H: Matrix, n: nat, r: nat, i: nat)
    requires IsMatrix(T, 4, 4) && IsMatrix(H, 4, n) && r < 4 && i < n
    ensures RowCol(T, H, r, i, 4) == T[r][0] * H[0][i] + T[r][1] * H[1][i] + T[r][2] * H[2][i] + T[r][3] * H[3][i]
  {
    assert |T[r]| == 4 && |H[0]| == n && |H[1]| == n && |H[2]| == n && |H[3]| == n;
    RowColStep(T, H, r, i, 0);
    RowColStep(T, H, r, i, 1);
    RowColStep(T, H, r, i, 2);
    RowColStep(T, H, r, i, 3);
  }

  lemma RowColStep(T: Matrix, H: Matrix, r: nat, i: nat, k: nat)
    requires r < |T| && k < |T[r]| && k < |H| && forall m :: 0 <= m <= k ==> i < |H[m]|
    ensures RowCol(T, H, r, i, k + 1) == RowCol(T, H, r, i, k) + T[r][k] * H[k][i]
  {
  }

  /** `apply_transform` maps each point p to rows 0–2 of T·(p, 1). */
  lemma TransformedPoint(T: Matrix, points: seq<Float3>, i: nat)
    requires IsMatrix(T, 4, 4) && i < |points|
    ensures Transformed(T, points)[i] == var p := points[i]; Float3(
        T[0][0] * p.x + T[0][1] * p.y + T[0][2] * p.z + T[0][3],
        T[1][0] * p.x + T[1][1] * p.y + T[1][2] * p.z + T[1][3],
        T[2][0] * p.x + T[2][1] * p.y + T[2][2] * p.z + T[2][3])
  {
    var H := HomogeneousPoints(points);
    RowColFour(T, H, |points|, 0, i);
    RowColFour(T, H, |points|, 1, i);
    RowColFour(T, H, |points|, 2, i);
  }

  /** Applying identity(4) leaves the points unchanged. */
  lemma ApplyIdentity(points: seq<Float3>)
    ensures Transformed(IdentityMatrix(4), points) == points
  {
    var I := IdentityMatrix(4);
    assert I[0] == [1.0, 0.0, 0.0, 0.0] && I[1] == [0.0, 1.0, 0.0, 0.0] && I[2] == [0.0, 0.0, 1.0, 0.0];
    forall i | 0 <= i < |points|
      ensures Transformed(I, points)[i] == points[i]
    {
      TransformedPoint(I, points, i);
    }
  }

  /** The matrix built by `buildHomogeneousMatrix` maps p to R·p + t. */
  lemma ApplyHomogeneous(R: Matrix, t: seq<real>, points: seq<Float3>, i: nat)
    requires IsMatrix(R, 3, 3) && |t| == 3 && i < |points|
    ensures Transformed(Homogeneous(R, t), points)[i] ==
      var p := points[i]; var rp := MatVec(R, [p.x, p.y, p.z]); Float3(rp[0] + t[0], rp[1] + t[1], rp[2] + t[2])
  {
    var H := Homogeneous(R, t);
    var p := points[i];
    var rp := MatVec(R, [p.x, p.y, p.z]);
    assert H[0] == [R[0][0], R[0][1], R[0][2], t[0]];
    assert H[1] == [R[1][0], R[1][1], R[1][2], t[1]];
    assert H[2] == [R[2][0], R[2][1], R[2][2], t[2]];
    assert rp[0] == R[0][0] * p.x + R[0][1] * p.y + R[0][2] * p.z;
    assert rp[1] == R[1][0] * p.x + R[1][1] * p.y + R[1][2] * p.z;
    assert rp[2] == R[2][0] * p.x + R[2][1] * p.y + R[2][2] * p.z;
    TransformedPoint(H, points, i);
  }

  // ---------------------------------------------------------------
  // The array helpers
  // ---------------------------------------------------------------

  /** `matrixMultiply`: throws unless A and B have rows and colsA = rowsB; otherwise a fresh rowsA×colsB product. */
  method MatrixMultiply(A: array2<real>, B: array2<real>) returns (r: Result<array2<real>>)
    ensures r.Failure? <==> A.Length0 == 0 || B.Length0 == 0 || A.Length1 != B.Length0
    ensures r.Success? ==> fresh(r.value) && r.value.Length0 == A.Length0 && r.value.Length1 == B.Length1
    ensures r.Success? ==> Elements(r.value) == Mul(Elements(A), Elements(B), A.Length0, A.Length1, B.Length1)
  {
    if A.Length0 == 0 || B.Length0 == 0 {
      return Failure("index 0 out of bounds");
    }
    if A.Length1 != B.Length0 {
      return Failure("Matrices dimensions are incompatible for multiplication.");
    }
    ghost var M := Mul(Elements(A), Elements(B), A.Length0, A.Length1, B.Length1);
    var C := new real[A.Length0, B.Length1];
    var i := 0;
    while i < A.Length0
      invariant 0 <= i <= A.Length0
      invariant forall p, q :: 0 <= p < i && 0 <= q < B.Length1 ==> C[p, q] == M[p][q]
    {
      FillRow(A, B, C, i);
      i := i + 1;
    }
    MatrixEq(Elements(C), M, A.Length0, B.Length1);
    return Success(C);
  }

  /** The middle loop of `matrixMultiply`: row i of C, entry by entry. */
  method FillRow(A: array2<real>, B: array2<real>, C: array2<real>, i: int)
    requires C != A && C != B && A.Length1 == B.Length0
    requires C.Length0 == A.Length0 && C.Length1 == B.Length1 && 0 <= i < A.Length0
    modifies C
    ensures forall p, q :: 0 <= p < C.Length0 && 0 <= q < C.Length1 ==>
      C[p, q] == if p == i then Mul(Elements(A), Elements(B), A.Length0, A.Length1, B.Length1)[p][q] else old(C[p, q])
  {
    ghost var M := Mul(Elements(A), Elements(B), A.Length0, A.Length1, B.Length1);
    var j := 0;
    while j < B.Length1
      invariant 0 <= j <= B.Length1
      invariant forall p, q :: 0 <= p < C.Length0 && 0 <= q < C.Length1 ==>
        C[p, q] == if p == i && q < j then M[p][q] else old(C[p, q])
    {
      var sum := Entry(A, B, i, j);
      C[i, j] := sum;
      j := j + 1;
    }
  }

  /** The inner loop of `matrixMultiply`: the running sum of A[i][k]·B[k][j]. */
  method Entry(A: array2<real>, B: array2<real>, i: int, j: int) returns (sum: real)
    requires A.Length1 == B.Length0 && 0 <= i < A.Length0 && 0 <= j < B.Length1
    ensures sum == Mul(Elements(A), Elements(B), A.Length0, A.Length1, B.Length1)[i][j]
  {
    ghost var a, b := Elements(A), Elements(B);
    sum := 0.0;
    var k := 0;
    while k < A.Length1
      invariant 0 <= k <= A.Length1
      invariant sum == RowCol(a, b, i, j, k)
    {
      sum := sum + A[i, k] * B[k, j];
      k := k + 1;
    }
  }

  /** `transpose`: throws on a matrix without rows; otherwise a fresh cols×rows array with A_T[j][i] = A[i][j]. */
  method Transpose(A: array2<real>) returns (r: Result<array2<real>>)
    ensures r.Failure? <==> A.Length0 == 0
    ensures r.Success? ==> fresh(r.value) && Elements(r.value) == Transposed(Elements(A), A.Length0, A.Length1)
  {
    if A.Length0 == 0 {
      return Failure("index 0 out of bounds");
    }
    ghost var M := Transposed(Elements(A), A.Length0, A.Length1);
    var T := new real[A.Length1, A.Length0];
    var i := 0;
    while i < A.Length0
      invariant 0 <= i <= A.Length0
      invariant forall q, p :: 0 <= q < A.Length1 && 0 <= p < i ==> T[q, p] == M[q][p]
    {
      var j := 0;
      while j < A.Length1
        invariant 0 <= j <= A.Length1
        invariant forall q, p :: 0 <= q < A.Length1 && 0 <= p < i ==> T[q, p] == M[q][p]
        invariant forall q :: 0 <= q < j ==> T[q, i] == M[q][i]
      {
        T[j, i] := A[i, j];
        j := j + 1;
      }
      i := i + 1;
    }
    MatrixEq(Elements(T), M, A.Length1, A.Length0);
    return Success(T);
  }

  /** `identity(N)`: a fresh N×N array, 1 on the diagonal and 0 elsewhere. */
  method Identity(n: nat) returns (I: array2<real>)
    ensures fresh(I) && I.Length0 == n && I.Length1 == n && Elements(I) == IdentityMatrix(n)
  {
    I := new real[n, n]((i, j) => 0.0);
    var i := 0;
    while i < n
      invariant 0 <= i <= n
      invariant forall p, q :: 0 <= p < n && 0 <= q < n ==> I[p, q] == if p == q && p < i then 1.0 else 0.0
    {
      I[i, i] := 1.0;
      i := i + 1;
    }
    MatrixEq(Elements(I), IdentityMatrix(n), n, n);
  }

  /** `vecMultiply`: throws unless R is 3×3 and C has 3 entries; otherwise a fresh R·C. */
  method VecMultiply(R: array2<real>, C: array<real>) returns (r: Result<array<real>>)
    ensures r.Failure? <==> R.Length0 != 3 || R.Length1 != 3 || C.Length != 3
    ensures r.Success? ==> fresh(r.value) && r.value[..] == MatVec(Elements(R), C[..])
  {
    if R.Length0 != 3 || R.Length1 != 3 || C.Length != 3 {
      return Failure("Matrix must be 3x3 and vector must be 3D.");
    }
    ghost var v := MatVec(Elements(R), C[..]);
    var result := new real[3];
    var i := 0;
    while i < 3
      invariant 0 <= i <= 3
      invariant forall p :: 0 <= p < i ==> result[p] == v[p]
    {
      result[i] := R[i, 0] * C[0] + R[i, 1] * C[1] + R[i, 2] * C[2];
      i := i + 1;
    }
    return Success(result);
  }

  /** `determinant_3x3`: throws unless M is 3×3. */
  method Determinant3x3(M: array2<real>) returns (r: Result<real>)
    ensures r.Failure? <==> M.Length0 != 3 || M.Length1 != 3
    ensures r.Success? ==> r.value == Det3(Elements(M))
  {
    if M.Length0 != 3 || M.Length1 != 3 {
      return Failure("Matrix must be 3x3.");
    }
    return Success(M[0, 0] * (M[1, 1] * M[2, 2] - M[1, 2] * M[2, 1])
      - M[0, 1] * (M[1, 0] * M[2, 2] - M[1, 2] * M[2, 0])
      + M[0, 2] * (M[1, 0] * M[2, 1] - M[1, 1] * M[2, 0]));
  }

  /** `buildHomogeneousMatrix`: identity(4) with R copied top-left and t into column 3. */
  method BuildHomogeneousMatrix(R: array2<real>, t: array<real>) returns (r: Result<array2<real>>)
    ensures r.Failure? <==> R.Length0 < 3 || R.Length1 < 3 || t.Length < 3
    ensures r.Success? ==> fresh(r.value) && Elements(r.value) == Homogeneous(Elements(R), t[..])
  {
    if R.Length0 < 3 || R.Length1 < 3 || t.Length < 3 {
      return Failure("index out of bounds");
    }
    ghost var H := Homogeneous(Elements(R), t[..]);
    var T := Identity(4);
    var i := 0;
    while i < 3
      invariant 0 <= i <= 3
      invariant forall p, q :: 0 <= p < 4 && 0 <= q < 4 ==>
        T[p, q] == if p < i then H[p][q] else IdentityMatrix(4)[p][q]
    {
      var j := 0;
      while j < 3
        invariant 0 <= j <= 3
        invariant forall p, q :: 0 <= p < 4 && 0 <= q < 4 ==>
          T[p, q] == if p < i || (p == i && q < j) then H[p][q] else IdentityMatrix(4)[p][q]
      {
        T[i, j] := R[i, j];
        j := j + 1;
      }
      T[i, 3] := t[i];
      i := i + 1;
    }
    MatrixEq(Elements(T), H, 4, 4);
    return Success(T);
  }

  /**
   * `getCentroid` over the n×3 rows of `convertToDoubleArray`: the sums
   * accumulated point by point, then divided by N. With no points the
   * division is 0/0, which has no real value: None.
   */
  method GetCentroid(points: array2<real>) returns (r: Option<array<real>>)
    requires points.Length1 == 3
    ensures r.None? <==> points.Length0 == 0
    ensures r.Some? ==> fresh(r.value) && r.value[..] == Centroid(Elements(points), points.Length0)
  {
    ghost var P := Elements(points);
    var n := points.Length0;
    var centroid := SumColumns(points);
    if n == 0 {
      return None;
    }
    centroid[0] := centroid[0] / n as real;
    centroid[1] := centroid[1] / n as real;
    centroid[2] := centroid[2] / n as real;
    assert forall c :: 0 <= c < 3 ==> centroid[c] == Centroid(P, n)[c];
    return Some(centroid);
  }

  /** The accumulation loop of `getCentroid`: a fresh array of the three coordinate sums. */
  method SumColumns(points: array2<real>) returns (sums: array<real>)
    requires points.Length1 == 3
    ensures fresh(sums) && sums.Length == 3
    ensures var P := Elements(points); var n := points.Length0;
      sums[0] == ColumnSum(P, 0, n) && sums[1] == ColumnSum(P, 1, n) && sums[2] == ColumnSum(P, 2, n)
  {
    ghost var P := Elements(points);
    sums := new real[3](_ => 0.0);
    var i := 0;
    while i < points.Length0
      invariant 0 <= i <= points.Length0
      invariant sums[0] == ColumnSum(P, 0, i) && sums[1] == ColumnSum(P, 1, i) && sums[2] == ColumnSum(P, 2, i)
    {
      assert P[i][0] == points[i, 0] && P[i][1] == points[i, 1] && P[i][2] == points[i, 2];
      AddPoint(sums, points, i);
      i := i + 1;
    }
  }

  /** One iteration of `getCentroid`'s loop: point i added into the sums in place. */
  method AddPoint(sums: array<real>, points: array2<real>, i: int)
    requires sums.Length == 3 && points.Length1 == 3 && 0 <= i < points.Length0
    modifies sums
    ensures sums[0] == old(sums[0]) + points[i, 0]
    ensures sums[1] == old(sums[1]) + points[i, 1]
    ensures sums[2] == old(sums[2]) + points[i, 2]
  {
    sums[0] := sums[0] + points[i, 0];
    sums[1] := sums[1] + points[i, 1];
    sums[2] := sums[2] + points[i, 2];
  }

  /** `subtractCentroid`: a fresh n×3 array of each point minus the centroid. */
  method SubtractCentroid(points: array2<real>, centroid: array<real>) returns (centered: array2<real>)
    requires points.Length1 == 3 && centroid.Length == 3
    ensures fresh(centered) && Elements(centered) == Centered(Elements(points), points.Length0, centroid[..])
  {
    ghost var Q := Centered(Elements(points), points.Length0, centroid[..]);
    centered := new real[points.Length0, 3];
    var i := 0;
    while i < points.Length0
      invariant 0 <= i <= points.Length0
      invariant forall p, c :: 0 <= p < i && 0 <= c < 3 ==> centered[p, c] == Q[p][c]
    {
      centered[i, 0] := points[i, 0] - centroid[0];
      centered[i, 1] := points[i, 1] - centroid[1];
      centered[i, 2] := points[i, 2] - centroid[2];
      i := i + 1;
    }
    MatrixEq(Elements(centered), Q, points.Length0, 3);
  }

  /** `convertToDoubleArray`: one row (x, y, z) per point. */
  method ConvertToDoubleArray(points: seq<Float3>) returns (P: array2<real>)
    ensures fresh(P) && P.Length1 == 3 && Elements(P) == PointRows(points)
  {
    P := new real[|points|, 3];
    var i := 0;
    while i < |points|
      invariant 0 <= i <= |points|
      invariant forall p, c :: 0 <= p < i && 0 <= c < 3 ==> P[p, c] == PointRows(points)[p][c]
    {
      P[i, 0] := points[i].x;
      P[i, 1] := points[i].y;
      P[i, 2] := points[i].z;
      i := i + 1;
    }
    MatrixEq(Elements(P), PointRows(points), |points|, 3);
  }

  /**
   * `rigid_transform_3d` up to its first computation: unequal lengths
   * throw, and no points give identity(4). For N > 0 the fit (centroids,
   * covariance, the eigen-based SVD and the reflection fix) is not part
   * of this model: Success(None).
   */
  method RigidTransform3D(P: seq<Float3>, Q: seq<Float3>) returns (r: Result<Option<array2<real>>>)
    ensures r.Failure? <==> |P| != |Q|
    ensures r.Success? && |P| == 0 ==> r.value.Some? && fresh(r.value.value) && Elements(r.value.value) == IdentityMatrix(4)
    ensures r.Success? && |P| > 0 ==> r.value.None?
  {
    if |P| != |Q| {
      return Failure("Point arrays must have the same number of points.");
    }
    if |P| == 0 {
      var I := Identity(4);
      return Success(Some(I));
    }
    return Success(None);
  }

  /**
   * `apply_transform`: throws on no points or a T that is not 4×4;
   * otherwise T times the 4×N homogeneous points, read back as points.
   */
  method ApplyTransform(T: array2<real>, points: seq<Float3>) returns (r: Result<seq<Float3>>)
    ensures r.Failure? <==> |points| == 0 || T.Length0 != 4 || T.Length1 != 4
    ensures r.Success? ==> r.value == Transformed(Elements(T), points)
  {
    var pointsDouble := ConvertToDoubleArray(points);
    var n := pointsDouble.Length0;
    if n == 0 || T.Length0 != 4 || T.Length1 != 4 {
      return Failure("Invalid input dimensions.");
    }
    var hom := Homogenize(pointsDouble, points);
    var product := MatrixMultiply(T, hom);
    var out := ReadBack(product.value, Elements(T), points);
    return Success(out);
  }

  /** Steps 3–4 of `apply_transform`: column i of the 4×N product, rows 0–2, becomes point i. */
  method ReadBack(C: array2<real>, ghost T: Matrix, ghost points: seq<Float3>) returns (out: seq<Float3>)
    requires C.Length0 == 4 && C.Length1 == |points|
    requires IsMatrix(T, 4, 4) && Elements(C) == Mul(T, HomogeneousPoints(points), 4, 4, |points|)
    ensures out == Transformed(T, points)
  {
    var i := 0;
    out := [];
    while i < C.Length1
      invariant 0 <= i <= C.Length1 == |points|
      invariant out == Transformed(T, points)[..i]
    {
      out := out + [Float3(C[0, i], C[1, i], C[2, i])];
      i := i + 1;
    }
  }

  /** Step 1 of `apply_transform`: the 4×N array with column i = (x, y, z, 1) of point i. */
  method Homogenize(pointsDouble: array2<real>, ghost points: seq<Float3>) returns (H: array2<real>)
    requires pointsDouble.Length1 == 3 && Elements(pointsDouble) == PointRows(points)
    ensures fresh(H) && H.Length0 == 4 && H.Length1 == pointsDouble.Length0
    ensures Elements(H) == HomogeneousPoints(points)
  {
    var n := pointsDouble.Length0;
    ghost var P := PointRows(points);
    H := new real[4, n];
    var i := 0;
    while i < n
      invariant 0 <= i <= n == |points|
      invariant forall p :: 0 <= p < i ==>
        H[0, p] == points[p].x && H[1, p] == points[p].y && H[2, p] == points[p].z && H[3, p] == 1.0
    {
      assert P[i] == [pointsDouble[i, 0], pointsDouble[i, 1], pointsDouble[i, 2]];
      WriteColumn(H, i, pointsDouble[i, 0], pointsDouble[i, 1], pointsDouble[i, 2]);
      i := i + 1;
    }
    forall rr, p | 0 <= rr < 4 && 0 <= p < n
      ensures Elements(H)[rr][p] == HomogeneousPoints(points)[rr][p]
    {
    }
    MatrixEq(Elements(H), HomogeneousPoints(points), 4, n);
  }

  /** One iteration of `apply_transform`'s first loop: column i becomes (x, y, z, 1). */
  method WriteColumn(H: array2<real>, i: int, x: real, y: real, z: real)
    requires H.Length0 == 4 && 0 <= i < H.Length1
    modifies H
    ensures H[0, i] == x && H[1, i] == y && H[2, i] == z && H[3, i] == 1.0
    ensures forall rr, q :: 0 <= rr < 4 && 0 <= q < H.Length1 && q != i ==> H[rr, q] == old(H[rr, q])
  {
    H[0, i] := x;
    H[1, i] := y;
    H[2, i] := z;
    H[3, i] := 1.0;
  }
}
