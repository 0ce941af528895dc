/**
  Exact real 3-vectors and 3x3 matrices, as used by every part of the model in place of
  numpy arrays of shape (3,) and (3, 3).

  The square root (`np.linalg.norm`, `np.sqrt`) is not definable in Dafny's reals, so every
  member that needs it takes it as a parameter `sqrt` and, where a property depends on it,
  requires `IsSqrt(sqrt)`: the root is non-negative and squares back to its argument.
*/
module Vectors {

  datatype Vec3 = Vec3(x: real, y: real, z: real)

  const Zero: Vec3 := Vec3(0.0, 0.0, 0.0)

  function Add(a: Vec3, b: Vec3): Vec3 { Vec3(a.x + b.x, a.y + b.y, a.z + b.z) }

  function Sub(a: Vec3, b: Vec3): Vec3 { Vec3(a.x - b.x, a.y - b.y, a.z - b.z) }

  function Neg(a: Vec3): Vec3 { Vec3(-a.x, -a.y, -a.z) }

  function Scale(k: real, a: Vec3): Vec3 { Vec3(k * a.x, k * a.y, k * a.z) }

  function Dot(a: Vec3, b: Vec3): real { a.x * b.x + a.y * b.y + a.z * b.z }

  /** `np.cross(a, b)`. */
  function Cross(a: Vec3, b: Vec3): Vec3 {
    Vec3(a.y * b.z - a.z * b.y, a.z * b.x - a.x * b.z, a.x * b.y - a.y * b.x)
  }

  /** Component `k` (0, 1 or 2) of a vector, as numpy's `v[k]`. */
  function At(a: Vec3, k: nat): real
    requires k < 3
  {
    if k == 0 then a.x else if k == 1 then a.y else a.z
  }

  /** The square root, as a property of a function value (no closed form exists in Dafny). */
  ghost predicate IsSqrt(sqrt: real -> real) {
    forall x :: 0.0 <= x ==> 0.0 <= sqrt(x) && sqrt(x) * sqrt(x) == x
  }

  /** `np.linalg.norm(a)`. */
  function Norm(a: Vec3, sqrt: real -> real): real { sqrt(Dot(a, a)) }

  /** `np.linalg.norm(a - b)`. */
  function Dist(a: Vec3, b: Vec3, sqrt: real -> real): real { Norm(Sub(a, b), sqrt) }

  /**
    `a / np.linalg.norm(a)`. The source divides by zero for a zero vector (NaN); here a
    vector of zero length is returned unchanged.
  */
  function Unit(a: Vec3, sqrt: real -> real): Vec3 {
    var n := Norm(a, sqrt);
    if n == 0.0 then a else Scale(1.0 / n, a)
  }

  // Sign facts about products. The product is passed as its own parameter `p` so that each
  // lemma reasons about one multiplication of two distinct reals.

  lemma ProductPositive(u: real, v: real, p: real)
    requires p == u * v
    requires 0.0 < u && 0.0 < v
    ensures 0.0 < p
  {
  }

  lemma ProductNonNegative(u: real, v: real, p: real)
    requires p == u * v
    requires 0.0 <= u && 0.0 <= v
    ensures 0.0 <= p
  {
  }

  /** A square `s == r * r` is non-negative, and positive unless `r` is zero. */
  lemma SquareSign(r: real, s: real)
    requires s == r * r
    ensures 0.0 <= s
    ensures r != 0.0 ==> 0.0 < s
  {
    if 0.0 < r {
      ProductPositive(r, r, s);
    } else if r < 0.0 {
      ProductPositive(-r, -r, s);
    } else {
      ProductNonNegative(r, r, s);
    }
  }

  /** For non-negative `b`, |a| <= b follows from a * a <= b * b. */
  lemma SquareLeq(a: real, b: real)
    requires 0.0 <= b
    requires a * a <= b * b
    ensures a <= b && -a <= b
  {
    if b < a {
      ProductPositive(a - b, a + b, a * a - b * b);
      assert false;
    }
    if b < -a {
      ProductPositive(-a - b, b - a, a * a - b * b);
      assert false;
    }
  }

  /** Dot(a, a) is non-negative, and positive for every non-zero vector. */
  lemma DotSelfSign(a: Vec3)
    ensures 0.0 <= Dot(a, a)
    ensures a != Zero ==> 0.0 < Dot(a, a)
  {
    SquareSign(a.x, a.x * a.x);
    SquareSign(a.y, a.y * a.y);
    SquareSign(a.z, a.z * a.z);
  }

  lemma NormNonNegative(a: Vec3, sqrt: real -> real)
    requires IsSqrt(sqrt)
    ensures 0.0 <= Norm(a, sqrt)
    ensures Norm(a, sqrt) * Norm(a, sqrt) == Dot(a, a)
  {
    DotSelfSign(a);
  }

  /** A vector has zero norm exactly when it is the zero vector. */
  lemma NormZeroIff(a: Vec3, sqrt: real -> real)
    requires IsSqrt(sqrt)
    ensures Norm(a, sqrt) == 0.0 <==> a == Zero
  {
    NormNonNegative(a, sqrt);
    DotSelfSign(a);
    var n := Norm(a, sqrt);
    if n != 0.0 {
      SquareSign(n, Dot(a, a));
    }
  }

  lemma DistSelf(a: Vec3, sqrt: real -> real)
    requires IsSqrt(sqrt)
    ensures Dist(a, a, sqrt) == 0.0
  {
    assert Sub(a, a) == Zero;
    NormZeroIff(Zero, sqrt);
  }

  lemma DistNonNegative(a: Vec3, b: Vec3, sqrt: real -> real)
    requires IsSqrt(sqrt)
    ensures 0.0 <= Dist(a, b, sqrt)
  {
    DotSelfSign(Sub(a, b));
  }

  /** Nothing is nearer to a than a itself, except a. */
  lemma DistNotBelowSelf(a: Vec3, b: Vec3, sqrt: real -> real)
    requires IsSqrt(sqrt)
    requires Dist(a, b, sqrt) <= Dist(a, a, sqrt)
    ensures a == b
  {
    DistSelf(a, sqrt);
    DistNonNegative(a, b, sqrt);
    DistZeroIff(a, b, sqrt);
  }

  /** Two points are at distance zero exactly when they coincide. */
  lemma DistZeroIff(a: Vec3, b: Vec3, sqrt: real -> real)
    requires IsSqrt(sqrt)
    ensures Dist(a, b, sqrt) == 0.0 <==> a == b
  {
    NormZeroIff(Sub(a, b), sqrt);
    if Sub(a, b) == Zero {
      SubZero(a, b);
    }
  }

  lemma SubZero(a: Vec3, b: Vec3)
    requires Sub(a, b) == Zero
    ensures a == b
  {
  }

  lemma DistSymmetric(a: Vec3, b: Vec3, sqrt: real -> real)
    ensures Dist(a, b, sqrt) == Dist(b, a, sqrt)
  {
    assert Dot(Sub(a, b), Sub(a, b)) == Dot(Sub(b, a), Sub(b, a));
  }

  /** The square root is strictly monotone on the non-negative reals. */
  lemma SqrtMonotone(sqrt: real -> real, u: real, v: real)
    requires IsSqrt(sqrt)
    requires 0.0 <= u < v
    ensures sqrt(u) < sqrt(v)
  {
    var a, b := sqrt(u), sqrt(v);
    assert 0.0 <= a && a * a == u;
    assert 0.0 <= b && b * b == v;
    if b <= a {
      ProductNonNegative(a - b, a + b, a * a - b * b);
      assert false;
    }
  }

  /** Lagrange's identity, the algebra behind the Cauchy-Schwarz inequality. */
  lemma Lagrange(a: Vec3, b: Vec3)
    ensures Dot(a, a) * Dot(b, b) - Dot(a, b) * Dot(a, b) == Dot(Cross(a, b), Cross(a, b))
  {
  }

  /** Cauchy-Schwarz: |a . b| <= |a| |b|. */
  lemma CauchySchwarz(a: Vec3, b: Vec3, sqrt: real -> real)
    requires IsSqrt(sqrt)
    ensures Dot(a, b) <= Norm(a, sqrt) * Norm(b, sqrt)
    ensures -Dot(a, b) <= Norm(a, sqrt) * Norm(b, sqrt)
  {
    Lagrange(a, b);
    var c := Cross(a, b);
    assert 0.0 <= Dot(c, c);
    NormNonNegative(a, sqrt);
    NormNonNegative(b, sqrt);
    var na, nb := Norm(a, sqrt), Norm(b, sqrt);
    assert (na * nb) * (na * nb) == (na * na) * (nb * nb);
    assert Dot(a, b) * Dot(a, b) <= (na * nb) * (na * nb);
    SquareLeq(Dot(a, b), na * nb);
  }

  /** The cross product is orthogonal to both of its factors. */
  lemma CrossOrthogonal(a: Vec3, b: Vec3)
    ensures Dot(Cross(a, b), a) == 0.0 && Dot(Cross(a, b), b) == 0.0
    ensures Dot(a, Cross(a, b)) == 0.0 && Dot(b, Cross(a, b)) == 0.0
  {
  }

  /** Scaling a vector scales its dot products. */
  lemma DotScale(k: real, a: Vec3, b: Vec3)
    ensures Dot(Scale(k, a), b) == k * Dot(a, b)
    ensures Dot(b, Scale(k, a)) == k * Dot(b, a)
  {
  }

  /** Normalising keeps orthogonality: a vector orthogonal to `b` stays so after `Unit`. */
  lemma UnitOrthogonal(a: Vec3, b: Vec3, sqrt: real -> real)
    requires Dot(a, b) == 0.0
    ensures Dot(Unit(a, sqrt), b) == 0.0 && Dot(b, Unit(a, sqrt)) == 0.0
  {
    var n := Norm(a, sqrt);
    if n != 0.0 {
      DotScale(1.0 / n, a, b);
    }
  }

  /** A non-zero vector normalised has length one, and is a positive multiple of itself. */
  lemma UnitLength(a: Vec3, sqrt: real -> real)
    requires IsSqrt(sqrt)
    requires a != Zero
    ensures Dot(Unit(a, sqrt), Unit(a, sqrt)) == 1.0
    ensures exists k: real :: 0.0 < k && Unit(a, sqrt) == Scale(k, a)
  {
    NormZeroIff(a, sqrt);
    NormNonNegative(a, sqrt);
    var n := Norm(a, sqrt);
    var k := 1.0 / n;
    assert 0.0 < k;
    calc {
      Dot(Scale(k, a), Scale(k, a));
      (k * k) * Dot(a, a);
      (k * k) * (n * n);
      (k * n) * (k * n);
      1.0;
    }
  }

  // ---------------------------------------------------------------- 3x3 matrices

  /** A 3x3 matrix as its three rows. */
  datatype Mat3 = Mat3(r0: Vec3, r1: Vec3, r2: Vec3)

  const Identity3: Mat3 := Mat3(Vec3(1.0, 0.0, 0.0), Vec3(0.0, 1.0, 0.0), Vec3(0.0, 0.0, 1.0))

  function Col0(m: Mat3): Vec3 { Vec3(m.r0.x, m.r1.x, m.r2.x) }
  function Col1(m: Mat3): Vec3 { Vec3(m.r0.y, m.r1.y, m.r2.y) }
  function Col2(m: Mat3): Vec3 { Vec3(m.r0.z, m.r1.z, m.r2.z) }

  /** `m @ v`. */
  function MatVec(m: Mat3, v: Vec3): Vec3 { Vec3(Dot(m.r0, v), Dot(m.r1, v), Dot(m.r2, v)) }

  /** `m.T`. */
  function Transpose(m: Mat3): Mat3 { Mat3(Col0(m), Col1(m), Col2(m)) }

  /** `a @ b`. */
  function MatMul(a: Mat3, b: Mat3): Mat3 {
    Mat3(
      Vec3(Dot(a.r0, Col0(b)), Dot(a.r0, Col1(b)), Dot(a.r0, Col2(b))),
      Vec3(Dot(a.r1, Col0(b)), Dot(a.r1, Col1(b)), Dot(a.r1, Col2(b))),
      Vec3(Dot(a.r2, Col0(b)), Dot(a.r2, Col1(b)), Dot(a.r2, Col2(b))))
  }

  function MatAdd(a: Mat3, b: Mat3): Mat3 { Mat3(Add(a.r0, b.r0), Add(a.r1, b.r1), Add(a.r2, b.r2)) }

  function MatScale(k: real, a: Mat3): Mat3 { Mat3(Scale(k, a.r0), Scale(k, a.r1), Scale(k, a.r2)) }

  /** `np.outer(a, b)`. */
  function Outer(a: Vec3, b: Vec3): Mat3 { Mat3(Scale(a.x, b), Scale(a.y, b), Scale(a.z, b)) }

  /** Orthonormal columns: mᵀm = I. */
  predicate IsOrthonormal(m: Mat3) { MatMul(Transpose(m), m) == Identity3 }

  lemma MatVecIdentity(v: Vec3)
    ensures MatVec(Identity3, v) == v
  {
  }

  lemma MatMulIdentity(m: Mat3)
    ensures MatMul(Identity3, m) == m && MatMul(m, Identity3) == m
  {
  }

  /** Matrix-vector product distributes over vector addition and negation. */
  lemma MatVecLinear(m: Mat3, u: Vec3, v: Vec3)
    ensures MatVec(m, Add(u, v)) == Add(MatVec(m, u), MatVec(m, v))
    ensures MatVec(m, Neg(u)) == Neg(MatVec(m, u))
  {
  }

  /** Matrix-vector product is linear in the matrix. */
  lemma MatVecMatAdd(a: Mat3, b: Mat3, v: Vec3)
    ensures MatVec(MatAdd(a, b), v) == Add(MatVec(a, v), MatVec(b, v))
  {
    DotAddLeft(a.r0, b.r0, v);
    DotAddLeft(a.r1, b.r1, v);
    DotAddLeft(a.r2, b.r2, v);
  }

  lemma DotAddLeft(u: Vec3, w: Vec3, v: Vec3)
    ensures Dot(Add(u, w), v) == Dot(u, v) + Dot(w, v)
  {
  }

  lemma MatVecMatScale(k: real, a: Mat3, v: Vec3)
    ensures MatVec(MatScale(k, a), v) == Scale(k, MatVec(a, v))
  {
    DotScale(k, a.r0, v);
    DotScale(k, a.r1, v);
    DotScale(k, a.r2, v);
  }

  /** (a b^T) v = (b . v) a. */
  lemma MatVecOuter(a: Vec3, b: Vec3, v: Vec3)
    ensures MatVec(Outer(a, b), v) == Scale(Dot(b, v), a)
  {
    DotScale(a.x, b, v);
    DotScale(a.y, b, v);
    DotScale(a.z, b, v);
  }

  /** (ab)v = a(bv). */
  lemma MatMulVec(a: Mat3, b: Mat3, v: Vec3)
    ensures MatVec(MatMul(a, b), v) == MatVec(a, MatVec(b, v))
  {
    var l, r := MatVec(MatMul(a, b), v), MatVec(a, MatVec(b, v));
    assert l.x == r.x;
    assert l.y == r.y;
    assert l.z == r.z;
  }

  /** (ab)c = a(bc), proved row by row. */
  lemma MatMulAssoc(a: Mat3, b: Mat3, c: Mat3)
    ensures MatMul(MatMul(a, b), c) == MatMul(a, MatMul(b, c))
  {
    var l, r := MatMul(MatMul(a, b), c), MatMul(a, MatMul(b, c));
    RowTimesProduct(a.r0, b, c);
    RowTimesProduct(a.r1, b, c);
    RowTimesProduct(a.r2, b, c);
    assert l.r0 == r.r0 && l.r1 == r.r1 && l.r2 == r.r2;
  }

  /** One row of the associativity identity: (u b) c = u (b c). */
  lemma RowTimesProduct(u: Vec3, b: Mat3, c: Mat3)
    ensures Vec3(Dot(Vec3(Dot(u, Col0(b)), Dot(u, Col1(b)), Dot(u, Col2(b))), Col0(c)),
                 Dot(Vec3(Dot(u, Col0(b)), Dot(u, Col1(b)), Dot(u, Col2(b))), Col1(c)),
                 Dot(Vec3(Dot(u, Col0(b)), Dot(u, Col1(b)), Dot(u, Col2(b))), Col2(c)))
         == Vec3(Dot(u, Col0(MatMul(b, c))), Dot(u, Col1(MatMul(b, c))), Dot(u, Col2(MatMul(b, c))))
  {
  }

  /** (ab)ᵀ = bᵀaᵀ. */
  lemma TransposeMul(a: Mat3, b: Mat3)
    ensures Transpose(MatMul(a, b)) == MatMul(Transpose(b), Transpose(a))
  {
  }

  /** The product of two matrices with orthonormal columns has orthonormal columns. */
  lemma OrthonormalMul(a: Mat3, b: Mat3)
    requires IsOrthonormal(a) && IsOrthonormal(b)
    ensures IsOrthonormal(MatMul(a, b))
  {
    calc {
      MatMul(Transpose(MatMul(a, b)), MatMul(a, b));
      { TransposeMul(a, b); }
      MatMul(MatMul(Transpose(b), Transpose(a)), MatMul(a, b));
      { MatMulAssoc(Transpose(b), Transpose(a), MatMul(a, b)); }
      MatMul(Transpose(b), MatMul(Transpose(a), MatMul(a, b)));
      { MatMulAssoc(Transpose(a), a, b); }
      MatMul(Transpose(b), MatMul(MatMul(Transpose(a), a), b));
      { MatMulIdentity(b); }
      MatMul(Transpose(b), b);
      Identity3;
    }
  }

  /** det(m), as the triple product of its columns. */
  function Det(m: Mat3): real { Dot(Cross(Col0(m), Col1(m)), Col2(m)) }

  /** The adjugate of m: its rows are cross products of pairs of columns. */
  function Adjugate(m: Mat3): Mat3 {
    Mat3(Cross(Col1(m), Col2(m)), Cross(Col2(m), Col0(m)), Cross(Col0(m), Col1(m)))
  }

  /** Each column of the adjugate is the cross product of two rows of m. */
  lemma AdjugateColumns(m: Mat3)
    ensures Col0(Adjugate(m)) == Cross(m.r1, m.r2)
    ensures Col1(Adjugate(m)) == Cross(m.r2, m.r0)
    ensures Col2(Adjugate(m)) == Cross(m.r0, m.r1)
  {
    var r0, r1, r2 := m.r0, m.r1, m.r2;
    assert m == Mat3(Vec3(r0.x, r0.y, r0.z), Vec3(r1.x, r1.y, r1.z), Vec3(r2.x, r2.y, r2.z));
    AdjugateCol0(r0.x, r0.y, r0.z, r1.x, r1.y, r1.z, r2.x, r2.y, r2.z);
    AdjugateCol1(r0.x, r0.y, r0.z, r1.x, r1.y, r1.z, r2.x, r2.y, r2.z);
    AdjugateCol2(r0.x, r0.y, r0.z, r1.x, r1.y, r1.z, r2.x, r2.y, r2.z);
  }

  // One column at a time over the entries: several polynomial facts in one proof overwhelm
  // the solver's nonlinear arithmetic.
  lemma AdjugateCol0(a: real, b: real, c: real, d: real, e: real, f: real, g: real, h: real, i: real)
    ensures var m := Mat3(Vec3(a, b, c), Vec3(d, e, f), Vec3(g, h, i));
            Col0(Adjugate(m)) == Cross(m.r1, m.r2)
  {
  }

  lemma AdjugateCol1(a: real, b: real, c: real, d: real, e: real, f: real, g: real, h: real, i: real)
    ensures var m := Mat3(Vec3(a, b, c), Vec3(d, e, f), Vec3(g, h, i));
            Col1(Adjugate(m)) == Cross(m.r2, m.r0)
  {
  }

  lemma AdjugateCol2(a: real, b: real, c: real, d: real, e: real, f: real, g: real, h: real, i: real)
    ensures var m := Mat3(Vec3(a, b, c), Vec3(d, e, f), Vec3(g, h, i));
            Col2(Adjugate(m)) == Cross(m.r0, m.r1)
  {
  }

  /** The determinant is also the triple product of the rows. */
  lemma DetRows(m: Mat3)
    ensures Det(m) == Dot(m.r0, Cross(m.r1, m.r2))
    ensures Det(m) == Dot(m.r1, Cross(m.r2, m.r0))
    ensures Det(m) == Dot(m.r2, Cross(m.r0, m.r1))
  {
  }

  lemma AdjugateRight(m: Mat3)
    ensures MatMul(m, Adjugate(m)) == MatScale(Det(m), Identity3)
  {
    var adj := Adjugate(m);
    AdjugateColumns(m);
    DetRows(m);
    CrossOrthogonal(m.r1, m.r2);
    CrossOrthogonal(m.r2, m.r0);
    CrossOrthogonal(m.r0, m.r1);
    assert MatMul(m, adj).r0 == Vec3(Dot(m.r0, Cross(m.r1, m.r2)), Dot(m.r0, Cross(m.r2, m.r0)), Dot(m.r0, Cross(m.r0, m.r1)));
    assert MatMul(m, adj).r1 == Vec3(Dot(m.r1, Cross(m.r1, m.r2)), Dot(m.r1, Cross(m.r2, m.r0)), Dot(m.r1, Cross(m.r0, m.r1)));
    assert MatMul(m, adj).r2 == Vec3(Dot(m.r2, Cross(m.r1, m.r2)), Dot(m.r2, Cross(m.r2, m.r0)), Dot(m.r2, Cross(m.r0, m.r1)));
  }

  lemma MatMulScaleIdentity(k: real, m: Mat3)
    ensures MatMul(m, MatScale(k, Identity3)) == MatScale(k, m)
    ensures MatMul(MatScale(k, Identity3), m) == MatScale(k, m)
  {
  }

  lemma MatMulScale(k: real, a: Mat3, b: Mat3)
    ensures MatMul(a, MatScale(k, b)) == MatScale(k, MatMul(a, b))
  {
    var kb := MatScale(k, b);
    assert Col0(kb) == Scale(k, Col0(b)) && Col1(kb) == Scale(k, Col1(b)) && Col2(kb) == Scale(k, Col2(b));
    RowScale(k, a.r0, b);
    RowScale(k, a.r1, b);
    RowScale(k, a.r2, b);
  }

  lemma RowScale(k: real, u: Vec3, b: Mat3)
    ensures Vec3(Dot(u, Scale(k, Col0(b))), Dot(u, Scale(k, Col1(b))), Dot(u, Scale(k, Col2(b))))
         == Scale(k, Vec3(Dot(u, Col0(b)), Dot(u, Col1(b)), Dot(u, Col2(b))))
  {
    DotScale(k, Col0(b), u);
    DotScale(k, Col1(b), u);
    DotScale(k, Col2(b), u);
  }

  /** Cancelling a non-zero factor; `p` and `q` name the two products. */
  lemma CancelFactor(d: real, u: real, v: real, p: real, q: real)
    requires p == d * u && q == d * v
    requires d != 0.0 && p == q
    ensures u == v
  {
    if u != v {
      if 0.0 < d {
        if u < v { ProductPositive(d, v - u, q - p); } else { ProductPositive(d, u - v, p - q); }
      } else {
        if u < v { ProductPositive(-d, v - u, p - q); } else { ProductPositive(-d, u - v, q - p); }
      }
      assert false;
    }
  }

  lemma CancelScaleVec(d: real, u: Vec3, v: Vec3)
    requires d != 0.0 && Scale(d, u) == Scale(d, v)
    ensures u == v
  {
    CancelFactor(d, u.x, v.x, Scale(d, u).x, Scale(d, v).x);
    CancelFactor(d, u.y, v.y, Scale(d, u).y, Scale(d, v).y);
    CancelFactor(d, u.z, v.z, Scale(d, u).z, Scale(d, v).z);
  }

  lemma CancelScale(d: real, a: Mat3, b: Mat3)
    requires d != 0.0 && MatScale(d, a) == MatScale(d, b)
    ensures a == b
  {
    CancelScaleVec(d, a.r0, b.r0);
    CancelScaleVec(d, a.r1, b.r1);
    CancelScaleVec(d, a.r2, b.r2);
  }

  /** With m^T m = I the adjugate is det(m) m^T. */
  lemma AdjugateOfOrthonormal(m: Mat3)
    requires IsOrthonormal(m)
    ensures Adjugate(m) == MatScale(Det(m), Transpose(m))
  {
    var l, adj, d := Transpose(m), Adjugate(m), Det(m);
    calc {
      adj;
      { MatMulIdentity(adj); }
      MatMul(MatMul(l, m), adj);
      { MatMulAssoc(l, m, adj); }
      MatMul(l, MatMul(m, adj));
      { AdjugateRight(m); }
      MatMul(l, MatScale(d, Identity3));
      { MatMulScaleIdentity(d, l); }
      MatScale(d, l);
    }
  }

  /** A matrix with orthonormal columns has a non-zero determinant. */
  lemma DetOfOrthonormal(m: Mat3)
    requires IsOrthonormal(m)
    ensures Det(m) != 0.0
  {
    var c0, c1 := Col0(m), Col1(m);
    assert Dot(c0, c0) == 1.0 && Dot(c1, c1) == 1.0 && Dot(c0, c1) == 0.0;
    Lagrange(c0, c1);
    AdjugateColumns(m);
    AdjugateOfOrthonormal(m);
  }

  /**
    A square matrix with orthonormal columns also has orthonormal rows: m^T m = I implies
    m m^T = I, because the adjugate is det(m) m^T and det(m) is non-zero.
  */
  lemma OrthonormalRows(m: Mat3)
    requires IsOrthonormal(m)
    ensures MatMul(m, Transpose(m)) == Identity3
  {
    var l, d := Transpose(m), Det(m);
    AdjugateOfOrthonormal(m);
    DetOfOrthonormal(m);
    AdjugateRight(m);
    MatMulScale(d, m, l);
    CancelScale(d, MatMul(m, l), Identity3);
  }
}
