/** Exact real vectors standing in for cgmath's `Vector2<f32>`, `Vector3<f32>`,
    `Point3<f32>` and `[f32; 4]`, with the operations the engine uses.

    Dafny has no square root, so cgmath's `magnitude` enters the model as a
    parameter `norm: Vec3 -> real` that must satisfy `IsMagnitude`: it is
    non-negative, its square is the squared length, and it vanishes only at
    the zero vector.  The real magnitude is such a function.  Every fact about
    lengths below is derived from those three properties. */
module Vectors {

  datatype Vec2 = Vec2(x: real, y: real)

  datatype Vec3 = Vec3(x: real, y: real, z: real)

  datatype Vec4 = Vec4(x: real, y: real, z: real, w: real)

  const Zero3 := Vec3(0.0, 0.0, 0.0)

  function Add(a: Vec3, b: Vec3): Vec3 {
    Vec3(a.x + b.x, a.y + b.y, a.z + b.z)
  }

  function Sub(a: Vec3, b: Vec3): Vec3 {
    Vec3(a.x - b.x, a.y - b.y, a.z - b.z)
  }

  function Scale(a: Vec3, k: real): Vec3 {
    Vec3(a.x * k, a.y * k, a.z * k)
  }

  function Dot(a: Vec3, b: Vec3): real {
    a.x * b.x + a.y * b.y + a.z * b.z
  }

  function Cross(a: Vec3, b: Vec3): Vec3 {
    Vec3(a.y * b.z - a.z * b.y, a.z * b.x - a.x * b.z, a.x * b.y - a.y * b.x)
  }

  function Sub2(a: Vec2, b: Vec2): Vec2 {
    Vec2(a.x - b.x, a.y - b.y)
  }

  /** `norm` is a magnitude at `v`. */
  ghost predicate MagnitudeAt(norm: Vec3 -> real, v: Vec3) {
    && norm(v) >= 0.0
    && norm(v) * norm(v) == Dot(v, v)
    && (v != Zero3 ==> norm(v) > 0.0)
  }

  /** `norm` behaves like cgmath's `magnitude` everywhere. */
  ghost predicate IsMagnitude(norm: Vec3 -> real) {
    forall v :: MagnitudeAt(norm, v)
  }

  /** cgmath's `normalize`: the vector divided by its magnitude. */
  function Normalize(norm: Vec3 -> real, v: Vec3): Vec3
    requires norm(v) != 0.0
  {
    Scale(v, 1.0 / norm(v))
  }

  // ---------------------------------------------------------------------
  // Real arithmetic, one step per lemma.

  lemma ZeroProduct(p: real, q: real)
    requires p * q == 0.0
    ensures p == 0.0 || q == 0.0
  {
    if p != 0.0 {
      assert q == (p * q) / p;
    }
  }

  lemma DiffOfSquares(a: real, b: real)
    ensures (a - b) * (a + b) == a * a - b * b
  {}

  /** Two non-negative reals with equal squares are equal. */
  lemma RootUnique(a: real, b: real)
    requires a >= 0.0 && b >= 0.0 && a * a == b * b
    ensures a == b
  {
    DiffOfSquares(a, b);
    ZeroProduct(a - b, a + b);
  }

  lemma SquareOfProduct(k: real, m: real)
    ensures (k * m) * (k * m) == (k * k) * (m * m)
  {}

  lemma MulPositive(a: real, b: real)
    requires a > 0.0 && b > 0.0
    ensures a * b > 0.0
  {}

  lemma MulNonNeg(a: real, b: real)
    requires a >= 0.0 && b >= 0.0
    ensures a * b >= 0.0
  {}

  /** Facts about a quotient by a positive real. */
  lemma QuotientProduct(a: real, m: real)
    requires m > 0.0
    ensures (1.0 / m) * a == a / m
    ensures (a / m) * m == a
  {}

  lemma QuotientBounds(a: real, m: real)
    requires m > 0.0
    ensures 1.0 / m > 0.0
    ensures a >= 0.0 ==> a / m >= 0.0
    ensures a < m ==> a / m < 1.0
  {}

  // ---------------------------------------------------------------------
  // Vector identities.

  lemma ScaleScale(v: Vec3, a: real, b: real)
    ensures Scale(Scale(v, a), b) == Scale(v, a * b)
  {}

  lemma ScaleOne(v: Vec3)
    ensures Scale(v, 1.0) == v
  {}

  /** Scaling by a positive factor and then by its reciprocal is the identity. */
  lemma ScaleUndo(v: Vec3, c: real)
    requires c > 0.0
    ensures Scale(Scale(v, c), 1.0 / c) == v
  {
    QuotientProduct(1.0, c);
    ScaleScale(v, c, 1.0 / c);
    ScaleOne(v);
  }

  lemma ScaleSum(v: Vec3, a: real, b: real)
    ensures Add(Scale(v, a), Scale(v, b)) == Scale(v, a + b)
    ensures Sub(Scale(v, a), Scale(v, b)) == Scale(v, a - b)
  {}

  lemma DotScaleLeft(a: Vec3, b: Vec3, k: real)
    ensures Dot(Scale(a, k), b) == k * Dot(a, b)
  {}

  lemma DotAddLeft(a: Vec3, b: Vec3, c: Vec3)
    ensures Dot(Add(a, b), c) == Dot(a, c) + Dot(b, c)
    ensures Dot(Sub(a, b), c) == Dot(a, c) - Dot(b, c)
  {}

  lemma DotScaleSelf(v: Vec3, k: real)
    ensures Dot(Scale(v, k), Scale(v, k)) == (k * k) * Dot(v, v)
  {}

  /** A cross product is orthogonal to its first factor. */
  lemma CrossOrthogonal(a: Vec3, b: Vec3)
    ensures Dot(Cross(a, b), a) == 0.0
  {}

  lemma SubAddCancel(e: Vec3, w: Vec3)
    ensures Sub(Add(e, w), w) == e
    ensures Sub(Add(e, w), e) == w
    ensures Sub(Sub(e, w), e) == Scale(w, -1.0)
  {}

  lemma SubSub(t: Vec3, e: Vec3, w: Vec3)
    ensures Sub(t, Sub(t, w)) == w
    ensures Sub(t, Add(e, w)) == Sub(Sub(t, e), w)
    ensures Sub(t, Sub(e, w)) == Add(Sub(t, e), w)
  {}

  // ---------------------------------------------------------------------
  // Magnitudes.

  /** A non-zero vector has a positive magnitude. */
  lemma MagnitudePositive(norm: Vec3 -> real, v: Vec3)
    requires IsMagnitude(norm) && v != Zero3
    ensures norm(v) > 0.0
  {
    assert MagnitudeAt(norm, v);
  }

  /** Scaling by a non-negative factor scales the magnitude by that factor. */
  lemma MagnitudeScale(norm: Vec3 -> real, v: Vec3, k: real)
    requires IsMagnitude(norm) && k >= 0.0
    ensures norm(Scale(v, k)) == k * norm(v)
  {
    assert MagnitudeAt(norm, v);
    assert MagnitudeAt(norm, Scale(v, k));
    DotScaleSelf(v, k);
    SquareOfProduct(k, norm(v));
    MulNonNeg(k, norm(v));
    RootUnique(norm(Scale(v, k)), k * norm(v));
  }

  /** A normalised non-zero vector has magnitude one. */
  lemma NormalizedIsUnit(norm: Vec3 -> real, v: Vec3)
    requires IsMagnitude(norm) && v != Zero3
    ensures norm(v) > 0.0
    ensures norm(Normalize(norm, v)) == 1.0
  {
    MagnitudePositive(norm, v);
    QuotientProduct(1.0, norm(v));
    QuotientBounds(1.0, norm(v));
    MagnitudeScale(norm, v, 1.0 / norm(v));
  }

  /** A vector plus (or minus) a multiple of a vector orthogonal to it is non-zero
      whenever the first one is a positive multiple of a non-zero vector. */
  lemma OffsetNonZero(norm: Vec3 -> real, f: Vec3, c: real, r: Vec3, k: real)
    requires IsMagnitude(norm) && f != Zero3 && c > 0.0 && Dot(r, f) == 0.0
    ensures Add(Scale(f, c), Scale(r, k)) != Zero3
    ensures Sub(Scale(f, c), Scale(r, k)) != Zero3
  {
    DotScaleLeft(f, f, c);
    DotScaleLeft(r, f, k);
    DotAddLeft(Scale(f, c), Scale(r, k), f);
    var n := norm(f);
    assert MagnitudeAt(norm, f);
    MulPositive(c, n);
    MulPositive(c * n, n);
    assert c * Dot(f, f) == (c * n) * n;
  }
}
