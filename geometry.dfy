/** Vectors and 4x4 matrices over the reals, in DirectXMath's row-vector convention:
    a point p is the row (p.x, p.y, p.z, 1), it is transformed by p * M, and the
    product A * B applies A first and then B. Rows 1 to 3 of a world matrix are its
    scaled x, y and z axes; row 4 is its translation. */
module Geometry {

  datatype Vec3 = Vec3(x: real, y: real, z: real)
  datatype Vec4 = Vec4(x: real, y: real, z: real, w: real)

  /** A 4x4 matrix, stored by rows. */
  datatype Mat4 = Mat4(r1: Vec4, r2: Vec4, r3: Vec4, r4: Vec4)

  const Zero := Vec3(0.0, 0.0, 0.0)
  const WorldUp := Vec3(0.0, 1.0, 0.0)

  function Add(a: Vec3, b: Vec3): Vec3 { Vec3(a.x + b.x, a.y + b.y, a.z + b.z) }
  function Sub(a: Vec3, b: Vec3): Vec3 { Vec3(a.x - b.x, a.y - b.y, a.z - b.z) }
  function Scale(k: real, v: Vec3): Vec3 { Vec3(k * v.x, k * v.y, k * v.z) }
  function Dot(a: Vec3, b: Vec3): real { a.x * b.x + a.y * b.y + a.z * b.z }

  /** Squared distance between two points. */
  function SqDist(a: Vec3, b: Vec3): real { Dot(Sub(a, b), Sub(a, b)) }

  ghost predicate IsUnit(v: Vec3) { Dot(v, v) == 1.0 }

  /** XMVector3Cross. */
  function Cross(a: Vec3, b: Vec3): (c: Vec3)
    ensures Dot(c, a) == 0.0 && Dot(c, b) == 0.0
  {
    Vec3(a.y * b.z - a.z * b.y, a.z * b.x - a.x * b.z, a.x * b.y - a.y * b.x)
  }

  /** The linear interpolation a + t * (b - a) that the game's Lerp helper is assumed to compute. */
  function Lerp(a: Vec3, b: Vec3, t: real): Vec3 { Add(a, Scale(t, Sub(b, a))) }

  /** The vector part of a matrix row. */
  function Xyz(r: Vec4): Vec3 { Vec3(r.x, r.y, r.z) }

  function Point(p: Vec3): Vec4 { Vec4(p.x, p.y, p.z, 1.0) }

  /** Row vector r times matrix m: the combination of m's rows weighted by r. */
  function RowTimes(r: Vec4, m: Mat4): Vec4
  {
    Vec4(r.x * m.r1.x + r.y * m.r2.x + r.z * m.r3.x + r.w * m.r4.x,
         r.x * m.r1.y + r.y * m.r2.y + r.z * m.r3.y + r.w * m.r4.y,
         r.x * m.r1.z + r.y * m.r2.z + r.z * m.r3.z + r.w * m.r4.z,
         r.x * m.r1.w + r.y * m.r2.w + r.z * m.r3.w + r.w * m.r4.w)
  }

  /** The matrix product a * b (XMMatrixMultiply, and `out *= m` in the game). */
  function Mul(a: Mat4, b: Mat4): Mat4
  {
    Mat4(RowTimes(a.r1, b), RowTimes(a.r2, b), RowTimes(a.r3, b), RowTimes(a.r4, b))
  }

  const Identity := Mat4(Vec4(1.0, 0.0, 0.0, 0.0), Vec4(0.0, 1.0, 0.0, 0.0),
                         Vec4(0.0, 0.0, 1.0, 0.0), Vec4(0.0, 0.0, 0.0, 1.0))

  /** XMMatrixRotationY(XMConvertToRadians(180)), with cos 180 = -1 and sin 180 = 0 exactly. */
  const RotationY180 := Mat4(Vec4(-1.0, 0.0, 0.0, 0.0), Vec4(0.0, 1.0, 0.0, 0.0),
                             Vec4(0.0, 0.0, -1.0, 0.0), Vec4(0.0, 0.0, 0.0, 1.0))

  lemma MulIdentityLeft(m: Mat4)
    ensures Mul(Identity, m) == m
  {
  }

  /** Multiplying by the half turn on the left negates the x and z rows of m. */
  lemma RotationY180Left(m: Mat4)
    ensures Mul(RotationY180, m) == Mat4(Vec4(-m.r1.x, -m.r1.y, -m.r1.z, -m.r1.w), m.r2,
                                         Vec4(-m.r3.x, -m.r3.y, -m.r3.z, -m.r3.w), m.r4)
  {
  }

  /** Whatever comes after a matrix and its inverse sees the identity. */
  lemma CancelThenRotate(a: Mat4, w: Mat4, b: Mat4)
    requires Mul(a, w) == Identity
    ensures Mul(Mul(Mul(a, w), RotationY180), b) == Mul(RotationY180, b)
  {
    MulIdentityLeft(RotationY180);
  }

  /** After a matrix and its inverse, a half turn and then b: the translation and up
      rows are b's, and the forward row is b's reversed. */
  lemma HalfTurnRows(a: Mat4, w: Mat4, b: Mat4)
    requires Mul(a, w) == Identity
    ensures var t := Mul(Mul(Mul(a, w), RotationY180), b);
            && Xyz(t.r4) == Xyz(b.r4) && Xyz(t.r3) == Scale(-1.0, Xyz(b.r3)) && Xyz(t.r2) == Xyz(b.r2)
  {
    CancelThenRotate(a, w, b);
    HalfTurnXyz(b);
  }

  /** The half turn on the left keeps the translation and up rows of b and reverses
      its forward row. */
  lemma HalfTurnXyz(b: Mat4)
    ensures var h := Mul(RotationY180, b);
            && Xyz(h.r4) == Xyz(b.r4) && Xyz(h.r3) == Scale(-1.0, Xyz(b.r3)) && Xyz(h.r2) == Xyz(b.r2)
  {
    RotationY180Left(b);
  }

  ghost predicate IsInverse(m: Mat4, n: Mat4)
  {
    Mul(m, n) == Identity && Mul(n, m) == Identity
  }

  ghost predicate Invertible(m: Mat4)
  {
    exists n :: IsInverse(m, n)
  }

  /** XMMatrixInverse: the two-sided inverse when there is one. For a singular matrix
      DirectXMath returns a matrix of non-finite values, which reals cannot hold; the
      model leaves that result unspecified. */
  ghost function Inverse(m: Mat4): (n: Mat4)
    ensures Invertible(m) ==> Mul(m, n) == Identity && Mul(n, m) == Identity
  {
    if Invertible(m) then var n :| IsInverse(m, n); n else m
  }

  /** The result of XMVector3Normalize, a routine this model does not compute: a
      normaliser maps the zero vector to itself (as XMVector3Normalize does) and every
      other vector to the unit vector pointing the same way. */
  type Normalizer = Vec3 -> Vec3

  ghost predicate IsNormalizer(norm: Normalizer)
  {
    && norm(Zero) == Zero
    && forall v :: v != Zero ==> IsUnit(norm(v)) && exists k: real :: k > 0.0 && norm(v) == Scale(k, v)
  }

  lemma DotCommutes(a: Vec3, b: Vec3)
    ensures Dot(a, b) == Dot(b, a)
  {
  }

  /** Scaling preserves orthogonality. */
  lemma ScaledOrthogonal(a: real, u: Vec3, b: real, v: Vec3)
    requires Dot(u, v) == 0.0
    ensures Dot(Scale(a, u), Scale(b, v)) == 0.0
  {
    assert Dot(Scale(a, u), Scale(b, v)) == a * b * Dot(u, v);
  }

  lemma DotScaleLeft(k: real, v: Vec3, a: Vec3)
    ensures Dot(Scale(k, v), a) == k * Dot(v, a)
  {
  }

  /** The positive factor by which a normaliser scales a non-zero vector. */
  lemma NormalizerFactor(norm: Normalizer, v: Vec3) returns (k: real)
    requires IsNormalizer(norm) && v != Zero
    ensures k > 0.0 && norm(v) == Scale(k, v) && IsUnit(norm(v))
  {
    assert IsUnit(norm(v));
    k :| k > 0.0 && norm(v) == Scale(k, v);
  }

  /** Whatever a normaliser returns is a non-negative multiple of its argument, so it
      keeps every orthogonality the argument has. */
  lemma NormalizeKeepsOrthogonal(norm: Normalizer, v: Vec3, a: Vec3)
    requires IsNormalizer(norm) && Dot(v, a) == 0.0
    ensures Dot(norm(v), a) == 0.0
  {
    if v != Zero {
      var k := NormalizerFactor(norm, v);
      DotScaleLeft(k, v, a);
    }
  }

  /** XMMatrixLookToLH(eye, forward, up): a view matrix whose z axis is the normalised
      look direction, whose x axis is the normalised up x z, whose y axis is z x x, and
      whose translation takes the eye to the origin. The eye maps to the view origin,
      and the look direction has no view x or y component. */
  function LookToLH(eye: Vec3, forward: Vec3, up: Vec3, norm: Normalizer): (v: Mat4)
    ensures RowTimes(Point(eye), v) == Vec4(0.0, 0.0, 0.0, 1.0)
    ensures RowTimes(Vec4(forward.x, forward.y, forward.z, 0.0), v).w == 0.0
  {
    var zaxis := norm(forward);
    var xaxis := norm(Cross(up, zaxis));
    var yaxis := Cross(zaxis, xaxis);
    Mat4(Vec4(xaxis.x, yaxis.x, zaxis.x, 0.0),
         Vec4(xaxis.y, yaxis.y, zaxis.y, 0.0),
         Vec4(xaxis.z, yaxis.z, zaxis.z, 0.0),
         Vec4(-Dot(xaxis, eye), -Dot(yaxis, eye), -Dot(zaxis, eye), 1.0))
  }

  /** The axes LookToLH builds: view x, y and z as world vectors. */
  function LookToAxes(forward: Vec3, up: Vec3, norm: Normalizer): (Vec3, Vec3, Vec3)
  {
    var zaxis := norm(forward);
    var xaxis := norm(Cross(up, zaxis));
    (xaxis, Cross(zaxis, xaxis), zaxis)
  }

  /** A direction seen through LookToLH has the view coordinates of its projections on the view axes. */
  lemma LookToDirection(eye: Vec3, forward: Vec3, up: Vec3, norm: Normalizer, v: Vec3)
    ensures var (xa, ya, za) := LookToAxes(forward, up, norm);
            RowTimes(Vec4(v.x, v.y, v.z, 0.0), LookToLH(eye, forward, up, norm))
              == Vec4(Dot(xa, v), Dot(ya, v), Dot(za, v), 0.0)
  {
  }

  lemma PositiveFromProduct(a: real, k: real)
    requires a * k == 1.0 && k > 0.0
    ensures a > 0.0
  {
  }

  lemma DotScaleRight(a: Vec3, k: real, v: Vec3)
    ensures Dot(a, Scale(k, v)) == k * Dot(a, v)
  {
  }

  /** Orthogonality to a non-zero multiple of v is orthogonality to v. */
  lemma OrthogonalToMultiple(a: Vec3, k: real, v: Vec3)
    requires k != 0.0 && Dot(a, Scale(k, v)) == 0.0
    ensures Dot(a, v) == 0.0
  {
    DotScaleRight(a, k, v);
    var d := Dot(a, v);
    assert k * d == 0.0;
  }

  /** With a true normaliser, the view z axis of LookToLH points along the look direction. */
  lemma LookToZFacing(forward: Vec3, norm: Normalizer)
    requires IsNormalizer(norm) && forward != Zero
    ensures Dot(norm(forward), forward) > 0.0
  {
    var k := NormalizerFactor(norm, forward);
    DotScaleRight(norm(forward), k, forward);
    PositiveFromProduct(Dot(norm(forward), forward), k);
  }

  /** A vector orthogonal to the normalised look direction is orthogonal to the look direction. */
  lemma OrthogonalToNormalized(a: Vec3, forward: Vec3, norm: Normalizer)
    requires IsNormalizer(norm) && forward != Zero && Dot(a, norm(forward)) == 0.0
    ensures Dot(a, forward) == 0.0
  {
    var k := NormalizerFactor(norm, forward);
    OrthogonalToMultiple(a, k, forward);
  }

  /** With a true normaliser, the view x and y axes of LookToLH are orthogonal to the
      look direction and the view z axis points along it. */
  lemma LookToAxesFacing(forward: Vec3, up: Vec3, norm: Normalizer)
    requires IsNormalizer(norm) && forward != Zero
    ensures var (xaxis, yaxis, zaxis) := LookToAxes(forward, up, norm);
            Dot(xaxis, forward) == 0.0 && Dot(yaxis, forward) == 0.0 && Dot(zaxis, forward) > 0.0
  {
    var (xaxis, yaxis, zaxis) := LookToAxes(forward, up, norm);
    NormalizeKeepsOrthogonal(norm, Cross(up, zaxis), zaxis);
    OrthogonalToNormalized(xaxis, forward, norm);
    OrthogonalToNormalized(yaxis, forward, norm);
    LookToZFacing(forward, norm);
  }

  /** With a true normaliser, the look direction of LookToLH lies on the view's
      positive z axis. */
  lemma LookToForwardIsViewZ(eye: Vec3, forward: Vec3, up: Vec3, norm: Normalizer)
    requires IsNormalizer(norm) && forward != Zero
    ensures var d := RowTimes(Vec4(forward.x, forward.y, forward.z, 0.0), LookToLH(eye, forward, up, norm));
            d.x == 0.0 && d.y == 0.0 && d.z > 0.0
  {
    LookToAxesFacing(forward, up, norm);
    LookToDirection(eye, forward, up, norm, forward);
  }

  /** The scalar triple product is invariant under cyclic rotation. */
  lemma TripleProduct(a: Vec3, b: Vec3, c: Vec3)
    ensures Dot(Cross(a, b), c) == Dot(b, Cross(c, a))
  {
  }

  /** A vector and its normalisation never point in opposite directions. */
  lemma NormalizedAgrees(norm: Normalizer, c: Vec3)
    requires IsNormalizer(norm)
    ensures Dot(norm(c), c) >= 0.0
  {
    if c != Zero {
      var k := NormalizerFactor(norm, c);
      DotScaleLeft(k, c, c);
      assert Dot(c, c) >= 0.0;
    }
  }

  /** With a true normaliser, the up vector of LookToLH has no view x component and a
      non-negative view y component: the view is not rolled away from it. */
  lemma LookToUpIsViewUp(eye: Vec3, forward: Vec3, up: Vec3, norm: Normalizer)
    requires IsNormalizer(norm)
    ensures var d := RowTimes(Vec4(up.x, up.y, up.z, 0.0), LookToLH(eye, forward, up, norm));
            d.x == 0.0 && d.y >= 0.0
  {
    var (xaxis, yaxis, zaxis) := LookToAxes(forward, up, norm);
    var c := Cross(up, zaxis);
    NormalizeKeepsOrthogonal(norm, c, up);
    DotCommutes(xaxis, up);
    TripleProduct(zaxis, xaxis, up);
    NormalizedAgrees(norm, c);
    LookToDirection(eye, forward, up, norm, up);
  }

  /** Overwrites the upper 3x3 of t with the rows s.x * x, s.y * y and s.z * z, as the
      game's basis-building matrix getters do; the fourth column and the translation
      row are carried over from t unchanged. */
  function WithScaledBasis(t: Mat4, x: Vec3, y: Vec3, z: Vec3, s: Vec3): (m: Mat4)
    ensures Xyz(m.r1) == Scale(s.x, x) && Xyz(m.r2) == Scale(s.y, y) && Xyz(m.r3) == Scale(s.z, z)
    ensures m.r1.w == t.r1.w && m.r2.w == t.r2.w && m.r3.w == t.r3.w && m.r4 == t.r4
  {
    Mat4(Vec4(x.x * s.x, x.y * s.x, x.z * s.x, t.r1.w),
         Vec4(y.x * s.y, y.y * s.y, y.z * s.y, t.r2.w),
         Vec4(z.x * s.z, z.y * s.z, z.z * s.z, t.r3.w),
         t.r4)
  }
}
