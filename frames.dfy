/** Inverting the matrices the game builds from a basis: three basis rows, each
    scaled, a translation row, and the fourth column (0, 0, 0, 1). When the basis is
    orthonormal the inverse is the transposed basis divided by the scales, followed by
    the translation taken back through it. */
module Frames {
  import opened Geometry

  ghost predicate Orthonormal(x: Vec3, y: Vec3, z: Vec3)
  {
    && IsUnit(x) && IsUnit(y) && IsUnit(z)
    && Dot(x, y) == 0.0 && Dot(y, z) == 0.0 && Dot(z, x) == 0.0
  }

  /** The columns of the matrix with rows x, y, z are orthonormal. */
  ghost predicate ColumnsOrthonormal(x: Vec3, y: Vec3, z: Vec3)
  {
    && x.x * x.x + y.x * y.x + z.x * z.x == 1.0
    && x.y * x.y + y.y * y.y + z.y * z.y == 1.0
    && x.z * x.z + y.z * y.z + z.z * z.z == 1.0
    && x.x * x.y + y.x * y.y + z.x * z.y == 0.0
    && x.y * x.z + y.y * y.z + z.y * z.z == 0.0
    && x.z * x.x + y.z * y.x + z.z * z.x == 0.0
  }

  /** One entry of the Gram identity for a cross product x = y * z, with y and z of
      unit length and orthogonal: x_j x_l + y_j y_l + z_j z_l is the identity's entry. */
  lemma GramEntry(xj: real, xl: real, yj: real, yl: real, zj: real, zl: real,
                  yy: real, zz: real, yz: real, d: real)
    requires xj * xl == (yy * zz - yz * yz) * d - zz * (yj * yl) - yy * (zj * zl) + yz * (yj * zl + zj * yl)
    requires yy == 1.0 && zz == 1.0 && yz == 0.0
    ensures xj * xl + yj * yl + zj * zl == d
  {
  }

  /** The entries of the Gram identity for x = y * z, one per lemma: the column
      products of the rows x, y, z are those of the identity matrix. */
  lemma ColumnXX(y: Vec3, z: Vec3)
    requires IsUnit(y) && IsUnit(z) && Dot(y, z) == 0.0
    ensures var x := Cross(y, z); x.x * x.x + y.x * y.x + z.x * z.x == 1.0
  {
    var x := Cross(y, z);
    GramEntry(x.x, x.x, y.x, y.x, z.x, z.x, Dot(y, y), Dot(z, z), Dot(y, z), 1.0);
  }

  lemma ColumnYY(y: Vec3, z: Vec3)
    requires IsUnit(y) && IsUnit(z) && Dot(y, z) == 0.0
    ensures var x := Cross(y, z); x.y * x.y + y.y * y.y + z.y * z.y == 1.0
  {
    var x := Cross(y, z);
    GramEntry(x.y, x.y, y.y, y.y, z.y, z.y, Dot(y, y), Dot(z, z), Dot(y, z), 1.0);
  }

  lemma ColumnZZ(y: Vec3, z: Vec3)
    requires IsUnit(y) && IsUnit(z) && Dot(y, z) == 0.0
    ensures var x := Cross(y, z); x.z * x.z + y.z * y.z + z.z * z.z == 1.0
  {
    var x := Cross(y, z);
    GramEntry(x.z, x.z, y.z, y.z, z.z, z.z, Dot(y, y), Dot(z, z), Dot(y, z), 1.0);
  }

  lemma ColumnXY(y: Vec3, z: Vec3)
    requires IsUnit(y) && IsUnit(z) && Dot(y, z) == 0.0
    ensures var x := Cross(y, z); x.x * x.y + y.x * y.y + z.x * z.y == 0.0
  {
    var x := Cross(y, z);
    GramEntry(x.x, x.y, y.x, y.y, z.x, z.y, Dot(y, y), Dot(z, z), Dot(y, z), 0.0);
  }

  lemma ColumnYZ(y: Vec3, z: Vec3)
    requires IsUnit(y) && IsUnit(z) && Dot(y, z) == 0.0
    ensures var x := Cross(y, z); x.y * x.z + y.y * y.z + z.y * z.z == 0.0
  {
    var x := Cross(y, z);
    GramEntry(x.y, x.z, y.y, y.z, z.y, z.z, Dot(y, y), Dot(z, z), Dot(y, z), 0.0);
  }

  lemma ColumnZX(y: Vec3, z: Vec3)
    requires IsUnit(y) && IsUnit(z) && Dot(y, z) == 0.0
    ensures var x := Cross(y, z); x.z * x.x + y.z * y.x + z.z * z.x == 0.0
  {
    var x := Cross(y, z);
    GramEntry(x.z, x.x, y.z, y.x, z.z, z.x, Dot(y, y), Dot(z, z), Dot(y, z), 0.0);
  }

  /** Completing two orthonormal vectors y, z with x = y * z gives a right-handed
      orthonormal basis whose columns are orthonormal as well. */
  lemma CrossCompletes(y: Vec3, z: Vec3)
    requires IsUnit(y) && IsUnit(z) && Dot(y, z) == 0.0
    ensures Orthonormal(Cross(y, z), y, z) && ColumnsOrthonormal(Cross(y, z), y, z)
  {
    var x := Cross(y, z);
    ColumnXX(y, z); ColumnYY(y, z); ColumnZZ(y, z);
    ColumnXY(y, z); ColumnYZ(y, z); ColumnZX(y, z);
    DotCommutes(z, x);
  }

  /** The matrix whose first three rows hold the components of u, v and w as columns
      (with a zero fourth column) and whose last row is `last`. */
  function Columns(u: Vec3, v: Vec3, w: Vec3, last: Vec4): Mat4
  {
    Mat4(Vec4(u.x, v.x, w.x, 0.0), Vec4(u.y, v.y, w.y, 0.0), Vec4(u.z, v.z, w.z, 0.0), last)
  }

  /** q holds the reciprocals of the scales s. */
  predicate Reciprocals(s: Vec3, q: Vec3)
  {
    q.x * s.x == 1.0 && q.y * s.y == 1.0 && q.z * s.z == 1.0
  }

  /** The inverse of the frame with basis rows x, y, z, scales with reciprocals q, and
      translation t: the basis transposed and divided by the scales, then the translation
      taken back through it. */
  function FrameInverse(x: Vec3, y: Vec3, z: Vec3, q: Vec3, t: Vec3): Mat4
  {
    var u := Scale(q.x, x);
    var v := Scale(q.y, y);
    var w := Scale(q.z, z);
    Columns(u, v, w, BackRow(t, u, v, w))
  }

  /** The translation t taken back through the columns u, v, w. */
  function BackRow(t: Vec3, u: Vec3, v: Vec3, w: Vec3): Vec4
  {
    Vec4(-Dot(t, u), -Dot(t, v), -Dot(t, w), 1.0)
  }

  /** The fourth column of a scale-rotate-translate matrix: (0, 0, 0, 1). */
  ghost predicate AffineColumn(m: Mat4)
  {
    m.r1.w == 0.0 && m.r2.w == 0.0 && m.r3.w == 0.0 && m.r4.w == 1.0
  }

  /** A scaled frame: rows s.x x, s.y y, s.z z with the fourth column (0, 0, 0, 1). */
  ghost predicate ScaledFrame(m: Mat4, x: Vec3, y: Vec3, z: Vec3, s: Vec3)
  {
    Xyz(m.r1) == Scale(s.x, x) && Xyz(m.r2) == Scale(s.y, y) && Xyz(m.r3) == Scale(s.z, z) && AffineColumn(m)
  }

  lemma MulOne(k: real, m: real)
    requires k == 1.0
    ensures k * m == m
  {
  }

  lemma ScaledDot(a: real, e: Vec3, b: real, f: Vec3)
    ensures Dot(Scale(a, e), Scale(b, f)) == (a * b) * Dot(e, f)
  {
  }

  /** The diagonal entries of M N. */
  lemma ScaledDotUnit(a: real, e: Vec3, b: real)
    requires b * a == 1.0 && IsUnit(e)
    ensures Dot(Scale(a, e), Scale(b, e)) == 1.0
  {
    ScaledDot(a, e, b, e);
    MulOne(a * b, Dot(e, e));
  }

  /** The off-diagonal entries of M N. */
  lemma ScaledDotOrthogonal(a: real, e: Vec3, b: real, f: Vec3)
    requires Dot(e, f) == 0.0
    ensures Dot(Scale(a, e), Scale(b, f)) == 0.0
  {
    ScaledDot(a, e, b, f);
  }

  /** The combination of x, y, z weighted by t's components along them. */
  function Recombine(t: Vec3, x: Vec3, y: Vec3, z: Vec3): Vec3
  {
    Add(Add(Scale(Dot(t, x), x), Scale(Dot(t, y), y)), Scale(Dot(t, z), z))
  }

  /** Recombine regrouped by the components of t: the weights are the column products. */
  lemma RecombineX(t: Vec3, x: Vec3, y: Vec3, z: Vec3)
    ensures Recombine(t, x, y, z).x
            == t.x * (x.x * x.x + y.x * y.x + z.x * z.x) + t.y * (x.x * x.y + y.x * y.y + z.x * z.y)
               + t.z * (x.z * x.x + y.z * y.x + z.z * z.x)
  {
  }

  lemma RecombineY(t: Vec3, x: Vec3, y: Vec3, z: Vec3)
    ensures Recombine(t, x, y, z).y
            == t.x * (x.x * x.y + y.x * y.y + z.x * z.y) + t.y * (x.y * x.y + y.y * y.y + z.y * z.y)
               + t.z * (x.y * x.z + y.y * y.z + z.y * z.z)
  {
  }

  lemma RecombineZ(t: Vec3, x: Vec3, y: Vec3, z: Vec3)
    ensures Recombine(t, x, y, z).z
            == t.x * (x.z * x.x + y.z * y.x + z.z * z.x) + t.y * (x.y * x.z + y.y * y.z + z.y * z.z)
               + t.z * (x.z * x.z + y.z * y.z + z.z * z.z)
  {
  }

  lemma Select(a: real, b: real, c: real, p: real, q: real, r: real)
    requires p == 1.0 && q == 0.0 && r == 0.0
    ensures a * p + b * q + c * r == a
  {
  }

  /** Every vector is the sum of its components along a basis whose columns are
      orthonormal. */
  lemma Decompose(t: Vec3, x: Vec3, y: Vec3, z: Vec3)
    requires ColumnsOrthonormal(x, y, z)
    ensures Recombine(t, x, y, z) == t
  {
    RecombineX(t, x, y, z);
    RecombineY(t, x, y, z);
    RecombineZ(t, x, y, z);
    Select(t.x, t.y, t.z, x.x * x.x + y.x * y.x + z.x * z.x, x.x * x.y + y.x * y.y + z.x * z.y,
           x.z * x.x + y.z * y.x + z.z * z.x);
    Select(t.y, t.x, t.z, x.y * x.y + y.y * y.y + z.y * z.y, x.x * x.y + y.x * y.y + z.x * z.y,
           x.y * x.z + y.y * y.z + z.y * z.z);
    Select(t.z, t.x, t.y, x.z * x.z + y.z * y.z + z.z * z.z, x.z * x.x + y.z * y.x + z.z * z.x,
           x.y * x.z + y.y * y.z + z.y * z.z);
  }

  // ---------------------------------------------------------------------------
  // M N = I

  /** A row times a matrix of columns: the dot products with the columns, plus the
      row's w times the last row. */
  lemma RowTimesColumns(r: Vec4, u: Vec3, v: Vec3, w: Vec3, last: Vec4)
    ensures RowTimes(r, Columns(u, v, w, last))
            == Vec4(Dot(Xyz(r), u) + r.w * last.x, Dot(Xyz(r), v) + r.w * last.y,
                    Dot(Xyz(r), w) + r.w * last.z, r.w * last.w)
  {
  }

  /** Row k of M N, for k in 1..3, is the k-th unit row. */
  lemma RightRow(r: Vec4, a: real, e: Vec3, x: Vec3, y: Vec3, z: Vec3, s: Vec3, q: Vec3, t: Vec3, k: int)
    requires Orthonormal(x, y, z) && Reciprocals(s, q)
    requires k == 1 || k == 2 || k == 3
    requires e == (if k == 1 then x else if k == 2 then y else z)
    requires a == (if k == 1 then s.x else if k == 2 then s.y else s.z)
    requires Xyz(r) == Scale(a, e) && r.w == 0.0
    ensures RowTimes(r, FrameInverse(x, y, z, q, t))
            == Vec4(if k == 1 then 1.0 else 0.0, if k == 2 then 1.0 else 0.0, if k == 3 then 1.0 else 0.0, 0.0)
  {
    var (u, v, w) := (Scale(q.x, x), Scale(q.y, y), Scale(q.z, z));
    RowTimesColumns(r, u, v, w, Vec4(-Dot(t, u), -Dot(t, v), -Dot(t, w), 1.0));
    DotCommutes(y, x); DotCommutes(z, y); DotCommutes(x, z);
    if k == 1 {
      ScaledDotUnit(a, x, q.x); ScaledDotOrthogonal(a, x, q.y, y); ScaledDotOrthogonal(a, x, q.z, z);
    } else if k == 2 {
      ScaledDotOrthogonal(a, y, q.x, x); ScaledDotUnit(a, y, q.y); ScaledDotOrthogonal(a, y, q.z, z);
    } else {
      ScaledDotOrthogonal(a, z, q.x, x); ScaledDotOrthogonal(a, z, q.y, y); ScaledDotUnit(a, z, q.z);
    }
  }

  /** The last row of M N is (0, 0, 0, 1): the translation is taken back exactly. */
  lemma RightLastRow(r: Vec4, x: Vec3, y: Vec3, z: Vec3, q: Vec3)
    requires r.w == 1.0
    ensures RowTimes(r, FrameInverse(x, y, z, q, Xyz(r))) == Vec4(0.0, 0.0, 0.0, 1.0)
  {
    var t := Xyz(r);
    var (u, v, w) := (Scale(q.x, x), Scale(q.y, y), Scale(q.z, z));
    RowTimesColumns(r, u, v, w, Vec4(-Dot(t, u), -Dot(t, v), -Dot(t, w), 1.0));
  }

  /** M N = I for M a scaled orthonormal frame and N its FrameInverse. */
  lemma RightInverse(m: Mat4, x: Vec3, y: Vec3, z: Vec3, s: Vec3, q: Vec3)
    requires Orthonormal(x, y, z) && Reciprocals(s, q) && ScaledFrame(m, x, y, z, s)
    ensures Mul(m, FrameInverse(x, y, z, q, Xyz(m.r4))) == Identity
  {
    var t := Xyz(m.r4);
    RightRow(m.r1, s.x, x, x, y, z, s, q, t, 1);
    RightRow(m.r2, s.y, y, x, y, z, s, q, t, 2);
    RightRow(m.r3, s.z, z, x, y, z, s, q, t, 3);
    RightLastRow(m.r4, x, y, z, q);
  }

  // ---------------------------------------------------------------------------
  // N M = I

  /** A row times the scaled frame: the rows' combination, plus w times the translation. */
  lemma RowTimesFrame(r: Vec4, m: Mat4, a1: Vec3, a2: Vec3, a3: Vec3)
    requires Xyz(m.r1) == a1 && Xyz(m.r2) == a2 && Xyz(m.r3) == a3 && AffineColumn(m)
    ensures RowTimes(r, m)
            == Vec4(r.x * a1.x + r.y * a2.x + r.z * a3.x + r.w * m.r4.x,
                    r.x * a1.y + r.y * a2.y + r.z * a3.y + r.w * m.r4.y,
                    r.x * a1.z + r.y * a2.z + r.z * a3.z + r.w * m.r4.z,
                    r.w)
  {
  }

  /** The weight d / s on the row s e leaves d e. */
  lemma CancelWeights(q: real, s: real, d: real, e: Vec3)
    requires q * s == 1.0
    ensures (q * d) * (s * e.x) == d * e.x && (q * d) * (s * e.y) == d * e.y && (q * d) * (s * e.z) == d * e.z
  {
    MulOne(q * s, d * e.x);
    MulOne(q * s, d * e.y);
    MulOne(q * s, d * e.z);
  }

  /** One component of that combination, over plain reals: weights c_i / s_i on the
      entries s_i e_i give the entries e_i weighted by c_i. */
  lemma WeightedEntry(rx: real, ry: real, rz: real, a1: real, a2: real, a3: real,
                      q: Vec3, s: Vec3, c: Vec3, e1: real, e2: real, e3: real)
    requires Reciprocals(s, q)
    requires rx == q.x * c.x && ry == q.y * c.y && rz == q.z * c.z
    requires a1 == s.x * e1 && a2 == s.y * e2 && a3 == s.z * e3
    ensures rx * a1 + ry * a2 + rz * a3 == c.x * e1 + c.y * e2 + c.z * e3
  {
    MulOne(q.x * s.x, c.x * e1);
    MulOne(q.y * s.y, c.y * e2);
    MulOne(q.z * s.z, c.z * e3);
    assert rx * a1 == (q.x * s.x) * (c.x * e1);
    assert ry * a2 == (q.y * s.y) * (c.y * e2);
    assert rz * a3 == (q.z * s.z) * (c.z * e3);
  }

  /** Components 1 to 3 of a row (c.x / s.x, c.y / s.y, c.z / s.z, w) times the scaled
      frame, one per lemma. */
  lemma ScaledEntryX(r: Vec4, m: Mat4, x: Vec3, y: Vec3, z: Vec3, s: Vec3, q: Vec3, c: Vec3)
    requires Reciprocals(s, q) && ScaledFrame(m, x, y, z, s)
    requires Xyz(r) == Vec3(q.x * c.x, q.y * c.y, q.z * c.z)
    ensures RowTimes(r, m).x == c.x * x.x + c.y * y.x + c.z * z.x + r.w * m.r4.x
  {
    var a1 := Scale(s.x, x);
    var a2 := Scale(s.y, y);
    var a3 := Scale(s.z, z);
    RowTimesFrame(r, m, a1, a2, a3);
    WeightedEntry(r.x, r.y, r.z, a1.x, a2.x, a3.x, q, s, c, x.x, y.x, z.x);
  }

  lemma ScaledEntryY(r: Vec4, m: Mat4, x: Vec3, y: Vec3, z: Vec3, s: Vec3, q: Vec3, c: Vec3)
    requires Reciprocals(s, q) && ScaledFrame(m, x, y, z, s)
    requires Xyz(r) == Vec3(q.x * c.x, q.y * c.y, q.z * c.z)
    ensures RowTimes(r, m).y == c.x * x.y + c.y * y.y + c.z * z.y + r.w * m.r4.y
  {
    var a1 := Scale(s.x, x);
    var a2 := Scale(s.y, y);
    var a3 := Scale(s.z, z);
    RowTimesFrame(r, m, a1, a2, a3);
    WeightedEntry(r.x, r.y, r.z, a1.y, a2.y, a3.y, q, s, c, x.y, y.y, z.y);
  }

  lemma ScaledEntryZ(r: Vec4, m: Mat4, x: Vec3, y: Vec3, z: Vec3, s: Vec3, q: Vec3, c: Vec3)
    requires Reciprocals(s, q) && ScaledFrame(m, x, y, z, s)
    requires Xyz(r) == Vec3(q.x * c.x, q.y * c.y, q.z * c.z)
    ensures RowTimes(r, m).z == c.x * x.z + c.y * y.z + c.z * z.z + r.w * m.r4.z
  {
    var a1 := Scale(s.x, x);
    var a2 := Scale(s.y, y);
    var a3 := Scale(s.z, z);
    RowTimesFrame(r, m, a1, a2, a3);
    WeightedEntry(r.x, r.y, r.z, a1.z, a2.z, a3.z, q, s, c, x.z, y.z, z.z);
  }

  /** A row (c.x / s.x, c.y / s.y, c.z / s.z, w) times the scaled frame is the combination
      of x, y, z with weights c, plus w times the translation. */
  lemma ScaledRowTimesFrame(r: Vec4, m: Mat4, x: Vec3, y: Vec3, z: Vec3, s: Vec3, q: Vec3, c: Vec3)
    requires Reciprocals(s, q) && ScaledFrame(m, x, y, z, s)
    requires Xyz(r) == Vec3(q.x * c.x, q.y * c.y, q.z * c.z)
    ensures RowTimes(r, m) == Vec4(c.x * x.x + c.y * y.x + c.z * z.x + r.w * m.r4.x,
                                   c.x * x.y + c.y * y.y + c.z * z.y + r.w * m.r4.y,
                                   c.x * x.z + c.y * y.z + c.z * z.z + r.w * m.r4.z, r.w)
  {
    ScaledEntryX(r, m, x, y, z, s, q, c);
    ScaledEntryY(r, m, x, y, z, s, q, c);
    ScaledEntryZ(r, m, x, y, z, s, q, c);
    RowTimesFrame(r, m, Scale(s.x, x), Scale(s.y, y), Scale(s.z, z));
  }

  /** The first three rows of FrameInverse: the basis components divided by the scales. */
  lemma InverseRows(x: Vec3, y: Vec3, z: Vec3, q: Vec3, t: Vec3)
    ensures var n := FrameInverse(x, y, z, q, t);
            var (u, v, w) := (Scale(q.x, x), Scale(q.y, y), Scale(q.z, z));
            && n.r1 == Vec4(u.x, v.x, w.x, 0.0)
            && n.r2 == Vec4(u.y, v.y, w.y, 0.0)
            && n.r3 == Vec4(u.z, v.z, w.z, 0.0)
  {
  }

  /** Row 1 of FrameInverse: the basis' x components divided by the scales. */
  lemma InverseRow1(x: Vec3, y: Vec3, z: Vec3, q: Vec3, t: Vec3)
    ensures FrameInverse(x, y, z, q, t).r1 == Vec4(q.x * x.x, q.y * y.x, q.z * z.x, 0.0)
  {
    InverseRows(x, y, z, q, t);
  }

  /** Row 2 of FrameInverse: the basis' y components divided by the scales. */
  lemma InverseRow2(x: Vec3, y: Vec3, z: Vec3, q: Vec3, t: Vec3)
    ensures FrameInverse(x, y, z, q, t).r2 == Vec4(q.x * x.y, q.y * y.y, q.z * z.y, 0.0)
  {
    InverseRows(x, y, z, q, t);
  }

  /** Row 3 of FrameInverse: the basis' z components divided by the scales. */
  lemma InverseRow3(x: Vec3, y: Vec3, z: Vec3, q: Vec3, t: Vec3)
    ensures FrameInverse(x, y, z, q, t).r3 == Vec4(q.x * x.z, q.y * y.z, q.z * z.z, 0.0)
  {
    InverseRows(x, y, z, q, t);
  }

  /** The last row of FrameInverse: minus the translation's components along the basis
      (collected in c), divided by the scales. */
  lemma InverseLastRow(x: Vec3, y: Vec3, z: Vec3, q: Vec3, t: Vec3, c: Vec3)
    requires c == Vec3(-Dot(t, x), -Dot(t, y), -Dot(t, z))
    ensures var r := FrameInverse(x, y, z, q, t).r4;
            Xyz(r) == Vec3(q.x * c.x, q.y * c.y, q.z * c.z) && r.w == 1.0
  {
    DotScaleRight(t, q.x, x); DotScaleRight(t, q.y, y); DotScaleRight(t, q.z, z);
  }

  /** The column products of x, y, z, laid out as the rows of the identity. */
  lemma ColumnProducts(x: Vec3, y: Vec3, z: Vec3)
    requires ColumnsOrthonormal(x, y, z)
    ensures Vec4(x.x * x.x + y.x * y.x + z.x * z.x, x.x * x.y + y.x * y.y + z.x * z.y,
                 x.x * x.z + y.x * y.z + z.x * z.z, 0.0) == Identity.r1
    ensures Vec4(x.y * x.x + y.y * y.x + z.y * z.x, x.y * x.y + y.y * y.y + z.y * z.y,
                 x.y * x.z + y.y * y.z + z.y * z.z, 0.0) == Identity.r2
    ensures Vec4(x.z * x.x + y.z * y.x + z.z * z.x, x.z * x.y + y.z * y.y + z.z * z.y,
                 x.z * x.z + y.z * y.z + z.z * z.z, 0.0) == Identity.r3
  {
  }

  /** Row k of N M, for k in 1..3, is the k-th unit row u; c holds the k-th components
      of x, y and z. */
  lemma LeftRow(m: Mat4, x: Vec3, y: Vec3, z: Vec3, s: Vec3, q: Vec3, c: Vec3, r: Vec4, u: Vec4)
    requires Reciprocals(s, q) && ScaledFrame(m, x, y, z, s)
    requires r == Vec4(q.x * c.x, q.y * c.y, q.z * c.z, 0.0)
    requires u == Vec4(c.x * x.x + c.y * y.x + c.z * z.x, c.x * x.y + c.y * y.y + c.z * z.y,
                       c.x * x.z + c.y * y.z + c.z * z.z, 0.0)
    ensures RowTimes(r, m) == u
  {
    ScaledRowTimesFrame(r, m, x, y, z, s, q, c);
  }

  /** Taking the translation's components back along the basis cancels the translation. */
  lemma TranslationCancels(c: Vec3, t: Vec3, x: Vec3, y: Vec3, z: Vec3)
    requires c == Vec3(-Dot(t, x), -Dot(t, y), -Dot(t, z)) && Recombine(t, x, y, z) == t
    ensures c.x * x.x + c.y * y.x + c.z * z.x + 1.0 * t.x == 0.0
    ensures c.x * x.y + c.y * y.y + c.z * z.y + 1.0 * t.y == 0.0
    ensures c.x * x.z + c.y * y.z + c.z * z.z + 1.0 * t.z == 0.0
  {
  }

  /** The last row of N M is (0, 0, 0, 1). */
  lemma LeftLastRow(m: Mat4, x: Vec3, y: Vec3, z: Vec3, s: Vec3, q: Vec3)
    requires ColumnsOrthonormal(x, y, z) && Reciprocals(s, q) && ScaledFrame(m, x, y, z, s)
    ensures RowTimes(FrameInverse(x, y, z, q, Xyz(m.r4)).r4, m) == Vec4(0.0, 0.0, 0.0, 1.0)
  {
    var t := Xyz(m.r4);
    var r := FrameInverse(x, y, z, q, t).r4;
    var c := Vec3(-Dot(t, x), -Dot(t, y), -Dot(t, z));
    InverseLastRow(x, y, z, q, t, c);
    ScaledRowTimesFrame(r, m, x, y, z, s, q, c);
    Decompose(t, x, y, z);
    TranslationCancels(c, t, x, y, z);
  }

  /** Row 1 of N M is the first unit row, for r the first row of N. */
  lemma LeftRow1(m: Mat4, x: Vec3, y: Vec3, z: Vec3, s: Vec3, q: Vec3, r: Vec4)
    requires ColumnsOrthonormal(x, y, z) && Reciprocals(s, q) && ScaledFrame(m, x, y, z, s)
    requires r == Vec4(q.x * x.x, q.y * y.x, q.z * z.x, 0.0)
    ensures RowTimes(r, m) == Identity.r1
  {
    ColumnProducts(x, y, z);
    LeftRow(m, x, y, z, s, q, Vec3(x.x, y.x, z.x), r, Identity.r1);
  }

  /** Row 2 of N M is the second unit row, for r the second row of N. */
  lemma LeftRow2(m: Mat4, x: Vec3, y: Vec3, z: Vec3, s: Vec3, q: Vec3, r: Vec4)
    requires ColumnsOrthonormal(x, y, z) && Reciprocals(s, q) && ScaledFrame(m, x, y, z, s)
    requires r == Vec4(q.x * x.y, q.y * y.y, q.z * z.y, 0.0)
    ensures RowTimes(r, m) == Identity.r2
  {
    ColumnProducts(x, y, z);
    LeftRow(m, x, y, z, s, q, Vec3(x.y, y.y, z.y), r, Identity.r2);
  }

  /** Row 3 of N M is the third unit row, for r the third row of N. */
  lemma LeftRow3(m: Mat4, x: Vec3, y: Vec3, z: Vec3, s: Vec3, q: Vec3, r: Vec4)
    requires ColumnsOrthonormal(x, y, z) && Reciprocals(s, q) && ScaledFrame(m, x, y, z, s)
    requires r == Vec4(q.x * x.z, q.y * y.z, q.z * z.z, 0.0)
    ensures RowTimes(r, m) == Identity.r3
  {
    ColumnProducts(x, y, z);
    LeftRow(m, x, y, z, s, q, Vec3(x.z, y.z, z.z), r, Identity.r3);
  }

  lemma RowsMakeIdentity(a: Mat4, b: Mat4)
    requires RowTimes(a.r1, b) == Identity.r1 && RowTimes(a.r2, b) == Identity.r2
    requires RowTimes(a.r3, b) == Identity.r3 && RowTimes(a.r4, b) == Identity.r4
    ensures Mul(a, b) == Identity
  {
  }

  /** N M = I for M a scaled frame whose basis columns are orthonormal and N its
      FrameInverse. */
  lemma LeftInverse(m: Mat4, x: Vec3, y: Vec3, z: Vec3, s: Vec3, q: Vec3)
    requires ColumnsOrthonormal(x, y, z) && Reciprocals(s, q) && ScaledFrame(m, x, y, z, s)
    ensures Mul(FrameInverse(x, y, z, q, Xyz(m.r4)), m) == Identity
  {
    var n := FrameInverse(x, y, z, q, Xyz(m.r4));
    InverseRow1(x, y, z, q, Xyz(m.r4));
    InverseRow2(x, y, z, q, Xyz(m.r4));
    InverseRow3(x, y, z, q, Xyz(m.r4));
    LeftRow1(m, x, y, z, s, q, n.r1);
    LeftRow2(m, x, y, z, s, q, n.r2);
    LeftRow3(m, x, y, z, s, q, n.r3);
    LeftLastRow(m, x, y, z, s, q);
    RowsMakeIdentity(FrameInverse(x, y, z, q, Xyz(m.r4)), m);
  }

  /** A scaled orthonormal frame with non-zero scales is invertible, and FrameInverse is
      its inverse. */
  lemma FrameInvertible(m: Mat4, x: Vec3, y: Vec3, z: Vec3, s: Vec3, q: Vec3)
    requires Orthonormal(x, y, z) && ColumnsOrthonormal(x, y, z)
    requires Reciprocals(s, q) && ScaledFrame(m, x, y, z, s)
    ensures IsInverse(m, FrameInverse(x, y, z, q, Xyz(m.r4))) && Invertible(m)
  {
    var n := FrameInverse(x, y, z, q, Xyz(m.r4));
    RightInverse(m, x, y, z, s, q);
    LeftInverse(m, x, y, z, s, q);
    assert IsInverse(m, n);
  }
}
