/** A portal of the pair: its placement state (DX11Base/portal.h) and the matrices it
    derives from that state (DX11Base/portal.cpp). The GameObject world matrix of a
    portal, built by a base class that is not part of this model, is passed in as
    `world`; the main camera's local-to-world matrix is passed in as `camera`. */
module Portals {
  import opened Geometry
  import opened Frames

  /** An RGBA tint. */
  datatype Color = Color(r: real, g: real, b: real, a: real)

  class Portal {
    // GameObject transform
    var position: Vec3
    var rotation: Vec3
    var scale: Vec3
    // portal placement
    var lookAt: Vec3
    var up: Vec3
    var color: Color
    /** The paired portal; null while this portal is unpaired. */
    var otherPortal: Portal?
    /** Whether `up` has been assigned: the source gives it no initial value. */
    ghost var upSet: bool

    /** Creation followed by Awake: identity transform with scale 2, facing -z. The
        up vector and the colour keep whatever value they had. */
    constructor Awake()
      ensures position == Zero && rotation == Zero && scale == Vec3(2.0, 2.0, 2.0)
      ensures lookAt == Vec3(0.0, 0.0, -1.0)
      ensures otherPortal == null && !upSet
    {
      position := Zero;
      rotation := Zero;
      scale := Vec3(2.0, 2.0, 2.0);
      lookAt := Vec3(0.0, 0.0, -1.0);
      otherPortal := null;
      upSet := false;
    }

    method SetLookAt(v: Vec3)
      modifies this`lookAt
      ensures lookAt == v
    {
      lookAt := v;
    }

    method SetUp(v: Vec3)
      modifies this`up, this`upSet
      ensures up == v && upSet
    {
      up := v;
      upSet := true;
    }

    method SetColor(c: Color)
      modifies this`color
      ensures color == c
    {
      color := c;
    }

    /** GetLocalToWorldMatrix: the base world matrix with its upper 3x3 replaced by the
        basis right = up x forward, up, forward (forward and up normalised), each row
        scaled by the matching scale component. The translation row and the fourth
        column come from the base matrix, and the right row is orthogonal to the other
        two whatever the inputs. */
    function LocalToWorld(world: Mat4, norm: Normalizer): (m: Mat4)
      reads this
      requires upSet
      ensures Xyz(m.r1) == Scale(scale.x, Cross(norm(up), norm(lookAt)))
      ensures Xyz(m.r2) == Scale(scale.y, norm(up))
      ensures Xyz(m.r3) == Scale(scale.z, norm(lookAt))
      ensures m.r4 == world.r4 && m.r1.w == world.r1.w && m.r2.w == world.r2.w && m.r3.w == world.r3.w
      ensures Dot(Xyz(m.r1), Xyz(m.r2)) == 0.0 && Dot(Xyz(m.r1), Xyz(m.r3)) == 0.0
    {
      var zaxis := norm(lookAt);
      var yaxis := norm(up);
      var xaxis := Cross(yaxis, zaxis);
      ScaledOrthogonal(scale.x, xaxis, scale.y, yaxis);
      ScaledOrthogonal(scale.x, xaxis, scale.z, zaxis);
      WithScaledBasis(world, xaxis, yaxis, zaxis, scale)
    }

    /** GetWorldToLocalMatrix: the inverse of LocalToWorld, whenever it has one. */
    ghost function WorldToLocal(world: Mat4, norm: Normalizer): (n: Mat4)
      reads this
      requires upSet
      ensures Invertible(LocalToWorld(world, norm)) ==>
                Mul(LocalToWorld(world, norm), n) == Identity && Mul(n, LocalToWorld(world, norm)) == Identity
    {
      Inverse(LocalToWorld(world, norm))
    }

    /** The transform GetViewMatrix composes: the camera's local-to-world matrix, then this
        portal's world-to-local matrix, then a half turn about y, then the paired portal's
        local-to-world matrix. */
    ghost function ViewTransform(camera: Mat4, world: Mat4, otherWorld: Mat4, norm: Normalizer): Mat4
      reads this, otherPortal
      requires otherPortal != null && upSet && otherPortal.upSet
    {
      Mul(Mul(Mul(camera, WorldToLocal(world, norm)), RotationY180), otherPortal.LocalToWorld(otherWorld, norm))
    }

    /** GetViewMatrix, defined only while the portal is paired: a look-to view whose eye is
        row 4, whose look direction is row 3 and whose up is row 2 of ViewTransform. The
        virtual eye maps to the view origin. */
    ghost function ViewMatrix(camera: Mat4, world: Mat4, otherWorld: Mat4, norm: Normalizer): (v: Mat4)
      reads this, otherPortal
      requires otherPortal != null && upSet && otherPortal.upSet
      ensures RowTimes(Point(Xyz(ViewTransform(camera, world, otherWorld, norm).r4)), v) == Vec4(0.0, 0.0, 0.0, 1.0)
    {
      var t := ViewTransform(camera, world, otherWorld, norm);
      LookToLH(Xyz(t.r4), Xyz(t.r3), Xyz(t.r2), norm)
    }
  }

  /** The basis of LocalToWorld depends on the look-at, up and scale fields only: two
      base world matrices (whatever rotation built them) give the same upper 3x3. */
  lemma BasisIgnoresBaseMatrix(p: Portal, w1: Mat4, w2: Mat4, norm: Normalizer)
    requires p.upSet
    ensures var (m1, m2) := (p.LocalToWorld(w1, norm), p.LocalToWorld(w2, norm));
            Xyz(m1.r1) == Xyz(m2.r1) && Xyz(m1.r2) == Xyz(m2.r2) && Xyz(m1.r3) == Xyz(m2.r3)
  {
  }

  /** A portal placed the way the portal manager places one: a non-zero look-at (the
      wall normal) and a non-zero up vector perpendicular to it, and a non-zero scale. */
  ghost predicate Placed(p: Portal)
    reads p
  {
    && p.upSet && p.lookAt != Zero && p.up != Zero && Dot(p.up, p.lookAt) == 0.0
    && p.scale.x != 0.0 && p.scale.y != 0.0 && p.scale.z != 0.0
  }

  lemma NormalizedPerpendicular(norm: Normalizer, u: Vec3, f: Vec3)
    requires IsNormalizer(norm) && u != Zero && f != Zero && Dot(u, f) == 0.0
    ensures IsUnit(norm(u)) && IsUnit(norm(f)) && Dot(norm(u), norm(f)) == 0.0
  {
    var ku := NormalizerFactor(norm, u);
    var kf := NormalizerFactor(norm, f);
    NormalizeKeepsOrthogonal(norm, u, f);
    DotScaleRight(norm(u), kf, f);
  }

  /** The local-to-world matrix of a placed portal over a scale-rotate-translate world
      matrix is invertible: its basis is orthonormal, and FrameInverse (the transposed
      basis over the scales, with the translation taken back) is its inverse. So
      WorldToLocal is a genuine two-sided inverse for every placed portal. */
  lemma LocalToWorldInvertible(p: Portal, world: Mat4, norm: Normalizer)
    requires IsNormalizer(norm) && Placed(p) && AffineColumn(world)
    ensures var m := p.LocalToWorld(world, norm);
            var (y, z) := (norm(p.up), norm(p.lookAt));
            && IsInverse(m, FrameInverse(Cross(y, z), y, z,
                                         Vec3(1.0 / p.scale.x, 1.0 / p.scale.y, 1.0 / p.scale.z), Xyz(m.r4)))
            && Invertible(m)
  {
    var m := p.LocalToWorld(world, norm);
    var (y, z) := (norm(p.up), norm(p.lookAt));
    NormalizedPerpendicular(norm, p.up, p.lookAt);
    CrossCompletes(y, z);
    var q := Vec3(1.0 / p.scale.x, 1.0 / p.scale.y, 1.0 / p.scale.z);
    assert Reciprocals(p.scale, q);
    FrameInvertible(m, Cross(y, z), y, z, p.scale, q);
  }

  lemma PlacedInvertible(p: Portal, world: Mat4, norm: Normalizer)
    requires IsNormalizer(norm) && Placed(p) && AffineColumn(world)
    ensures Invertible(p.LocalToWorld(world, norm))
  {
    LocalToWorldInvertible(p, world, norm);
  }

  /** A camera standing exactly in this portal's frame sees through it from the paired
      portal's frame turned half about its up axis: the virtual eye is the partner's
      translation, the virtual look direction is the partner's forward row reversed,
      and the virtual up is the partner's up row. This holds whenever the portal's
      local-to-world matrix is invertible ... */
  lemma CameraAtInvertiblePortal(p: Portal, world: Mat4, otherWorld: Mat4, norm: Normalizer)
    requires p.otherPortal != null && p.upSet && p.otherPortal.upSet
    requires Invertible(p.LocalToWorld(world, norm))
    ensures var t := p.ViewTransform(p.LocalToWorld(world, norm), world, otherWorld, norm);
            var b := p.otherPortal.LocalToWorld(otherWorld, norm);
            && Xyz(t.r4) == Xyz(otherWorld.r4)
            && Xyz(t.r3) == Scale(-1.0, Xyz(b.r3))
            && Xyz(t.r2) == Xyz(b.r2)
  {
    HalfTurnRows(p.LocalToWorld(world, norm), p.WorldToLocal(world, norm), p.otherPortal.LocalToWorld(otherWorld, norm));
  }

  /** ... and so for every placed portal. */
  lemma CameraAtPortalSeesFromPartner(p: Portal, world: Mat4, otherWorld: Mat4, norm: Normalizer)
    requires p.otherPortal != null && p.otherPortal.upSet
    requires IsNormalizer(norm) && Placed(p) && AffineColumn(world)
    ensures var t := p.ViewTransform(p.LocalToWorld(world, norm), world, otherWorld, norm);
            var b := p.otherPortal.LocalToWorld(otherWorld, norm);
            && Xyz(t.r4) == Xyz(otherWorld.r4)
            && Xyz(t.r3) == Scale(-1.0, Xyz(b.r3))
            && Xyz(t.r2) == Xyz(b.r2)
  {
    PlacedInvertible(p, world, norm);
    CameraAtInvertiblePortal(p, world, otherWorld, norm);
  }

  /** The view GetViewMatrix builds looks along the virtual forward direction: that
      direction has view coordinates (0, 0, d) with d > 0. */
  lemma ViewLooksAlongVirtualForward(p: Portal, camera: Mat4, world: Mat4, otherWorld: Mat4, norm: Normalizer)
    requires p.otherPortal != null && p.upSet && p.otherPortal.upSet && IsNormalizer(norm)
    requires Xyz(p.ViewTransform(camera, world, otherWorld, norm).r3) != Zero
    ensures var f := Xyz(p.ViewTransform(camera, world, otherWorld, norm).r3);
            var d := RowTimes(Vec4(f.x, f.y, f.z, 0.0), p.ViewMatrix(camera, world, otherWorld, norm));
            d.x == 0.0 && d.y == 0.0 && d.z > 0.0
  {
    var t := p.ViewTransform(camera, world, otherWorld, norm);
    LookToForwardIsViewZ(Xyz(t.r4), Xyz(t.r3), Xyz(t.r2), norm);
  }

  /** The view GetViewMatrix builds keeps the virtual up upright: the virtual up has no
      sideways view component and does not point down in view coordinates. */
  lemma ViewKeepsVirtualUpUpright(p: Portal, camera: Mat4, world: Mat4, otherWorld: Mat4, norm: Normalizer)
    requires p.otherPortal != null && p.upSet && p.otherPortal.upSet && IsNormalizer(norm)
    ensures var u := Xyz(p.ViewTransform(camera, world, otherWorld, norm).r2);
            var d := RowTimes(Vec4(u.x, u.y, u.z, 0.0), p.ViewMatrix(camera, world, otherWorld, norm));
            d.x == 0.0 && d.y >= 0.0
  {
    var t := p.ViewTransform(camera, world, otherWorld, norm);
    LookToUpIsViewUp(Xyz(t.r4), Xyz(t.r3), Xyz(t.r2), norm);
  }
}
