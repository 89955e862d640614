/** The player controller of DX11Base/player.cpp: one frame of movement, jumping,
    gravity, collision and landing, the portal-firing ray search, the swap to the far
    side of a portal and the matrices the player is drawn with. Everything the source
    asks of collaborators (input, the main camera, the collision routines, the portal
    registry) arrives as a Frame value. */
module Players {
  import opened Geometry
  import Portals

  datatype Option<T> = None | Some(value: T)

  datatype PortalType = Blue | Orange

  /** The answer of Collision::LinePolygonCollision for one collider. */
  datatype RayHit = Miss | Hit(pos: Vec3, normal: Vec3, up: Vec3)

  /** What the collision routines report about one stage collider in a frame: its id,
      the offset ObbPolygonCollision returns for the player's box against it, and the
      answer of the camera ray test against it. */
  datatype ColliderProbe = ColliderProbe(id: int, overlap: Vec3, ray: RayHit)

  /** The arguments ShootPortal passes to PortalManager::CreatePortal. */
  datatype PortalRequest = PortalRequest(kind: PortalType, pos: Vec3, normal: Vec3, up: Vec3, colliderId: int)

  /** Everything Update reads from collaborators in one frame. */
  datatype Frame = Frame(
    keyW: bool, keyA: bool, keyS: bool, keyD: bool,  // key presses
    spaceTriggered: bool,                             // the jump key's trigger
    leftTriggered: bool, rightTriggered: bool,        // mouse button triggers
    camForward: Vec3, camRight: Vec3,                 // the main camera's vectors
    camDebug: bool,                                   // the camera's debug mode
    cubeOverlap: Vec3,                                // box-vs-box offset against the cube
    stage: seq<ColliderProbe>,                        // the stage colliders, in list order
    blueColliderId: int, orangeColliderId: int)       // walls the two portals sit on

  const Gravity: real := 0.098
  const JumpSpeed: real := 1.4
  const TerminalVelocity: real := -1.0
  const UpDecay: real := 0.06

  /** The part of the player's state one frame of Update may change. */
  datatype Body = Body(position: Vec3, velocity: Vec3, isJumping: bool, virtualUp: Vec3)

  // ---------------------------------------------------------------------------
  // Movement and jumping

  /** The camera-relative move direction before normalising: W adds the camera's
      forward vector and S subtracts it, D adds the right vector and A subtracts it,
      both with their height zeroed. */
  function MoveDirection(f: Frame): (d: Vec3)
    ensures d.y == 0.0
  {
    var forward := f.camForward.(y := 0.0);
    var right := f.camRight.(y := 0.0);
    var d1 := if f.keyW then forward else Zero;
    var d2 := if f.keyA then Sub(d1, right) else d1;
    var d3 := if f.keyS then Sub(d2, forward) else d2;
    if f.keyD then Add(d3, right) else d3
  }

  /** The velocity after Movement: the horizontal part is the normalised move direction
      times the move speed; the vertical part is kept. */
  function Moved(v: Vec3, f: Frame, speed: real, norm: Normalizer): Vec3
  {
    var step := Scale(speed, norm(MoveDirection(f)));
    Vec3(step.x, v.y, step.z)
  }

  /** The state after Jump. */
  function Jumped(b: Body, space: bool): Body
  {
    if !b.isJumping && space then
      b.(isJumping := true, velocity := b.velocity.(y := b.velocity.y + JumpSpeed))
    else b
  }

  /** The vertical speed after gravity and the clamp: never below the terminal speed,
      and exactly one gravity step lower unless that would pass it. */
  function Fall(vy: real): (r: real)
    ensures r >= TerminalVelocity
    ensures r == vy - Gravity || (r == TerminalVelocity && vy - Gravity < TerminalVelocity)
  {
    var v := vy - Gravity;
    if v < TerminalVelocity then TerminalVelocity else v
  }

  /** The state once movement, jump, gravity and the position step have run. */
  function Airborne(b: Body, f: Frame, speed: real, norm: Normalizer): Body
  {
    var j := Jumped(b.(velocity := Moved(b.velocity, f, speed, norm)), f.spaceTriggered);
    var v := j.velocity.(y := Fall(j.velocity.y));
    j.(velocity := v, position := Add(j.position, v))
  }

  // ---------------------------------------------------------------------------
  // Collision

  /** Whether the collision pass ignores collider `id`: only while an entrance portal
      is set, and then exactly the walls the blue and the orange portal are attached to. */
  predicate Skipped(hasEntrance: bool, id: int, blueId: int, orangeId: int)
  {
    hasEntrance && (id == blueId || id == orangeId)
  }

  /** The sum of the offsets of the stage colliders that are not skipped. */
  function StageOverlap(stage: seq<ColliderProbe>, hasEntrance: bool, blueId: int, orangeId: int): Vec3
  {
    if stage == [] then Zero
    else
      var last := stage[|stage| - 1];
      var rest := StageOverlap(stage[..|stage| - 1], hasEntrance, blueId, orangeId);
      if Skipped(hasEntrance, last.id, blueId, orangeId) then rest else Add(rest, last.overlap)
  }

  /** The sum of all the offsets, front to back. */
  function TotalOverlap(stage: seq<ColliderProbe>): Vec3
  {
    if stage == [] then Zero else Add(stage[0].overlap, TotalOverlap(stage[1..]))
  }

  /** The offset the collision pass applies: the cube's plus the stage's. */
  function CollisionSum(f: Frame, hasEntrance: bool): Vec3
  {
    Add(f.cubeOverlap, StageOverlap(f.stage, hasEntrance, f.blueColliderId, f.orangeColliderId))
  }

  /** The collision offset is applied to the position once; a non-zero vertical offset
      means the player stands on something, so it stops falling and may jump again. */
  function Settle(b: Body, offset: Vec3): Body
  {
    var moved := b.(position := Add(b.position, offset));
    if offset.y != 0.0 then moved.(velocity := moved.velocity.(y := 0.0), isJumping := false) else moved
  }

  /** One step of easing the virtual up vector back to world up. Each step shrinks the
      squared distance to world up by the factor (1 - 0.06)^2, and a tilted vector is
      never exactly restored. */
  function DecayUp(u: Vec3): (r: Vec3)
    ensures SqDist(r, WorldUp) == (1.0 - UpDecay) * (1.0 - UpDecay) * SqDist(u, WorldUp)
    ensures u != WorldUp ==> r != WorldUp
    ensures u == WorldUp ==> r == u
  {
    if u != WorldUp then Lerp(u, WorldUp, UpDecay) else u
  }

  // ---------------------------------------------------------------------------
  // Firing portals

  /** The first collider in list order that the camera ray hits. */
  function FirstHit(stage: seq<ColliderProbe>): (r: Option<nat>)
    ensures r.None? <==> forall j :: 0 <= j < |stage| ==> stage[j].ray.Miss?
    ensures r.Some? ==> r.value < |stage| && stage[r.value].ray.Hit?
                        && forall j :: 0 <= j < r.value ==> stage[j].ray.Miss?
  {
    if stage == [] then None
    else if stage[0].ray.Hit? then Some(0)
    else match FirstHit(stage[1..])
      case None => None
      case Some(i) => Some(i + 1)
  }

  function RequestAt(kind: PortalType, c: ColliderProbe): PortalRequest
    requires c.ray.Hit?
  {
    PortalRequest(kind, c.ray.pos, c.ray.normal, c.ray.up, c.id)
  }

  /** What ShootPortal asks of the portal registry. Nothing in camera debug mode and
      nothing when the ray hits no collider; otherwise one portal, placed where the ray
      hits the first collider it hits, on that collider. */
  function Fire(kind: PortalType, camDebug: bool, stage: seq<ColliderProbe>): (r: Option<PortalRequest>)
    ensures camDebug ==> r.None?
    ensures r.Some? ==> r.value.kind == kind
    ensures !camDebug ==> (r.Some? <==> exists j :: 0 <= j < |stage| && stage[j].ray.Hit?)
    ensures r.Some? ==> exists i :: 0 <= i < |stage| && stage[i].ray.Hit? && r.value == RequestAt(kind, stage[i])
                                    && forall j :: 0 <= j < i ==> stage[j].ray.Miss?
  {
    if camDebug then None
    else match FirstHit(stage)
      case None => None
      case Some(i) => Some(RequestAt(kind, stage[i]))
  }

  /** The firing step of Update: the left button fires the blue portal, and only when it
      is not triggered does the right button fire the orange one. */
  function Shot(f: Frame): (r: Option<PortalRequest>)
    ensures f.leftTriggered ==> r == Fire(Blue, f.camDebug, f.stage) && (r.Some? ==> r.value.kind == Blue)
    ensures !f.leftTriggered && f.rightTriggered ==>
              r == Fire(Orange, f.camDebug, f.stage) && (r.Some? ==> r.value.kind == Orange)
    ensures !f.leftTriggered && !f.rightTriggered ==> r.None?
  {
    if f.leftTriggered then Fire(Blue, f.camDebug, f.stage)
    else if f.rightTriggered then Fire(Orange, f.camDebug, f.stage)
    else None
  }

  // ---------------------------------------------------------------------------
  // One frame

  /** One call of Update: the new body and the portal request it makes. */
  function FrameStep(b: Body, titleDisplay: bool, hasEntrance: bool, speed: real, f: Frame, norm: Normalizer)
    : (r: (Body, Option<PortalRequest>))
    ensures titleDisplay ==> r == (b, None)
    ensures !titleDisplay ==>
              var a := Airborne(b, f, speed, norm);
              var offset := CollisionSum(f, hasEntrance);
              && r.0.position == Add(a.position, offset)
              && r.0.velocity.y >= TerminalVelocity
              && r.0.velocity.x == a.velocity.x && r.0.velocity.z == a.velocity.z
              && (offset.y != 0.0 ==> r.0.velocity.y == 0.0 && !r.0.isJumping)
              && (offset.y == 0.0 ==> r.0.velocity == a.velocity && r.0.isJumping == a.isJumping)
              && a.position == Add(b.position, a.velocity)
              && a.velocity.x == Moved(b.velocity, f, speed, norm).x
              && a.velocity.z == Moved(b.velocity, f, speed, norm).z
              && a.velocity.y == Fall(if !b.isJumping && f.spaceTriggered then b.velocity.y + JumpSpeed
                                      else b.velocity.y)
              && a.isJumping == (b.isJumping || f.spaceTriggered)
              && r.0.virtualUp == DecayUp(b.virtualUp)
              && r.1 == Shot(f)
  {
    if titleDisplay then (b, None)
    else
      var s := Settle(Airborne(b, f, speed, norm), CollisionSum(f, hasEntrance));
      (s.(virtualUp := DecayUp(s.virtualUp)), Shot(f))
  }

  // ---------------------------------------------------------------------------
  // The player object

  class Player {
    // GameObject transform
    var position: Vec3
    var rotation: Vec3
    var scale: Vec3
    // controller state
    var velocity: Vec3
    var isJumping: bool
    var titleDisplay: bool
    var moveSpeed: real
    var virtualUp: Vec3
    /** The portal the player is passing through; null when not crossing. */
    var entrancePortal: Portals.Portal?
    // where the player would stand on the far side, refreshed by ClonedWorldMatrix
    var clonedPos: Vec3
    var clonedForward: Vec3
    var clonedUp: Vec3

    /** Creation followed by Awake. */
    constructor Awake()
      ensures position == Zero && rotation == Zero && scale == Vec3(0.06, 0.06, 0.06)
      ensures virtualUp == WorldUp && moveSpeed == 0.3
      ensures !titleDisplay && !isJumping && velocity == Zero && entrancePortal == null
    {
      position := Zero;
      rotation := Zero;
      scale := Vec3(0.06, 0.06, 0.06);
      virtualUp := WorldUp;
      moveSpeed := 0.3;
      titleDisplay := false;
      isJumping := false;
      velocity := Zero;
      entrancePortal := null;
    }

    function State(): Body
      reads this
    {
      Body(position, velocity, isJumping, virtualUp)
    }

    method Movement(f: Frame, norm: Normalizer)
      modifies this`velocity
      ensures velocity == Moved(old(velocity), f, moveSpeed, norm)
      ensures velocity.y == old(velocity.y)
    {
      var step := Scale(moveSpeed, norm(MoveDirection(f)));
      velocity := velocity.(x := step.x);
      velocity := velocity.(z := step.z);
    }

    method Jump(spaceTriggered: bool)
      modifies this`velocity, this`isJumping
      ensures State() == Jumped(old(State()), spaceTriggered)
    {
      if !isJumping && spaceTriggered {
        isJumping := true;
        velocity := velocity.(y := velocity.y + JumpSpeed);
      }
    }

    /** The collision loop of Update: the cube's offset plus the offset of every stage
        collider that is not skipped. */
    method CollisionOffset(f: Frame) returns (intersection: Vec3)
      ensures intersection == CollisionSum(f, entrancePortal != null)
    {
      intersection := f.cubeOverlap;
      var i := 0;
      while i < |f.stage|
        invariant 0 <= i <= |f.stage|
        invariant intersection == Add(f.cubeOverlap, StageOverlap(f.stage[..i], entrancePortal != null,
                                                                  f.blueColliderId, f.orangeColliderId))
      {
        var col := f.stage[i];
        assert f.stage[..i + 1][..i] == f.stage[..i];
        if entrancePortal != null && (f.blueColliderId == col.id || f.orangeColliderId == col.id) {
          i := i + 1;
          continue;
        }
        intersection := Add(intersection, col.overlap);
        i := i + 1;
      }
      assert f.stage[..i] == f.stage;
    }

    /** ShootPortal: the request for the first collider the camera ray hits. */
    method ShootPortal(kind: PortalType, camDebug: bool, stage: seq<ColliderProbe>)
      returns (request: Option<PortalRequest>)
      ensures request == Fire(kind, camDebug, stage)
    {
      request := None;
      if camDebug {
        return;
      }
      var i := 0;
      while i < |stage|
        invariant 0 <= i <= |stage|
        invariant forall j :: 0 <= j < i ==> stage[j].ray.Miss?
      {
        if stage[i].ray.Hit? {
          request := Some(RequestAt(kind, stage[i]));
          FirstHitAt(stage, i);
          return;
        }
        i := i + 1;
      }
    }

    /** The first half of Update: movement, jump, gravity with the clamp, and the
        position step by the resulting velocity. */
    method Fly(f: Frame, norm: Normalizer)
      modifies this`position, this`velocity, this`isJumping
      ensures State() == Airborne(old(State()), f, moveSpeed, norm)
    {
      Movement(f, norm);
      Jump(f.spaceTriggered);
      velocity := velocity.(y := velocity.y - Gravity);
      if velocity.y < TerminalVelocity {
        velocity := velocity.(y := TerminalVelocity);
      }
      position := Add(position, velocity);
    }

    /** The landing step of Update: the collision offset moves the player, and a
        vertical offset stops the fall. */
    method Land(intersection: Vec3)
      modifies this`position, this`velocity, this`isJumping
      ensures State() == Settle(old(State()), intersection)
    {
      position := Add(position, intersection);
      if intersection.y != 0.0 {
        velocity := velocity.(y := 0.0);
        isJumping := false;
      }
    }

    /** Update: one frame of the controller. It leaves every field but the body alone. */
    method Update(f: Frame, norm: Normalizer) returns (request: Option<PortalRequest>)
      modifies this`position, this`velocity, this`isJumping, this`virtualUp
      ensures (State(), request)
                == FrameStep(old(State()), titleDisplay, entrancePortal != null, moveSpeed, f, norm)
    {
      request := None;
      if titleDisplay {
        return;
      }
      Fly(f, norm);
      ghost var flown := State();
      var intersection := CollisionOffset(f);
      Land(intersection);
      ghost var landed := State();
      assert landed == Settle(flown, CollisionSum(f, entrancePortal != null));
      if virtualUp != WorldUp {
        virtualUp := Lerp(virtualUp, WorldUp, UpDecay);
      }
      assert State() == landed.(virtualUp := DecayUp(landed.virtualUp));
      if f.leftTriggered {
        request := ShootPortal(Blue, f.camDebug, f.stage);
      } else if f.rightTriggered {
        request := ShootPortal(Orange, f.camDebug, f.stage);
      }
    }

    /** SwapPosition: the player moves to the cloned position and takes the cloned up
        vector as its virtual up; its velocity is kept. */
    method SwapPosition()
      modifies this`position, this`virtualUp
      ensures position == clonedPos && virtualUp == clonedUp
    {
      position := clonedPos;
      virtualUp := clonedUp;
    }

    /** GetClonedWorldMatrix. While crossing, it records the cloned position (row 4) and
        forward (row 3) of the entrance portal's orientation matrix for the player and the
        cloned up (row 2) of its world matrix for the player, and returns that world
        matrix with its axes scaled by the player's scale; otherwise it returns the
        identity and records nothing. The two portal matrices, computed by code that is
        not part of this model, are its inputs. */
    method ClonedWorldMatrix(orientation: Mat4, playerWorld: Mat4) returns (m: Mat4)
      modifies this`clonedPos, this`clonedForward, this`clonedUp
      ensures entrancePortal == null ==>
                m == Identity && clonedPos == old(clonedPos) && clonedForward == old(clonedForward)
                && clonedUp == old(clonedUp)
      ensures entrancePortal != null ==>
                && clonedPos == Xyz(orientation.r4) && clonedForward == Xyz(orientation.r3)
                && clonedUp == Xyz(playerWorld.r2)
                && m == WithScaledBasis(playerWorld, Xyz(playerWorld.r1), Xyz(playerWorld.r2),
                                        Xyz(playerWorld.r3), scale)
    {
      if entrancePortal != null {
        clonedPos := Xyz(orientation.r4);
        clonedForward := Xyz(orientation.r3);
        clonedUp := Xyz(playerWorld.r2);
        m := WithScaledBasis(playerWorld, Xyz(playerWorld.r1), Xyz(playerWorld.r2), Xyz(playerWorld.r3), scale);
      } else {
        m := Identity;
      }
    }

    /** GetWorldMatrix: the base world matrix with the basis right = the camera's right
        vector, up = the virtual up, forward = right x up (each normalised), scaled by
        the player's scale. */
    function WorldMatrix(base: Mat4, camRight: Vec3, norm: Normalizer): (m: Mat4)
      reads this
      ensures Xyz(m.r1) == Scale(scale.x, norm(camRight))
      ensures Xyz(m.r2) == Scale(scale.y, norm(virtualUp))
      ensures Xyz(m.r3) == Scale(scale.z, norm(Cross(norm(camRight), norm(virtualUp))))
      ensures m.r4 == base.r4 && m.r1.w == base.r1.w && m.r2.w == base.r2.w && m.r3.w == base.r3.w
    {
      var yaxis := norm(virtualUp);
      var xaxis := norm(camRight);
      var zaxis := norm(Cross(xaxis, yaxis));
      WithScaledBasis(base, xaxis, yaxis, zaxis, scale)
    }

    /** GetAdjustedWorldMatrix: the base world matrix with the basis right = the camera's
        right vector, forward = right x world up, up = forward x right, scaled by the
        player's scale. */
    function AdjustedWorldMatrix(base: Mat4, camRight: Vec3, norm: Normalizer): (m: Mat4)
      reads this
      ensures Xyz(m.r1) == Scale(scale.x, norm(camRight))
      ensures Xyz(m.r3) == Scale(scale.z, norm(Cross(norm(camRight), WorldUp)))
      ensures Xyz(m.r2) == Scale(scale.y, Cross(norm(Cross(norm(camRight), WorldUp)), norm(camRight)))
      ensures m.r4 == base.r4 && m.r1.w == base.r1.w && m.r2.w == base.r2.w && m.r3.w == base.r3.w
    {
      var xaxis := norm(camRight);
      var zaxis := norm(Cross(xaxis, WorldUp));
      var yaxis := Cross(zaxis, xaxis);
      WithScaledBasis(base, xaxis, yaxis, zaxis, scale)
    }
  }

  /** A hit at i with misses before it is the first hit. */
  lemma FirstHitAt(stage: seq<ColliderProbe>, i: nat)
    requires i < |stage| && stage[i].ray.Hit?
    requires forall j :: 0 <= j < i ==> stage[j].ray.Miss?
    ensures FirstHit(stage) == Some(i)
  {
    assert FirstHit(stage).Some?;
  }

  // ---------------------------------------------------------------------------
  // Properties of the collision sum

  /** The collision sum over two runs of colliders is the sum of the two sums. */
  lemma {:induction false} StageOverlapAppend(a: seq<ColliderProbe>, c: seq<ColliderProbe>,
                                              hasEntrance: bool, blueId: int, orangeId: int)
    ensures StageOverlap(a + c, hasEntrance, blueId, orangeId)
            == Add(StageOverlap(a, hasEntrance, blueId, orangeId), StageOverlap(c, hasEntrance, blueId, orangeId))
  {
    if c == [] {
      assert a + c == a;
    } else {
      var c' := c[..|c| - 1];
      assert (a + c)[..|a + c| - 1] == a + c';
      StageOverlapAppend(a, c', hasEntrance, blueId, orangeId);
    }
  }

  lemma {:induction false} TotalOverlapLast(s: seq<ColliderProbe>)
    requires s != []
    ensures TotalOverlap(s) == Add(TotalOverlap(s[..|s| - 1]), s[|s| - 1].overlap)
  {
    if |s| > 1 {
      TotalOverlapLast(s[1..]);
      assert s[1..][..|s[1..]| - 1] == s[..|s| - 1][1..];
    }
  }

  /** With no entrance portal nothing is skipped: every collider's offset is summed. */
  lemma {:induction false} NoEntranceCountsAll(stage: seq<ColliderProbe>, blueId: int, orangeId: int)
    ensures StageOverlap(stage, false, blueId, orangeId) == TotalOverlap(stage)
  {
    if stage != [] {
      NoEntranceCountsAll(stage[..|stage| - 1], blueId, orangeId);
      TotalOverlapLast(stage);
    }
  }

  /** A skipped collider's offset has no effect on the sum, whatever it is. */
  lemma {:induction false} SkippedColliderIgnored(stage: seq<ColliderProbe>, i: nat, v: Vec3,
                                                  hasEntrance: bool, blueId: int, orangeId: int)
    requires i < |stage| && Skipped(hasEntrance, stage[i].id, blueId, orangeId)
    ensures StageOverlap(stage[i := stage[i].(overlap := v)], hasEntrance, blueId, orangeId)
            == StageOverlap(stage, hasEntrance, blueId, orangeId)
  {
    var t := stage[i := stage[i].(overlap := v)];
    var n := |stage| - 1;
    if i == n {
      assert t[..n] == stage[..n];
    } else {
      assert t[..n] == stage[..n][i := stage[i].(overlap := v)];
      SkippedColliderIgnored(stage[..n], i, v, hasEntrance, blueId, orangeId);
    }
  }

  /** A collider that is not skipped moves the sum by exactly the change in its offset. */
  lemma {:induction false} CountedColliderShifts(stage: seq<ColliderProbe>, i: nat, v: Vec3,
                                                 hasEntrance: bool, blueId: int, orangeId: int)
    requires i < |stage| && !Skipped(hasEntrance, stage[i].id, blueId, orangeId)
    ensures StageOverlap(stage[i := stage[i].(overlap := v)], hasEntrance, blueId, orangeId)
            == Add(StageOverlap(stage, hasEntrance, blueId, orangeId), Sub(v, stage[i].overlap))
  {
    var t := stage[i := stage[i].(overlap := v)];
    var n := |stage| - 1;
    if i == n {
      assert t[..n] == stage[..n];
    } else {
      assert t[..n] == stage[..n][i := stage[i].(overlap := v)];
      CountedColliderShifts(stage[..n], i, v, hasEntrance, blueId, orangeId);
    }
  }

  // ---------------------------------------------------------------------------
  // Properties of movement

  /** With no movement key held the player has no horizontal velocity. */
  lemma NoKeysNoDrift(v: Vec3, f: Frame, speed: real, norm: Normalizer)
    requires IsNormalizer(norm) && !f.keyW && !f.keyA && !f.keyS && !f.keyD
    ensures var r := Moved(v, f, speed, norm); r.x == 0.0 && r.z == 0.0 && r.y == v.y
  {
    assert MoveDirection(f) == Zero;
  }

  lemma SquareSum(s: real, a: real, b: real)
    requires a * a + b * b == 1.0
    ensures (s * a) * (s * a) + (s * b) * (s * b) == s * s
  {
    assert (s * a) * (s * a) + (s * b) * (s * b) == s * s * (a * a + b * b);
  }

  /** Whenever the keys give a direction, the horizontal speed is exactly the move speed,
      whichever keys are held and however the camera is pitched. */
  lemma HorizontalSpeedIsMoveSpeed(v: Vec3, f: Frame, speed: real, norm: Normalizer)
    requires IsNormalizer(norm) && MoveDirection(f) != Zero
    ensures var r := Moved(v, f, speed, norm); r.x * r.x + r.z * r.z == speed * speed
  {
    var d := MoveDirection(f);
    var k := NormalizerFactor(norm, d);
    var n := norm(d);
    assert n.y == 0.0;
    assert n.x * n.x + n.z * n.z == 1.0;
    SquareSum(speed, n.x, n.z);
  }

  // ---------------------------------------------------------------------------
  // Properties of the player's matrices

  /** The forward row of GetWorldMatrix is orthogonal to its right and up rows. */
  lemma WorldMatrixForwardOrthogonal(p: Player, base: Mat4, camRight: Vec3, norm: Normalizer)
    requires IsNormalizer(norm)
    ensures var m := p.WorldMatrix(base, camRight, norm);
            Dot(Xyz(m.r3), Xyz(m.r1)) == 0.0 && Dot(Xyz(m.r3), Xyz(m.r2)) == 0.0
  {
    var x := norm(camRight);
    var y := norm(p.virtualUp);
    var c := Cross(x, y);
    NormalizeKeepsOrthogonal(norm, c, x);
    NormalizeKeepsOrthogonal(norm, c, y);
    ScaledOrthogonal(p.scale.z, norm(c), p.scale.x, x);
    ScaledOrthogonal(p.scale.z, norm(c), p.scale.y, y);
  }

  lemma NonNegativeSquares(k: real, a: real, b: real)
    requires k >= 0.0
    ensures k * a * a + k * b * b >= 0.0
  {
    assert a * a >= 0.0 && b * b >= 0.0;
    assert k * (a * a) >= 0.0 && k * (b * b) >= 0.0;
  }

  lemma NonNegativeProduct(a: real, b: real)
    requires a >= 0.0 && b >= 0.0
    ensures a * b >= 0.0
  {
  }

  /** The axes GetAdjustedWorldMatrix builds from a right vector x: forward is level
      and up has no downward component. */
  lemma AdjustedAxesUpright(x: Vec3, norm: Normalizer)
    requires IsNormalizer(norm)
    ensures var z := norm(Cross(x, WorldUp)); z.y == 0.0 && Cross(z, x).y >= 0.0
  {
    var c := Cross(x, WorldUp);
    assert c == Vec3(-x.z, 0.0, x.x);
    if c != Zero {
      var k := NormalizerFactor(norm, c);
      var z := norm(c);
      assert z == Vec3(-(k * x.z), 0.0, k * x.x);
      assert Cross(z, x).y == k * x.x * x.x + k * x.z * x.z;
      NonNegativeSquares(k, x.x, x.z);
    }
  }

  lemma ScaledBasisUpright(t: Mat4, x: Vec3, y: Vec3, z: Vec3, s: Vec3)
    requires z.y == 0.0 && y.y >= 0.0
    requires Dot(x, y) == 0.0 && Dot(y, z) == 0.0 && Dot(z, x) == 0.0
    ensures var m := WithScaledBasis(t, x, y, z, s);
            && m.r3.y == 0.0
            && (s.y >= 0.0 ==> m.r2.y >= 0.0)
            && Dot(Xyz(m.r1), Xyz(m.r2)) == 0.0 && Dot(Xyz(m.r2), Xyz(m.r3)) == 0.0
            && Dot(Xyz(m.r3), Xyz(m.r1)) == 0.0
  {
    if s.y >= 0.0 {
      NonNegativeProduct(s.y, y.y);
    }
    ScaledOrthogonal(s.x, x, s.y, y);
    ScaledOrthogonal(s.y, y, s.z, z);
    ScaledOrthogonal(s.z, z, s.x, x);
  }

  /** GetAdjustedWorldMatrix keeps the player upright: the forward row is horizontal,
      the up row never points downwards (for a non-negative scale), and the three rows
      are mutually orthogonal. */
  lemma AdjustedBasisUpright(p: Player, base: Mat4, camRight: Vec3, norm: Normalizer)
    requires IsNormalizer(norm)
    ensures var m := p.AdjustedWorldMatrix(base, camRight, norm);
            && m.r3.y == 0.0
            && (p.scale.y >= 0.0 ==> m.r2.y >= 0.0)
            && Dot(Xyz(m.r1), Xyz(m.r2)) == 0.0 && Dot(Xyz(m.r2), Xyz(m.r3)) == 0.0
            && Dot(Xyz(m.r3), Xyz(m.r1)) == 0.0
  {
    var x := norm(camRight);
    var c := Cross(x, WorldUp);
    var z := norm(c);
    var y := Cross(z, x);
    AdjustedAxesUpright(x, norm);
    NormalizeKeepsOrthogonal(norm, c, x);
    DotCommutes(x, y);
    ScaledBasisUpright(base, x, y, z, p.scale);
  }
}
