# PortalClone player and portal core, in Dafny

This project models the core of the DX11Base portal game: the player controller and the
portal pair it moves through.

**The player** (`Players.Player`) does the following:
- It runs one frame of `Update`: WASD movement relative to the camera, jumping, gravity
  clamped at a terminal speed, a position step, and the collision pass against the cube
  and the stage.
- While an entrance portal is set, the collision pass skips the two walls the portals sit
  on.
- A vertical collision offset means landing.
- The virtual up vector eases back to world up.
- The mouse buttons fire the blue or the orange portal along the camera ray.
- It swaps to the far side of a portal.
- It builds the world matrices the player is drawn with.

**A portal** (`Portals.Portal`) holds its look-at, up and colour fields. It derives three
matrices from them:
- a local-to-world matrix whose basis is built from those vectors;
- its inverse;
- the view matrix of the virtual camera that looks out of the paired portal.

Vectors and matrices are exact `real`s in DirectXMath's row-vector convention (module
`Geometry`): a point `p` is transformed as `p * M`, rows 1-3 are the scaled axes and
row 4 is the translation.

`XMVector3Normalize` is a parameter `norm`. The predicate `IsNormalizer` states what is
assumed of it:
- zero stays zero;
- any other vector becomes a unit vector that is a positive multiple of it.

`XMMatrixInverse` is a choice function over two-sided inverses.

Module `Frames` proves, once and for all, that a scaled orthonormal frame with a
translation is invertible, and gives its inverse explicitly.

The collaborators the source reaches through globals arrive as inputs:
- the input keys;
- the main camera's vectors and debug flag;
- the collision routines' answers for each collider;
- the portal ids;
- the base world matrix `GameObject::GetWorldMatrix`.

A shot does not call the portal registry. It returns the request it would make.

`SwapPosition` follows the code: the player's velocity is not re-based into the exit
portal's frame. The assignment that would do so is commented out at
DX11Base/player.cpp:233, and the vector it would assign is computed and dropped.

## Model

| member | source | states |
|---|---|---|
| Players.Player.Awake | DX11Base/player.cpp:17-40 | A new player stands at the origin with scale 0.06 and move speed 0.3. Its virtual up is world up. It is at rest, not jumping, not on the title screen, and has no entrance portal. |
| Players.Player.Update | DX11Base/player.cpp:52-126 | One frame changes only position, velocity, jump flag and virtual up. The new state and the portal request are exactly `FrameStep` of the old state. On the title screen nothing changes. |
| Players.FrameStep | DX11Base/player.cpp:60-125 | On the title screen the body is unchanged and no portal is requested. Otherwise the position is the airborne position plus the collision offset. The vertical speed is never below -1. A non-zero vertical offset zeroes it and clears the jump flag; a zero one leaves the airborne velocity and flag. The airborne position is the old position plus the new velocity. The horizontal velocity is the move step. The vertical velocity is the old one, plus 1.4 if a jump starts, then lowered by gravity and clamped at -1 (`Fall`). The jump flag is set if the player was jumping or pressed jump. The virtual up decays one step. The request is the shot for the frame. |
| Players.Player.Movement | DX11Base/player.cpp:240-264 | Only the velocity changes. Its x and z become the move speed times the normalised camera-relative WASD direction, with the camera vectors flattened. Its y is kept. |
| Players.MoveDirection | DX11Base/player.cpp:242-256 | The WASD direction built from the flattened camera vectors has no vertical component. |
| Players.NoKeysNoDrift | DX11Base/player.cpp:248-263 | With no movement key held the horizontal velocity becomes zero and the vertical one is kept. |
| Players.HorizontalSpeedIsMoveSpeed | DX11Base/player.cpp:258-263 | Whenever the keys give a direction, the horizontal speed is exactly the move speed, whatever keys are held and however the camera is pitched. |
| Players.Player.Jump | DX11Base/player.cpp:266-274 | A jump starts only when not already jumping and the jump key is triggered. It adds 1.4 to the vertical velocity and sets the jump flag. Otherwise nothing changes. |
| Players.Fall | DX11Base/player.cpp:77-81 | Gravity lowers the vertical speed by 0.098, with -1 as the floor. The result is never below -1, and it is exactly one gravity step lower unless that would pass -1, in which case it is -1. |
| Players.Player.CollisionOffset | DX11Base/player.cpp:85-105 | The loop's total offset is the cube's offset plus the offsets of the stage colliders not skipped, in list order. |
| Players.StageOverlapAppend | DX11Base/player.cpp:93-105 | The collision sum over two runs of colliders is the sum of the two runs' sums. |
| Players.NoEntranceCountsAll | DX11Base/player.cpp:97-102 | Without an entrance portal no collider is skipped: the sum is the plain total of every collider's offset. |
| Players.SkippedColliderIgnored | DX11Base/player.cpp:97-102 | While an entrance portal is set, the offset of the blue or orange portal's wall has no effect on the sum, whatever it is. |
| Players.CountedColliderShifts | DX11Base/player.cpp:93-105 | Changing the offset of a collider that is not skipped moves the sum by exactly that change. |
| Players.DecayUp | DX11Base/player.cpp:118-119 | One easing step shrinks the squared distance of the virtual up to world up by the factor 0.94². A tilted vector never becomes world up exactly, and world up stays world up. |
| Players.FirstHit | DX11Base/player.cpp:290-297 | None exactly when the ray misses every collider. Otherwise the index of a hit collider that every earlier collider misses. |
| Players.FirstHitAt | DX11Base/player.cpp:290-297 | A hit at i with misses at every earlier index makes i the first hit. |
| Players.Fire | DX11Base/player.cpp:276-298 | In camera debug mode no portal is requested. Otherwise a portal is requested exactly when the ray hits some collider. The request is placed at the hit point, normal and up of the first collider hit, and carries that collider's id and the requested kind. |
| Players.Shot | DX11Base/player.cpp:121-125 | A left trigger fires the blue portal and takes priority over the right trigger. Only without a left trigger does a right trigger fire the orange portal. Without either trigger no portal is requested. |
| Players.Player.ShootPortal | DX11Base/player.cpp:276-298 | The loop's request equals `Fire`: the debug early return, then the first hit in list order, with the loop stopping there. |
| Players.Player.SwapPosition | DX11Base/player.cpp:225-233 | Only position and virtual up change. They become the cloned position and the cloned up. The velocity is kept. |
| Players.Player.ClonedWorldMatrix | DX11Base/player.cpp:330-368 | Without an entrance portal the result is the identity and nothing is recorded. While crossing, the method records the cloned position (row 4) and forward (row 3) of the orientation matrix, and the cloned up (row 2) of the player-world matrix. It returns that world matrix with each axis row scaled by the player's scale. |
| Players.Player.WorldMatrix | DX11Base/player.cpp:370-397 | Row 1 is the normalised camera right vector times scale x. Row 2 is the normalised virtual up times scale y, so the drawn player leans with the virtual up. Row 3 is the normalised cross product of those two times scale z. The translation row and the fourth column are those of the base world matrix. |
| Players.WorldMatrixForwardOrthogonal | DX11Base/player.cpp:377-394 | The forward row (the normalised cross product of right and virtual up) is orthogonal to the right row and the up row. |
| Players.Player.AdjustedWorldMatrix | DX11Base/player.cpp:300-328 | Row 1 is the normalised camera right vector times scale x, so the drawn player faces the camera. Row 3 is the normalised right × world up times scale z. Row 2 is row 3's axis × row 1's axis, times scale y. The translation row and the fourth column are those of the base world matrix. |
| Players.AdjustedBasisUpright | DX11Base/player.cpp:307-325 | The adjusted forward row is level and the up row never points downwards (for a non-negative y scale). The three rows are mutually orthogonal. |
| Portals.Portal.Awake | DX11Base/portal.cpp:11-27 | A new portal has zero position and rotation, scale 2, looks along -z and is unpaired. Its up vector is unset. |
| Portals.Portal.SetLookAt | DX11Base/portal.h:18 | Only the look-at field changes, to the given vector. |
| Portals.Portal.SetUp | DX11Base/portal.h:19 | Only the up field changes, to the given vector, and from then on it is set. |
| Portals.Portal.SetColor | DX11Base/portal.h:20 | Only the colour field changes, to the given colour. |
| Portals.Portal.LocalToWorld | DX11Base/portal.cpp:92-121 | Row 2 is the normalised up and row 3 the normalised forward (the look-at); row 1 is their cross product, not renormalised. Each row is scaled by the matching scale. The translation row and the fourth column come from the base world matrix. The right row is orthogonal to the up and forward rows for every input. |
| Portals.BasisIgnoresBaseMatrix | DX11Base/portal.cpp:101-118 | The basis depends only on the look-at, up and scale fields, never on the base world matrix. |
| Portals.Portal.WorldToLocal | DX11Base/portal.cpp:123-126 | Whenever the local-to-world matrix is invertible, the result is its two-sided inverse. |
| Portals.LocalToWorldInvertible | DX11Base/portal.cpp:92-126 | For a placed portal over an affine base matrix, the local-to-world matrix is invertible. The inverse is given explicitly: the transposed basis divided by the scales, with the translation taken back. Placed means a non-zero look-at, a non-zero up perpendicular to it, and non-zero scales. |
| Portals.PlacedInvertible | DX11Base/portal.cpp:123-126 | The world-to-local matrix of a placed portal is a genuine inverse, because its local-to-world matrix is invertible. |
| Frames.CrossCompletes | DX11Base/portal.cpp:101-103 | For unit, perpendicular up and forward, (up × forward, up, forward) is orthonormal both by rows and by columns. |
| Frames.FrameInvertible | DX11Base/portal.cpp:110-118 | A matrix whose rows are an orthonormal frame scaled by non-zero factors, with the usual affine fourth column, is inverted on both sides by `FrameInverse`. |
| Portals.Portal.ViewMatrix | DX11Base/portal.cpp:63-85 | For a paired portal, the view maps the virtual eye (row 4 of camera · world-to-local · half turn · partner local-to-world) to the origin. |
| Portals.CameraAtInvertiblePortal | DX11Base/portal.cpp:70-81 | A camera standing exactly in this portal's frame sees the scene from the partner's frame turned half about its up axis. The virtual eye is the partner's translation, the virtual look direction is the partner's forward row reversed, and the virtual up is the partner's up row. |
| Portals.CameraAtPortalSeesFromPartner | DX11Base/portal.cpp:63-85 | The same holds for every placed portal, with no invertibility assumption. |
| Portals.ViewLooksAlongVirtualForward | DX11Base/portal.cpp:76-83 | The built view looks along the virtual forward direction: that direction has view coordinates (0, 0, d) with d > 0. |
| Portals.ViewKeepsVirtualUpUpright | DX11Base/portal.cpp:78-83 | The built view is not rolled away from the virtual up: that up has view x 0 and a non-negative view y. |
| Geometry.LookToUpIsViewUp | DX11Base/portal.cpp:83 | A look-to view maps its up vector to view x 0 and a non-negative view y. |
| Geometry.LookToForwardIsViewZ | DX11Base/portal.cpp:83 | A look-to view maps any non-zero look direction onto the positive view z axis. |

## Left out

- Drawing, shaders, render targets and ImGui are not part of this model. The draw pass calls `GetClonedWorldMatrix` while an entrance portal is set (DX11Base/player.cpp:191-193), and so refreshes the cloned position, forward and up that `SwapPosition` reads. The model has that call as `ClonedWorldMatrix`, but does not constrain when it runs relative to `SwapPosition`.
- `GameObject::Update`, which `Update` calls first, is not part of this model.
- The camera half of `SwapPosition` (DX11Base/player.cpp:236-237) is left out. `FPSCamera::Swap` is not part of this model.
- The velocity re-base vector computed in `SwapPosition` (DX11Base/player.cpp:230-232) is left out. It is computed and never used, because its assignment is commented out.
- `GameObject::GetWorldMatrix`, `Portal::GetPlayerOrientationMatrix` and `Portal::GetPlayerWorldMatrix` are not part of this model. Their results are inputs.
- The collision routines (`ObbObbCollision`, `ObbPolygonCollision`, `LinePolygonCollision`) are not part of this model. Their answers for each collider are inputs in a `Frame`.
- `PortalManager::CreatePortal` is not part of this model. A shot returns the request it would make.
- Keyboard and mouse input, and the camera's vectors and debug flag, are read from globals in the source. Here they are fields of a `Frame`.
- `XMVector3Normalize` is a parameter, constrained by `IsNormalizer` where a proof needs it. A square root is not computable in compiled Dafny.
- Single-precision floating point is not modelled: all arithmetic is exact. In particular, the exact easing of the virtual up approaches (0, 1, 0) without ever reaching it. In single precision, rounding can instead stall the easing at a fixed point next to (0, 1, 0), so the guard at DX11Base/player.cpp:118 may stay true for ever.
- `Lerp` (math.h) is not part of this model. It is assumed to compute a + t·(b − a), and the contraction stated for `DecayUp` rests on that form.
- `Player::m_entrancePortal` is a weak pointer in the source, and `lock()` finds it expired once the portal is replaced. The field `entrancePortal` stands for the result of that `lock()` at the time of each call.
- `XMMatrixInverse` of a singular matrix returns an unspecified value here.
- Portals.Portal.WorldToLocal: the inverse is stated two-sided, but its equality with the explicit `FrameInverse` (uniqueness of inverses) is not proved.
- Portals.Portal.ViewMatrix: requires the portal to be paired. On the unpaired path (DX11Base/portal.cpp:84-85) the source's function ends without returning a value, which is undefined behaviour in C++.
- Portals.Portal.LocalToWorld: requires the up vector to have been set. The source never initialises `m_up` (nor `m_color`), so reading it before `SetUp` is undefined.
- Players.Player.WorldMatrix: the contract states each basis row. Orthogonality is proved only for the forward row, in `WorldMatrixForwardOrthogonal`, because the camera right vector and the virtual up need not be perpendicular in the source either.
