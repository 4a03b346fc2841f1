# Instanced hand and scrolling grid — a Dafny model

This project models the parts of a three.js demo (`script.js`) that have logic of their own:

- **The phalanx list.** `createFinger` pushes a root scene object into the shared `phalanxes` array. It then builds a chain of two children (one for the thumb). Each child sits 3 units up, is scaled by 0.85, hangs under the object created just before it, and is pushed into the same array. Last, the root gets the finger's scale.
  - The model is an arena: a sequence of joint records. Each record names its parent by index in the list, or as an object outside the list (the palm base or the thumb mount).
  - World matrices are kept symbolic. A `Matrix` is the anchor object together with the chain of local transforms from the root down to the joint.
- **The instanced mesh.** It holds one matrix slot per list entry, allocated once. The initial fill writes every joint's world matrix into the slot with the same index.
- **The tween's update callback.** It writes one shared angle into every joint's x rotation. It then recomputes each world matrix, parents first, and writes slot i from joint i. Finally it flags the instance buffer for upload, once.
- **The grid.**
  - The per-vertex `moveable` flags are built four at a time as `1, 1, 0, 0`.
  - The vertex-shader patch wraps the z of flagged vertices with `mod((z - start) + time * speed, size) + start`, where `start = -size / 2`.
  - GLSL's `floor` and `mod` are modelled exactly over reals (`mod(x, y) = x - y * floor(x / y)`).

Modules and files:

| file | module | contents |
|---|---|---|
| `joints.dfy` | `Joints` | the joint record, symbolic matrices, world matrices, compounded scale and depth, one finger's joints |
| `phalanx_list.dfy` | `Phalanxes` | the `PhalanxList` class: the mutable list, the finger build and the per-joint updates |
| `instanced_mesh.dfy` | `Instancing` | the `InstancedMesh` class: a fixed slot array and the buffer version |
| `hand.dfy` | `Hand` | the five finger builds, mounting and placement, the allocation, the fill and the tween update |
| `grid.dfy` | `GridShader` | the flag loop and the shader's wrap arithmetic |

Two facts about the code are worth stating up front:

- **The list holds 14 joints.** `createFinger` pushes its root as well as the children, so each of the four regular fingers contributes 3 entries and the thumb 2. The thumb's mount `f5Base` is never pushed. `Hand.HandLayout` and `Hand.BuildHand` prove the count of 4 * 3 + 2 == 14 and that the mesh is allocated with exactly 14 slots.
- **The wrap is not continuous.** For a positive size it always lands in [-size/2, size/2), and it is periodic in `time * speed` with period `size`. But a vertex at the upper edge of the window is drawn at the lower edge (`GridShader.ScrollZSeam`). That jump is the seam of the infinite-scroll illusion, not a defect.

## Model

| member | source | states |
|---|---|---|
| Joints.ComposeScales | script.js:145-148 | composing a world matrix with a local transform multiplies its scale by that transform's scale, so a child's world scale is its parent's times its own |
| Joints.World | script.js:97-100 | joint i's world matrix is a composed (non-zero) matrix whose chain ends with joint i's own local transform |
| Joints.WorldMatchesScale | script.js:144-152 | the chain of joint i's world matrix holds one transform per joint from its root down to i (depth + 1), and the product of their scales is i's compounded scale |
| Joints.ChainTapers | script.js:144-152 | along a root followed by children of scale 0.85, each directly after its parent, the joint d steps below the root has depth d and compounded scale root scale * 0.85^d |
| Joints.AppendKeepsWorld | script.js:142-149 | appending joints to the list changes no earlier joint's world matrix |
| Joints.RotatedKeepsParents | script.js:111-112 | setting every rotation keeps every parent link and the parents-first order |
| Joints.RotatedKeepsTaper | script.js:111-113 | the curl leaves every joint's compounded scale and depth as they were |
| Joints.FingerShape | script.js:141-154 | one build appends 3 joints (2 for the thumb): first the root with Origin position, no rotation and the finger's scale, then each child under the joint just before it, at (0, 3, 0) with scale 0.85 |
| Joints.FingerKeepsParentsFirst | script.js:142-150 | a build on a parents-first list leaves it parents-first |
| Joints.FingerTapers | script.js:145-152 | in a finger just built, the joint k steps below the root has depth k and compounded scale scale * 0.85^k |
| Phalanxes.Attached | script.js:83-84 | mounting joint i changes only joint i: its parent becomes the mount and its local transform is kept |
| Phalanxes.Moved | script.js:86-89 | moving joint i changes only joint i's position |
| Phalanxes.PhalanxList.constructor | script.js:76 | the list starts empty |
| Phalanxes.PhalanxList.CreateFinger | script.js:141-154 | the list becomes the old list followed by the finger's joints; the root's index (the old length) is returned; each new object starts with the identity world matrix; the list stays parents-first |
| Phalanxes.PhalanxList.Attach | script.js:83-84 | the list becomes `Attached` of the old list; cached world matrices are untouched |
| Phalanxes.PhalanxList.SetPosition | script.js:86-89 | the list becomes `Moved` of the old list; cached world matrices are untouched |
| Phalanxes.PhalanxList.SetRotationX | script.js:112 | only joint i's x rotation changes |
| Phalanxes.PhalanxList.UpdateMatrixWorld | script.js:113 | only joint i's cached world matrix changes, to its parent's current world matrix composed with its local transform |
| Instancing.InstancedMesh.constructor | script.js:96 | a new mesh has exactly `count` slots, all zero, and buffer version 0 |
| Instancing.InstancedMesh.SetMatrixAt | script.js:114 | slot `index` gets the matrix; every other slot keeps its value; an index past the last slot writes nothing |
| Instancing.InstancedMesh.MarkNeedsUpdate | script.js:116 | the buffer version goes up by exactly one |
| Hand.PlacingGivesHand | script.js:83-89 | after the five builds, mounting the thumb root on its mount and the other four on the palm base, then placing the four finger roots, yields exactly the finished hand list |
| Hand.HandLayout | script.js:77-84 | the finished list has 4 * 3 + 2 == 14 joints and is parents-first; every third entry is a finger root with that finger's mount, position and scale; every other entry is a child directly after its parent; only the thumb root hangs on the thumb mount |
| Hand.HandTapers | script.js:77-82 | in the finished hand the joint k steps below finger f's root has depth k and compounded scale scale_f * 0.85^k |
| Hand.FillInstances | script.js:97-100 | after the fill, every joint caches its true world matrix and every slot i below the list length holds joint i's world matrix; other slots and the joints are unchanged |
| Hand.TweenUpdate | script.js:110-116 | every joint's x rotation equals the tween value, and nothing else in the list changes; every joint caches its new world matrix and slot i holds it; other slots are unchanged; the buffer version goes up by exactly one |
| Hand.AssembleHand | script.js:76-89 | the five builds, mounts and placements produce exactly the finished hand list, parents-first |
| Hand.BuildHand | script.js:76-100 | startup yields the 14-joint hand, a fresh mesh with exactly 14 slots, every slot holding its joint's world matrix, and buffer version 0 |
| GridShader.BuildMoveable | script.js:26-29 | the flag array has 4 * ceil(n / 4) entries for n vertices (n when 4 divides n, never fewer than n and fewer than n + 4), and entry k is 1 exactly when k mod 4 is 0 or 1, else 0 |
| GridShader.FlaggedIff | script.js:51 | the shader's test `floor(moveable + 0.1) > 0.5` holds exactly when moveable >= 0.9 |
| GridShader.GlslMod | script.js:53 | for a positive modulus, GLSL's mod lies in [0, y) |
| GridShader.ScrollZ | script.js:52-54 | for a positive size, the wrapped z lies in [-size/2, size/2) |
| GridShader.DisplacedZ | script.js:51-55 | an unflagged vertex keeps its z; a flagged one lands in [-size/2, size/2) |
| GridShader.ScrollZKeepsInWindow | script.js:52-54 | with time * speed == 0, a z already in the window is left unchanged |
| GridShader.ScrollZPeriodic | script.js:53 | adding any whole number of sizes to time * speed leaves the wrapped z unchanged |
| GridShader.ScrollZSeam | script.js:52-54 | with time * speed == 0, z = size/2 is drawn at -size/2 (the wrap jumps there) |
| GridShader.ScrollZExample | script.js:33-35 | with the initial uniforms (speed 1, size 20), z = 9 at time 2 is drawn at -9 |
| GridShader.GridVertexZ | script.js:28 | vertex k scrolls exactly when k mod 4 is 0 or 1; every other vertex keeps its z whatever the time |

## Left out

- Renderer, scene, camera, orbit controls and the resize handler (script.js:5-18, 103, 132-139): rendering and input plumbing, with no logic of their own.
- The frame loop (script.js:122-130): it writes the clock into the `time` uniform and rotates the palm with `Math.sin`. The model takes `time` as a parameter instead.
- The tween engine's easing, repeat, yoyo and scheduling (script.js:105-109, 118): library internals. The model takes the callback's value as a parameter, with any real value allowed, so the range [0.075π, 0.45π] is not modelled.
- `createPhalanxGeom`, the palm outline and `generateCubeMap` (script.js:65-74, 94, 156-205): floating-point geometry, canvas drawing and `Math.random`.
- The matrix arithmetic of three.js: world matrices are symbolic products.
  - The palm base and the thumb mount `f5Base` appear only as anchors, so the mount's own position, rotation and `updateMatrixWorld` call (script.js:90-92) are not modelled.
  - That `f5Base` hangs under the palm base is not modelled either.
- The string splicing in `onBeforeCompile`, the Float32 attribute upload and the `console.log` calls (script.js:25, 30-31, 37-58): only the wrap's arithmetic is modelled. It uses exact reals, not 32-bit GLSL floats.
- Phalanxes.PhalanxList.UpdateMatrixWorld: three.js also refreshes every descendant of the joint. The model refreshes only the joint itself. Both loops visit every joint parents-first, so each descendant is recomputed later in the same pass. The final cached matrices and slots are therefore the same, but a descendant's intermediate cached value is not.
- Phalanxes.PhalanxList.CreateFinger: the source receives the root object from its caller (always a new object). The model creates the root inside the method.
