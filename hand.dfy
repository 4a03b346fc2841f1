/**
 * The hand: five finger builds into one shared list, one instanced mesh with a
 * slot per list entry, the initial fill of those slots, and the tween update
 * that curls every joint by one shared angle and refreshes every slot.
 */
module Hand {
  import opened Joints
  import opened Phalanxes
  import opened Instancing

  /** How each finger is built and where its root is placed afterwards. */
  datatype FingerSpec = FingerSpec(scale: real, isThumb: bool, mount: Mount, position: Vec3)

  /** Pinky, ring, middle, index, thumb, in build order. */
  const Fingers: seq<FingerSpec> := [
    FingerSpec(0.8, false, PalmBase, Vec3(-4.0, 0.2, 0.0)),
    FingerSpec(0.95, false, PalmBase, Vec3(-2.0, 0.2, 0.0)),
    FingerSpec(1.0, false, PalmBase, Vec3(0.0, 0.2, 0.0)),
    FingerSpec(0.95, false, PalmBase, Vec3(2.0, 0.2, 0.0)),
    FingerSpec(0.75, true, ThumbBase, Origin)
  ]

  /** A finger's joints once its root has been mounted and positioned. */
  function PlacedFinger(f: FingerSpec, start: nat): seq<Joint> {
    [Joint(Root(On(f.mount)), Local(f.position, 0.0, f.scale))] + Children(start, ChildCount(f.isThumb))
  }

  /** The list of the finished hand: four fingers of 3 joints, then the thumb's 2. */
  function HandJoints(): seq<Joint> {
    PlacedFinger(Fingers[0], 0) + PlacedFinger(Fingers[1], 3) + PlacedFinger(Fingers[2], 6) +
    PlacedFinger(Fingers[3], 9) + PlacedFinger(Fingers[4], 12)
  }

  /** The list right after the five finger builds, before any root is mounted or placed. */
  function BuiltFingers(): seq<Joint> {
    FingerJoints(0, Fingers[0].scale, Fingers[0].isThumb) +
    FingerJoints(3, Fingers[1].scale, Fingers[1].isThumb) +
    FingerJoints(6, Fingers[2].scale, Fingers[2].isThumb) +
    FingerJoints(9, Fingers[3].scale, Fingers[3].isThumb) +
    FingerJoints(12, Fingers[4].scale, Fingers[4].isThumb)
  }

  /**
   * Mounting the thumb root on its mount and the other four on the palm base,
   * then moving the four finger roots into place, turns the built list into
   * the finished hand.
   */
  lemma PlacingGivesHand()
    ensures
      var mounted := Attached(Attached(Attached(Attached(Attached(BuiltFingers(),
                       12, ThumbBase), 0, PalmBase), 3, PalmBase), 6, PalmBase), 9, PalmBase);
      Moved(Moved(Moved(Moved(mounted, 0, Fingers[0].position), 3, Fingers[1].position),
        6, Fingers[2].position), 9, Fingers[3].position) == HandJoints()
  {
  }

  /** Finger f's root sits at index 3 * f. */
  function FingerStart(f: nat): nat {
    3 * f
  }

  /**
   * The finished list holds 4 * 3 + 2 == 14 joints, parents first. Every third
   * entry, from index 0, is a finger root carrying that finger's mount,
   * position and scale; every other entry is a child segment directly after
   * its parent. The thumb root is the only joint on the thumb mount; the
   * mount itself is an anchor outside the list, never one of its entries.
   */
  lemma HandLayout()
    ensures |HandJoints()| == 4 * 3 + 2 == 14
    ensures ParentsFirst(HandJoints())
    ensures forall i :: 0 <= i < |HandJoints()| && i % 3 == 0 ==>
              HandJoints()[i] ==
                Joint(Root(On(Fingers[i / 3].mount)), Local(Fingers[i / 3].position, 0.0, Fingers[i / 3].scale))
    ensures forall i :: 0 <= i < |HandJoints()| && i % 3 != 0 ==>
              HandJoints()[i] == Joint(Under(i - 1), ChildLocal)
    ensures forall i :: 0 <= i < |HandJoints()| ==> (HandJoints()[i].parent == Root(On(ThumbBase)) <==> i == 12)
  {
    var h := HandJoints();
    forall i | 0 <= i < |h|
      ensures i % 3 == 0 ==>
                h[i] == Joint(Root(On(Fingers[i / 3].mount)), Local(Fingers[i / 3].position, 0.0, Fingers[i / 3].scale))
      ensures i % 3 != 0 ==> h[i] == Joint(Under(i - 1), ChildLocal)
    {
      var f := i / 3;
      assert h[i] == PlacedFinger(Fingers[f], FingerStart(f))[i % 3];
    }
  }

  /**
   * The taper of the finished hand: the joint k steps below finger f's root
   * has compounded scale scale_f * 0.85^k and depth k.
   */
  lemma HandTapers(f: nat, k: nat)
    requires f < |Fingers| && k <= ChildCount(Fingers[f].isThumb)
    ensures ParentsFirst(HandJoints())
    ensures WorldScale(HandJoints(), FingerStart(f) + k) == Fingers[f].scale * Pow(Decay, k)
    ensures Depth(HandJoints(), FingerStart(f) + k) == k
  {
    HandLayout();
    assert FingerStart(f) % 3 == 0 && FingerStart(f) / 3 == f;
    StrideTapers(HandJoints(), FingerStart(f), k);
  }

  /** In a list of 3-joint strides, the joint k steps below a stride's root tapers by 0.85^k. */
  lemma {:induction false} StrideTapers(js: seq<Joint>, s: nat, k: nat)
    requires ParentsFirst(js) && s % 3 == 0 && k <= 2 && s + k < |js|
    requires js[s].parent.Root?
    requires forall i :: 0 <= i < |js| && i % 3 != 0 ==> js[i] == Joint(Under(i - 1), ChildLocal)
    ensures WorldScale(js, s + k) == js[s].local.scale * Pow(Decay, k)
    ensures Depth(js, s + k) == k
  {
    forall j | s < j <= s + k
      ensures js[j].parent == Under(j - 1) && js[j].local.scale == Decay
    {
      StrideOffset(s / 3, j - s);
      assert j == 3 * (s / 3) + (j - s);
    }
    ChainTapers(js, s, k);
  }

  lemma StrideOffset(q: nat, m: nat)
    requires m < 3
    ensures (3 * q + m) % 3 == m
  {
  }

  /** Slot i holds joint i's world matrix, for every joint that has a slot. */
  ghost predicate SlotsHold(ph: PhalanxList, mesh: InstancedMesh)
    reads ph, mesh, mesh.instanceMatrix
    requires ph.Valid() && mesh.Valid()
  {
    forall i :: 0 <= i < mesh.count && i < |ph.joints| ==> mesh.instanceMatrix[i] == World(ph.joints, i)
  }

  /**
   * The initial fill: every joint in list order recomputes its world matrix and
   * writes it into its slot. Because parents come first, each parent is already
   * up to date when its child reads it, so every joint ends with its true world
   * matrix. Slots beyond the list keep what they held.
   */
  method FillInstances(ph: PhalanxList, mesh: InstancedMesh)
    requires ph.Valid() && mesh.Valid()
    modifies ph, mesh.instanceMatrix
    ensures ph.Valid()
    ensures ph.joints == old(ph.joints)
    ensures forall i :: 0 <= i < |ph.joints| ==> ph.worlds[i] == World(ph.joints, i)
    ensures SlotsHold(ph, mesh)
    ensures forall i :: |ph.joints| <= i < mesh.count ==> mesh.instanceMatrix[i] == old(mesh.instanceMatrix[i])
  {
    var i := 0;
    while i < |ph.joints|
      invariant ph.Valid() && ph.joints == old(ph.joints)
      invariant 0 <= i <= |ph.joints|
      invariant forall k :: 0 <= k < i ==> ph.worlds[k] == World(ph.joints, k)
      invariant forall k :: 0 <= k < i && k < mesh.count ==> mesh.instanceMatrix[k] == World(ph.joints, k)
      invariant forall k :: i <= k < mesh.count ==> mesh.instanceMatrix[k] == old(mesh.instanceMatrix[k])
    {
      ph.UpdateMatrixWorld(i);
      mesh.SetMatrixAt(i, ph.worlds[i]);
      i := i + 1;
    }
  }

  /**
   * The tween's update callback: every joint in list order gets the shared
   * angle as its x rotation, recomputes its world matrix and writes it into its
   * slot; the instance buffer is then flagged for upload once, after the loop.
   * Nothing but the rotations, the cached world matrices, the written slots and
   * the buffer version changes; the slot count is fixed by construction.
   */
  method TweenUpdate(ph: PhalanxList, mesh: InstancedMesh, value: real)
    requires ph.Valid() && mesh.Valid()
    modifies ph, mesh, mesh.instanceMatrix
    ensures ph.Valid()
    ensures ph.joints == Rotated(old(ph.joints), value)
    ensures forall i :: 0 <= i < |ph.joints| ==> ph.joints[i].local.rotationX == value
    ensures forall i :: 0 <= i < |ph.joints| ==> ph.worlds[i] == World(ph.joints, i)
    ensures SlotsHold(ph, mesh)
    ensures forall i :: |ph.joints| <= i < mesh.count ==> mesh.instanceMatrix[i] == old(mesh.instanceMatrix[i])
    ensures mesh.version == old(mesh.version) + 1
  {
    ghost var goal := Rotated(ph.joints, value);
    RotatedKeepsParents(ph.joints, value);
    var i := 0;
    while i < |ph.joints|
      invariant ph.Valid() && |ph.joints| == |goal|
      invariant 0 <= i <= |ph.joints|
      invariant forall k :: 0 <= k < i ==> ph.joints[k] == goal[k]
      invariant forall k :: i <= k < |ph.joints| ==> ph.joints[k] == old(ph.joints)[k]
      invariant forall k :: 0 <= k < i ==> ph.worlds[k] == World(goal, k)
      invariant forall k :: 0 <= k < i && k < mesh.count ==> mesh.instanceMatrix[k] == World(goal, k)
      invariant forall k :: i <= k < mesh.count ==> mesh.instanceMatrix[k] == old(mesh.instanceMatrix[k])
      invariant mesh.version == old(mesh.version)
    {
      ph.SetRotationX(i, value);
      ph.UpdateMatrixWorld(i);
      mesh.SetMatrixAt(i, ph.worlds[i]);
      i := i + 1;
    }
    assert ph.joints == goal;
    mesh.MarkNeedsUpdate();
  }

  /**
   * Builds pinky, ring, middle, index and thumb into one list, then hangs the
   * thumb under its mount and the other four under the palm base, and places
   * the four finger roots. The thumb mount itself is never added to the list.
   */
  method AssembleHand() returns (ph: PhalanxList)
    ensures fresh(ph) && ph.Valid()
    ensures ph.joints == HandJoints()
  {
    ph := new PhalanxList();
    var f1 := ph.CreateFinger(0.8, false);
    var f2 := ph.CreateFinger(0.95, false);
    var f3 := ph.CreateFinger(1.0, false);
    var f4 := ph.CreateFinger(0.95, false);
    var f5 := ph.CreateFinger(0.75, true);
    assert ph.joints == BuiltFingers();
    ph.Attach(f5, ThumbBase);
    ph.Attach(f1, PalmBase);
    ph.Attach(f2, PalmBase);
    ph.Attach(f3, PalmBase);
    ph.Attach(f4, PalmBase);
    ph.SetPosition(f1, Vec3(-4.0, 0.2, 0.0));
    ph.SetPosition(f2, Vec3(-2.0, 0.2, 0.0));
    ph.SetPosition(f3, Vec3(0.0, 0.2, 0.0));
    ph.SetPosition(f4, Vec3(2.0, 0.2, 0.0));
    PlacingGivesHand();
  }

  /**
   * Startup: assembles the hand, allocates exactly one instance slot per
   * joint (14) and fills every slot with its joint's world matrix.
   */
  method BuildHand() returns (ph: PhalanxList, mesh: InstancedMesh)
    ensures fresh(ph) && fresh(mesh) && fresh(mesh.instanceMatrix)
    ensures ph.Valid() && mesh.Valid()
    ensures ph.joints == HandJoints()
    ensures mesh.count == |ph.joints| == 14
    ensures forall i :: 0 <= i < |ph.joints| ==> ph.worlds[i] == World(ph.joints, i)
    ensures SlotsHold(ph, mesh)
    ensures mesh.version == 0
  {
    ph := AssembleHand();
    HandLayout();
    mesh := new InstancedMesh(|ph.joints|);
    FillInstances(ph, mesh);
  }
}
