/**
 * The shared `phalanxes` list: the joints in creation order, each with the
 * world matrix it last computed. The position of a joint in the list is its
 * instance slot.
 */
module Phalanxes {
  import opened Joints

  /** The list after joint i is hung under a mount. */
  function Attached(js: seq<Joint>, i: nat, mount: Mount): (r: seq<Joint>)
    requires i < |js|
    ensures |r| == |js| && r[i].parent == Root(On(mount)) && r[i].local == js[i].local
    ensures forall k :: 0 <= k < |js| && k != i ==> r[k] == js[k]
  {
    js[i := js[i].(parent := Root(On(mount)))]
  }

  /** The list after joint i is moved to position p. */
  function Moved(js: seq<Joint>, i: nat, p: Vec3): (r: seq<Joint>)
    requires i < |js|
    ensures |r| == |js| && r[i].parent == js[i].parent && r[i].local == js[i].local.(position := p)
    ensures forall k :: 0 <= k < |js| && k != i ==> r[k] == js[k]
  {
    js[i := js[i].(local := js[i].local.(position := p))]
  }

  class PhalanxList {
    /** The joint records, parents before children. */
    var joints: seq<Joint>
    /** Each joint's cached world matrix (matrixWorld). */
    var worlds: seq<Matrix>

    ghost predicate Valid()
      reads this
    {
      |worlds| == |joints| && ParentsFirst(joints)
    }

    constructor ()
      ensures Valid() && joints == [] && worlds == []
    {
      joints := [];
      worlds := [];
    }

    /**
     * Builds one finger: pushes a fresh root, then a chain of 2 children (1 for
     * the thumb), each 3 units up and scaled 0.85 under the node created just
     * before it, and finally gives the root the finger's scale. Earlier entries
     * are left as they were; new objects start with the identity world matrix.
     */
    method CreateFinger(scale: real, isThumb: bool) returns (root: nat)
      requires Valid()
      modifies this
      ensures Valid()
      ensures root == |old(joints)|
      ensures joints == old(joints) + FingerJoints(root, scale, isThumb)
      ensures worlds == old(worlds) + seq(ChildCount(isThumb) + 1, _ => Identity)
    {
      root := |joints|;
      joints := joints + [Joint(Root(Free), Rest)];
      worlds := worlds + [Identity];
      var current := root;
      var i := 0;
      while i < ChildCount(isThumb)
        invariant 0 <= i <= ChildCount(isThumb)
        invariant current == root + i && |joints| == root + i + 1
        invariant joints == old(joints) + [Joint(Root(Free), Rest)] + Children(root, i)
        invariant worlds == old(worlds) + seq(i + 1, _ => Identity)
        invariant ParentsFirst(joints)
      {
        var p := Joint(Under(current), ChildLocal);
        joints := joints + [p];
        worlds := worlds + [Identity];
        current := |joints| - 1;
        i := i + 1;
        assert Children(root, i) == Children(root, i - 1) + [p];
      }
      joints := joints[root := Joint(Root(Free), Rest.(scale := scale))];
    }

    /** mount.add(joint): the joint now hangs under an object outside the list. */
    method Attach(i: nat, mount: Mount)
      requires Valid() && i < |joints|
      modifies this
      ensures Valid()
      ensures joints == Attached(old(joints), i, mount)
      ensures worlds == old(worlds)
    {
      joints := joints[i := joints[i].(parent := Root(On(mount)))];
    }

    /** joint.position.set(p) */
    method SetPosition(i: nat, p: Vec3)
      requires Valid() && i < |joints|
      modifies this
      ensures Valid()
      ensures joints == Moved(old(joints), i, p)
      ensures worlds == old(worlds)
    {
      joints := joints[i := joints[i].(local := joints[i].local.(position := p))];
    }

    /** joint.rotation.x = angle */
    method SetRotationX(i: nat, angle: real)
      requires Valid() && i < |joints|
      modifies this
      ensures Valid()
      ensures joints == old(joints)[i := old(joints)[i].(local := old(joints)[i].local.(rotationX := angle))]
      ensures worlds == old(worlds)
    {
      joints := joints[i := joints[i].(local := joints[i].local.(rotationX := angle))];
    }

    /** The world matrix joint i's parent currently holds. */
    function ParentMatrix(i: nat): Matrix
      reads this
      requires Valid() && i < |joints|
    {
      match joints[i].parent
      case Root(a) => AnchorMatrix(a)
      case Under(p) => worlds[p]
    }

    /** joint.updateMatrixWorld(): its world matrix becomes its parent's times its local one. */
    method UpdateMatrixWorld(i: nat)
      requires Valid() && i < |joints|
      modifies this
      ensures Valid()
      ensures joints == old(joints)
      ensures worlds == old(worlds)[i := Compose(old(ParentMatrix(i)), joints[i].local)]
    {
      worlds := worlds[i := Compose(ParentMatrix(i), joints[i].local)];
    }
  }
}
