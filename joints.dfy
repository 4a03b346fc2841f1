/**
 * The finger skeleton as an arena: a flat list of joint records that refer to
 * their parents by index, and abstract world matrices.
 *
 * A world matrix is kept symbolic: Composed(anchor, chain) stands for the
 * product of the anchor object's world matrix with the local matrices in
 * `chain`, outermost first. The anchor is an object outside the list (the palm
 * base, the thumb mount, or nothing at all).
 */
module Joints {

  datatype Vec3 = Vec3(x: real, y: real, z: real)

  const Origin := Vec3(0.0, 0.0, 0.0)

  /** The local transform of one joint: position, the animated x rotation, a uniform scale. */
  datatype Local = Local(position: Vec3, rotationX: real, scale: real)

  /** The local transform of a freshly created scene object. */
  const Rest := Local(Origin, 0.0, 1.0)

  /** Every child segment sits 3 units up its parent and is scaled by 0.85. */
  const SegmentLength := 3.0
  const Decay := 0.85
  const ChildLocal := Local(Vec3(0.0, SegmentLength, 0.0), 0.0, Decay)

  /** Scene objects outside the joint list that finger roots hang under. */
  datatype Mount = PalmBase | ThumbBase

  datatype Anchor = Free | On(mount: Mount)

  /** A joint's parent: an object outside the list, or an earlier joint of the list. */
  datatype Parent = Root(anchor: Anchor) | Under(index: nat)

  datatype Joint = Joint(parent: Parent, local: Local)

  /** A symbolic 4x4 matrix; Zero is the all-zero matrix a new instance buffer holds. */
  datatype Matrix = Zero | Composed(anchor: Anchor, chain: seq<Local>)

  /** The world matrix of an anchor object, as seen by the joints below it. */
  function AnchorMatrix(a: Anchor): Matrix
  {
    Composed(a, [])
  }

  /** The identity: the world matrix of a fresh object, which hangs from nothing. */
  const Identity := AnchorMatrix(Free)

  /** parentWorld * local */
  function Compose(parentWorld: Matrix, l: Local): Matrix
  {
    match parentWorld
    case Zero => Zero
    case Composed(a, c) => Composed(a, c + [l])
  }

  /** Every parent comes before its children in the list. */
  predicate ParentsFirst(js: seq<Joint>) {
    forall i :: 0 <= i < |js| && js[i].parent.Under? ==> js[i].parent.index < i
  }

  /** The world matrix of joint i, computed top-down from its parent's. */
  function World(js: seq<Joint>, i: nat): (m: Matrix)
    requires ParentsFirst(js) && i < |js|
    ensures m.Composed? && |m.chain| > 0 && m.chain[|m.chain| - 1] == js[i].local
    decreases i
  {
    match js[i].parent
    case Root(a) => Compose(AnchorMatrix(a), js[i].local)
    case Under(p) => Compose(World(js, p), js[i].local)
  }

  /** The compounded scale of joint i: its own scale times its parent's (anchors have scale 1). */
  function WorldScale(js: seq<Joint>, i: nat): real
    requires ParentsFirst(js) && i < |js|
    decreases i
  {
    match js[i].parent
    case Root(_) => js[i].local.scale
    case Under(p) => WorldScale(js, p) * js[i].local.scale
  }

  /** The number of list ancestors of joint i. */
  function Depth(js: seq<Joint>, i: nat): nat
    requires ParentsFirst(js) && i < |js|
    decreases i
  {
    match js[i].parent
    case Root(_) => 0
    case Under(p) => Depth(js, p) + 1
  }

  function Pow(b: real, n: nat): real {
    if n == 0 then 1.0 else Pow(b, n - 1) * b
  }

  /** The product of the scales along a chain of local transforms. */
  function ChainScale(c: seq<Local>): real {
    if c == [] then 1.0 else ChainScale(c[..|c| - 1]) * c[|c| - 1].scale
  }

  /** Composing with a local transform multiplies the matrix's scale by that transform's scale. */
  lemma {:induction false} ComposeScales(parentWorld: Matrix, l: Local)
    requires parentWorld.Composed?
    ensures ChainScale(Compose(parentWorld, l).chain) == ChainScale(parentWorld.chain) * l.scale
  {
    var c := parentWorld.chain;
    assert (c + [l])[..|c|] == c;
  }

  /**
   * World matrices agree with compounded scales: the chain of joint i's world
   * matrix has one local transform per joint from its root down to i, and the
   * product of their scales is WorldScale.
   */
  lemma {:induction false} WorldMatchesScale(js: seq<Joint>, i: nat)
    requires ParentsFirst(js) && i < |js|
    ensures |World(js, i).chain| == Depth(js, i) + 1
    ensures ChainScale(World(js, i).chain) == WorldScale(js, i)
    decreases i
  {
    if js[i].parent.Under? {
      var p := js[i].parent.index;
      WorldMatchesScale(js, p);
      ChildMatchesScale(js, i, p);
    } else {
      RootMatchesScale(js, i);
    }
  }

  lemma {:induction false} RootMatchesScale(js: seq<Joint>, i: nat)
    requires ParentsFirst(js) && i < |js| && js[i].parent.Root?
    ensures |World(js, i).chain| == Depth(js, i) + 1
    ensures ChainScale(World(js, i).chain) == WorldScale(js, i)
  {
    ComposeScales(AnchorMatrix(js[i].parent.anchor), js[i].local);
  }

  lemma {:induction false} ChildMatchesScale(js: seq<Joint>, i: nat, p: nat)
    requires ParentsFirst(js) && i < |js| && js[i].parent == Under(p)
    requires |World(js, p).chain| == Depth(js, p) + 1
    requires ChainScale(World(js, p).chain) == WorldScale(js, p)
    ensures |World(js, i).chain| == Depth(js, i) + 1
    ensures ChainScale(World(js, i).chain) == WorldScale(js, i)
  {
    assert WorldScale(js, i) == WorldScale(js, p) * js[i].local.scale;
    ComposeScales(World(js, p), js[i].local);
  }

  /**
   * Along a chain that starts at a root and continues with children of scale
   * Decay, each one directly after its parent, the joint at depth d has scale
   * rootScale * Decay^d.
   */
  lemma {:induction false} ChainTapers(js: seq<Joint>, s: nat, d: nat)
    requires ParentsFirst(js) && s + d < |js|
    requires js[s].parent.Root?
    requires forall k :: s < k <= s + d ==> js[k].parent == Under(k - 1) && js[k].local.scale == Decay
    ensures WorldScale(js, s + d) == js[s].local.scale * Pow(Decay, d)
    ensures Depth(js, s + d) == d
  {
    if d > 0 {
      ChainTapers(js, s, d - 1);
      var r := js[s].local.scale;
      var p := Pow(Decay, d - 1);
      assert WorldScale(js, s + d) == WorldScale(js, s + d - 1) * Decay;
      assert (r * p) * Decay == r * (p * Decay);
    }
  }

  /** Appending joints changes no earlier joint's world matrix. */
  lemma {:induction false} AppendKeepsWorld(js: seq<Joint>, ext: seq<Joint>, i: nat)
    requires ParentsFirst(js) && ParentsFirst(js + ext) && i < |js|
    ensures World(js + ext, i) == World(js, i)
    decreases i
  {
    assert (js + ext)[i] == js[i];
    if js[i].parent.Under? {
      AppendKeepsWorld(js, ext, js[i].parent.index);
    }
  }

  /** The list with every joint's x rotation set to the same angle. */
  function Rotated(js: seq<Joint>, angle: real): seq<Joint>
  {
    seq(|js|, i requires 0 <= i < |js| => js[i].(local := js[i].local.(rotationX := angle)))
  }

  lemma {:induction false} RotatedKeepsParents(js: seq<Joint>, angle: real)
    requires ParentsFirst(js)
    ensures ParentsFirst(Rotated(js, angle))
    ensures forall i :: 0 <= i < |js| ==> Rotated(js, angle)[i].parent == js[i].parent
  {
  }

  /** Rotating every joint leaves every compounded scale and depth as it was. */
  lemma {:induction false} RotatedKeepsTaper(js: seq<Joint>, angle: real, i: nat)
    requires ParentsFirst(js) && i < |js|
    ensures ParentsFirst(Rotated(js, angle))
    ensures WorldScale(Rotated(js, angle), i) == WorldScale(js, i)
    ensures Depth(Rotated(js, angle), i) == Depth(js, i)
    decreases i
  {
    RotatedKeepsParents(js, angle);
    if js[i].parent.Under? {
      RotatedKeepsTaper(js, angle, js[i].parent.index);
    }
  }

  function ChildCount(isThumb: bool): nat {
    if isThumb then 1 else 2
  }

  /** n child segments, each under the joint just before it, the first under `start`. */
  function Children(start: nat, n: nat): seq<Joint>
  {
    seq(n, k requires 0 <= k < n => Joint(Under(start + k), ChildLocal))
  }

  /** The joints one finger build appends when the list so far has `start` entries. */
  function FingerJoints(start: nat, scale: real, isThumb: bool): seq<Joint> {
    [Joint(Root(Free), Rest.(scale := scale))] + Children(start, ChildCount(isThumb))
  }

  /**
   * What a finger build appends: 3 joints for a finger and 2 for a thumb, the
   * root first and each child directly after its parent, every child at
   * (0, 3, 0) with scale 0.85, and the root carrying the finger's scale.
   */
  lemma FingerShape(start: nat, scale: real, isThumb: bool)
    ensures var r := FingerJoints(start, scale, isThumb);
      |r| == (if isThumb then 2 else 3) &&
      r[0] == Joint(Root(Free), Local(Origin, 0.0, scale)) &&
      forall k :: 0 < k < |r| ==> r[k].parent == Under(start + k - 1) && r[k].local == ChildLocal
  {
  }

  /** A finger build keeps every parent before its children. */
  lemma {:induction false} FingerKeepsParentsFirst(js: seq<Joint>, scale: real, isThumb: bool)
    requires ParentsFirst(js)
    ensures ParentsFirst(js + FingerJoints(|js|, scale, isThumb))
  {
    var r := js + FingerJoints(|js|, scale, isThumb);
    forall i | 0 <= i < |r| && r[i].parent.Under?
      ensures r[i].parent.index < i
    {
      if i < |js| {
        assert r[i] == js[i];
      } else {
        assert r[i] == Children(|js|, ChildCount(isThumb))[i - |js| - 1];
      }
    }
  }

  /**
   * Every joint of a finger just built tapers: the joint k steps below the root
   * has compounded scale scale * 0.85^k.
   */
  lemma {:induction false} FingerTapers(js: seq<Joint>, scale: real, isThumb: bool, k: nat)
    requires ParentsFirst(js) && k <= ChildCount(isThumb)
    ensures ParentsFirst(js + FingerJoints(|js|, scale, isThumb))
    ensures WorldScale(js + FingerJoints(|js|, scale, isThumb), |js| + k) == scale * Pow(Decay, k)
    ensures Depth(js + FingerJoints(|js|, scale, isThumb), |js| + k) == k
  {
    FingerKeepsParentsFirst(js, scale, isThumb);
    var r := js + FingerJoints(|js|, scale, isThumb);
    forall j | |js| < j <= |js| + k
      ensures r[j].parent == Under(j - 1) && r[j].local.scale == Decay
    {
      assert r[j] == Children(|js|, ChildCount(isThumb))[j - |js| - 1];
    }
    ChainTapers(r, |js|, k);
  }
}
