/**
 * The hierarchy flattener of the joint subject: RebuildSubjectData turns the
 * depth-first joint walk into the flat `JointsToStream` array with a parent
 * index per joint, and OnStream composes one scale-compensated matrix per
 * entry of that array.
 */
module Hierarchy {
  import opened Transforms
  import opened MayaScene

  /** FStreamHierarchy: a joint's name, its path, and the index of its parent (-1 for a root). */
  datatype StreamHierarchy = StreamHierarchy(jointName: string, jointPath: string, parentIndex: int)

  /** `ParentIndexStack.SetNum(100, false)`: the stack starts with 100 zeroed slots. */
  const InitialStackSize: nat := 100

  /** The last position before `k` whose depth is `d`, or -1 when there is none. */
  function LastAtDepth(walk: seq<DagItem>, k: nat, d: nat): (r: int)
    requires k <= |walk|
    ensures -1 <= r < k
    ensures r >= 0 ==> walk[r].depth == d && forall j :: r < j < k ==> walk[j].depth != d
    ensures r == -1 ==> forall j :: 0 <= j < k ==> walk[j].depth != d
  {
    if k == 0 then -1
    else if walk[k - 1].depth == d then k - 1
    else LastAtDepth(walk, k - 1, d)
  }

  /** What slot `d` of the parent-index stack holds after `k` steps: the last index at depth `d`, or 0. */
  function StackSlot(walk: seq<DagItem>, k: nat, d: nat): int
    requires k <= |walk|
  {
    var j := LastAtDepth(walk, k, d);
    if j >= 0 then j else 0
  }

  /** One more step of the walk overwrites exactly the slot of that step's depth. */
  lemma StackSlotStep(walk: seq<DagItem>, k: nat, d: nat)
    requires k < |walk|
    ensures StackSlot(walk, k + 1, d) == if walk[k].depth == d then k else StackSlot(walk, k, d)
  {
  }

  /**
   * The parent index given to step `i`: -1 at depth 0; otherwise the last
   * earlier step one level up, falling back to the stack's initial 0 when
   * the walk never visited that level.
   */
  function ParentOf(walk: seq<DagItem>, i: nat): int
    requires i < |walk|
  {
    if walk[i].depth == 0 then -1 else StackSlot(walk, i, walk[i].depth - 1)
  }

  /** Every parent index is -1 or an index not after its own, so it can be read back while streaming. */
  predicate ParentsInRange(joints: seq<StreamHierarchy>) {
    forall i :: 0 <= i < |joints| ==> -1 <= joints[i].parentIndex <= i
  }

  /** Every parent index is -1 or strictly before its own index. */
  predicate ParentsPrecede(joints: seq<StreamHierarchy>) {
    forall i :: 0 <= i < |joints| ==>
      joints[i].parentIndex == -1 || 0 <= joints[i].parentIndex < i
  }

  /** `JointsToStream` as rebuilt from a walk: one entry per step, in walk order. */
  function Flattened(walk: seq<DagItem>): (r: seq<StreamHierarchy>)
    ensures |r| == |walk| && ParentsInRange(r)
  {
    seq(|walk|, i requires 0 <= i < |walk| => StreamHierarchy(walk[i].name, walk[i].path, ParentOf(walk, i)))
  }

  /** The skeleton's `BoneNames`. */
  function BoneNames(walk: seq<DagItem>): seq<string> {
    seq(|walk|, i requires 0 <= i < |walk| => walk[i].name)
  }

  /** The skeleton's `BoneParents`. */
  function BoneParents(walk: seq<DagItem>): seq<int> {
    seq(|walk|, i requires 0 <= i < |walk| => ParentOf(walk, i))
  }

  /** Appending the next element to a prefix gives the next prefix. */
  lemma ExtendPrefix<T>(done: seq<T>, t: T, all: seq<T>, n: nat)
    requires n < |all| && done == all[..n] && t == all[n]
    ensures done + [t] == all[..n + 1]
  {
  }

  /**
   * The loop of RebuildSubjectData (FullHierarchy): a depth-indexed stack of
   * the last index given at each depth supplies the parent, and the three
   * arrays grow by one entry per step, starting from empty.
   */
  method FlattenJoints(walk: seq<DagItem>) returns (joints: seq<StreamHierarchy>, boneNames: seq<string>, boneParents: seq<int>)
    ensures joints == Flattened(walk)
    ensures boneNames == BoneNames(walk)
    ensures boneParents == BoneParents(walk)
  {
    joints, boneNames, boneParents := [], [], [];
    var parentIndexStack: seq<int> := seq(InitialStackSize, _ => 0);
    var index := 0;
    while index < |walk|
      invariant 0 <= index <= |walk|
      invariant |parentIndexStack| >= InitialStackSize
      invariant forall j :: 0 <= j < index ==> walk[j].depth < |parentIndexStack|
      invariant forall d :: 0 <= d < |parentIndexStack| ==> parentIndexStack[d] == StackSlot(walk, index, d)
      invariant joints == Flattened(walk)[..index]
      invariant boneNames == BoneNames(walk)[..index]
      invariant boneParents == BoneParents(walk)[..index]
    {
      var item := walk[index];
      var depth := item.depth;
      if depth >= |parentIndexStack| {
        parentIndexStack := parentIndexStack + seq(depth + 1 - |parentIndexStack|, _ => 0);
      }
      var parentIndex := if depth == 0 then -1 else parentIndexStack[depth - 1];
      assert parentIndex == ParentOf(walk, index);
      parentIndexStack := parentIndexStack[depth := index];
      forall d | 0 <= d < |parentIndexStack|
        ensures parentIndexStack[d] == StackSlot(walk, index + 1, d)
      {
        StackSlotStep(walk, index, d);
      }

      ExtendPrefix(joints, StreamHierarchy(item.name, item.path, parentIndex), Flattened(walk), index);
      ExtendPrefix(boneNames, item.name, BoneNames(walk), index);
      ExtendPrefix(boneParents, parentIndex, BoneParents(walk), index);
      joints := joints + [StreamHierarchy(item.name, item.path, parentIndex)];
      boneNames := boneNames + [item.name];
      boneParents := boneParents + [parentIndex];
      index := index + 1;
    }
    assert Flattened(walk)[..index] == Flattened(walk);
    assert BoneNames(walk)[..index] == BoneNames(walk);
    assert BoneParents(walk)[..index] == BoneParents(walk);
  }

  /** A walk as MItDag gives it from a joint root: it starts at depth 0 and goes down at most one level per step. */
  predicate WellFormedWalk(walk: seq<DagItem>) {
    (|walk| > 0 ==> walk[0].depth == 0) &&
    forall i :: 0 < i < |walk| ==> walk[i].depth <= walk[i - 1].depth + 1
  }

  /** Going down one level per step, a walk passes through every depth between two of its steps. */
  lemma {:induction false} DepthPassedOnTheWay(walk: seq<DagItem>, j: nat, i: nat, e: nat)
    requires WellFormedWalk(walk) && j < i < |walk|
    requires walk[j].depth <= e < walk[i].depth
    ensures exists k :: j <= k < i && walk[k].depth == e
  {
    if walk[i - 1].depth == e {
      assert walk[i - 1].depth == e;
    } else {
      DepthPassedOnTheWay(walk, j, i - 1, e);
    }
  }

  /**
   * In a well-formed walk the parent index is -1 exactly at depth 0; any
   * other step's parent is an earlier step one level up, and every step in
   * between lies deeper than the child, i.e. inside the parent's subtree.
   */
  lemma ParentOfWellFormed(walk: seq<DagItem>, i: nat)
    requires WellFormedWalk(walk) && i < |walk|
    ensures (ParentOf(walk, i) == -1) <==> walk[i].depth == 0
    ensures walk[i].depth > 0 ==>
      var p := ParentOf(walk, i);
      0 <= p < i && walk[p].depth == walk[i].depth - 1 &&
      forall j :: p < j < i ==> walk[j].depth >= walk[i].depth
  {
    var d := walk[i].depth;
    if d > 0 {
      DepthPassedOnTheWay(walk, 0, i, d - 1);
      var p := LastAtDepth(walk, i, d - 1);
      assert p >= 0;
      forall j | p < j < i
        ensures walk[j].depth >= d
      {
        if walk[j].depth < d - 1 {
          DepthPassedOnTheWay(walk, j, i, d - 1);
        }
      }
    }
  }

  /** Flattening a well-formed walk puts every parent strictly before its children, roots exactly at depth 0. */
  lemma FlattenedParentsPrecede(walk: seq<DagItem>)
    requires WellFormedWalk(walk)
    ensures ParentsPrecede(Flattened(walk))
    ensures forall i :: 0 <= i < |walk| ==> (Flattened(walk)[i].parentIndex == -1 <==> walk[i].depth == 0)
  {
    forall i | 0 <= i < |walk|
      ensures Flattened(walk)[i].parentIndex == -1 || 0 <= Flattened(walk)[i].parentIndex < i
      ensures Flattened(walk)[i].parentIndex == -1 <==> walk[i].depth == 0
    {
      ParentOfWellFormed(walk, i);
    }
  }

  /** A three-joint chain root, elbow, wrist flattens to bone parents [-1, 0, 1]. */
  lemma JointChain(root: string, elbow: string, wrist: string, p0: string, p1: string, p2: string)
    ensures var walk := [DagItem(0, root, p0), DagItem(1, elbow, p1), DagItem(2, wrist, p2)];
      BoneNames(walk) == [root, elbow, wrist] && BoneParents(walk) == [-1, 0, 1]
  {
    var walk := [DagItem(0, root, p0), DagItem(1, elbow, p1), DagItem(2, wrist, p2)];
    assert ParentOf(walk, 1) == 0;
    assert ParentOf(walk, 2) == 1;
  }

  /**
   * A walk whose first joint is not at depth 0 (its root is not a joint)
   * reads the stack's initial 0: the first joint becomes its own parent.
   */
  lemma FirstJointBelowRoot(name: string, path: string, d: nat)
    requires d > 0
    ensures Flattened([DagItem(d, name, path)])[0].parentIndex == 0
  {
    assert LastAtDepth([DagItem(d, name, path)], 0, d - 1) == -1;
  }

  /** The parent's inverse scale used for entry `i`: identity for a root, else that of entry ParentIndex. */
  function ParentInverseScale(joints: seq<StreamHierarchy>, pose: string -> JointPose, i: nat): Mat4
    requires ParentsInRange(joints) && i < |joints|
  {
    var p := joints[i].parentIndex;
    if p == -1 then Identity() else InverseScaleMatrix(pose(joints[p].jointPath).scale)
  }

  /** Scale * RotationOrientation * Rotation * JointOrientation * ParentInverseScale * Translation. */
  function LocalJointMatrix(p: JointPose, parentInverseScale: Mat4): Mat4 {
    Mul(Mul(Mul(Mul(Mul(ScaleMatrix(p.scale), p.scaleOrientation), p.rotation), p.jointOrientation),
            parentInverseScale),
        TranslationMatrix(p.translation))
  }

  /** The transform streamed for entry `i`; only entry 0 gets the up-axis correction. */
  function JointTransform(joints: seq<StreamHierarchy>, pose: string -> JointPose, i: nat): UETransform
    requires ParentsInRange(joints) && i < |joints|
  {
    var m := LocalJointMatrix(pose(joints[i].jointPath), ParentInverseScale(joints, pose, i));
    BuildUETransform(if i == 0 then RotateForUnreal(m) else m)
  }

  /** One transform per entry of the flat hierarchy. */
  function JointTransforms(joints: seq<StreamHierarchy>, pose: string -> JointPose): seq<UETransform>
    requires ParentsInRange(joints)
  {
    seq(|joints|, i requires 0 <= i < |joints| => JointTransform(joints, pose, i))
  }

  /**
   * The frame has one transform per entry, in order; converting each back to
   * Maya space gives that entry's local matrix, up-axis corrected at entry 0
   * only; a root's matrix is built with the identity for the parent's inverse
   * scale, and any other entry's with the inverse that cancels its parent's
   * (non-degenerate) scale.
   */
  lemma JointTransformsRecoverLocal(joints: seq<StreamHierarchy>, pose: string -> JointPose)
    requires ParentsInRange(joints)
    ensures |JointTransforms(joints, pose)| == |joints|
    ensures forall i :: 0 <= i < |joints| ==>
      var local := LocalJointMatrix(pose(joints[i].jointPath), ParentInverseScale(joints, pose, i));
      !JointTransforms(joints, pose)[i].yawCorrected &&
      UnrealSpace(JointTransforms(joints, pose)[i].unrealSpace) == (if i == 0 then RotateForUnreal(local) else local)
    ensures forall i :: 0 <= i < |joints| && joints[i].parentIndex == -1 ==>
      ParentInverseScale(joints, pose, i) == Identity()
    ensures forall i :: 0 <= i < |joints| && joints[i].parentIndex != -1 ==>
      var s := pose(joints[joints[i].parentIndex].jointPath).scale;
      s.x != 0.0 && s.y != 0.0 && s.z != 0.0 ==> Mul(ScaleMatrix(s), ParentInverseScale(joints, pose, i)) == Identity()
  {
    forall i | 0 <= i < |joints| && joints[i].parentIndex != -1
      ensures var s := pose(joints[joints[i].parentIndex].jointPath).scale;
        s.x != 0.0 && s.y != 0.0 && s.z != 0.0 ==> Mul(ScaleMatrix(s), ParentInverseScale(joints, pose, i)) == Identity()
    {
      var s := pose(joints[joints[i].parentIndex].jointPath).scale;
      if s.x != 0.0 && s.y != 0.0 && s.z != 0.0 {
        ScaleInverse(s);
      }
    }
    forall i | 0 <= i < |joints|
      ensures var local := LocalJointMatrix(pose(joints[i].jointPath), ParentInverseScale(joints, pose, i));
        UnrealSpace(JointTransforms(joints, pose)[i].unrealSpace) == (if i == 0 then RotateForUnreal(local) else local)
    {
      var local := LocalJointMatrix(pose(joints[i].jointPath), ParentInverseScale(joints, pose, i));
      BuildUETransformRecoversMaya(if i == 0 then RotateForUnreal(local) else local);
    }
  }

  /**
   * The loop of OnStream (FullHierarchy): `InverseScales` is filled in index
   * order and read back at the parent's index, which is never after the
   * current one, so the entry read is always there already.
   */
  method ComposeFrame(joints: seq<StreamHierarchy>, pose: string -> JointPose) returns (transforms: seq<UETransform>)
    requires ParentsInRange(joints)
    ensures transforms == JointTransforms(joints, pose)
  {
    ghost var expected := JointTransforms(joints, pose);
    transforms := [];
    var inverseScales: seq<Mat4> := [];
    var idx := 0;
    while idx < |joints|
      invariant 0 <= idx <= |joints|
      invariant |inverseScales| == idx && |transforms| == idx
      invariant forall k :: 0 <= k < idx ==> inverseScales[k] == InverseScaleMatrix(pose(joints[k].jointPath).scale)
      invariant transforms == expected[..idx]
    {
      var h := joints[idx];
      var p := pose(h.jointPath);
      inverseScales := inverseScales + [InverseScaleMatrix(p.scale)];
      var parentInverseScale := if h.parentIndex == -1 then Identity() else inverseScales[h.parentIndex];
      assert parentInverseScale == ParentInverseScale(joints, pose, idx);
      var jointMatrix := LocalJointMatrix(p, parentInverseScale);
      if idx == 0 {
        jointMatrix := RotateForUnreal(jointMatrix);
      }
      var t := BuildUETransform(jointMatrix);
      assert t == JointTransform(joints, pose, idx) == expected[idx];
      ExtendPrefix(transforms, t, expected, idx);
      transforms := transforms + [t];
      idx := idx + 1;
    }
    assert expected[..idx] == expected;
  }
}
