/**
 * The streamed subjects: the joint hierarchy, the camera (and the editor's
 * active camera), the light and the prop. Each has a stream mode chosen from
 * its own option list; RebuildSubjectData publishes the static data (the
 * schema) of the current mode, OnStream publishes one frame, and
 * SetStreamType switches the mode by option name.
 *
 * The pure part (states, schemas, frames, mode changes) is stated on the
 * `SubjectState` value; the `Subject` class holds the fields the source
 * updates in place and is proved against those functions.
 */
module Subjects {
  import opened Wrappers
  import opened Transforms
  import opened MayaScene
  import opened LiveLink
  import opened Hierarchy

  /** The five subject structs: joint hierarchy, camera, light, prop, and the editor's active camera. */
  datatype Kind = JointHierarchy | CameraSubject | LightSubject | PropSubject | ActiveCamera

  /**
   * The stream-mode enums, which all share their first two values;
   * `RoleSpecific` is the third value, `Camera` for cameras and `Light` for lights.
   */
  datatype Mode = RootOnly | FullHierarchy | RoleSpecific

  /** The enum's integer value. */
  function ModeIndex(m: Mode): nat {
    match m
    case RootOnly => 0
    case FullHierarchy => 1
    case RoleSpecific => 2
  }

  /** The cast `(StreamMode)StreamTypeIdx`. */
  function ModeAt(k: nat): (m: Mode)
    requires k < 3
    ensures ModeIndex(m) == k
  {
    if k == 0 then RootOnly else if k == 1 then FullHierarchy else RoleSpecific
  }

  /** The option list of each kind, in enum order. */
  function StreamOptions(kind: Kind): seq<string> {
    match kind
    case JointHierarchy => ["Root Only", "Full Hierarchy"]
    case PropSubject => ["Root Only", "Full Hierarchy"]
    case CameraSubject => ["Root Only", "Full Hierarchy", "Camera"]
    case ActiveCamera => ["Root Only", "Full Hierarchy", "Camera"]
    case LightSubject => ["Root Only", "Full Hierarchy", "Light"]
  }

  /** A mode the kind's enum has. */
  predicate ModeAllowed(kind: Kind, mode: Mode) {
    ModeIndex(mode) < |StreamOptions(kind)|
  }

  /** The mode each constructor starts in. */
  function InitialMode(kind: Kind): Mode {
    match kind
    case JointHierarchy => FullHierarchy
    case PropSubject => RootOnly
    case CameraSubject => RoleSpecific
    case ActiveCamera => RoleSpecific
    case LightSubject => RoleSpecific
  }

  /** ASCII letters folded to lower case, as the case-insensitive `FString ==` compares them. */
  function FoldChar(c: char): char {
    if 'A' <= c <= 'Z' then (c as int + 32) as char else c
  }

  function Fold(s: string): (r: string)
    ensures |r| == |s|
  {
    seq(|s|, i requires 0 <= i < |s| => FoldChar(s[i]))
  }

  /** `FString::operator==`: equal up to the case of ASCII letters. */
  predicate SameText(a: string, b: string) {
    Fold(a) == Fold(b)
  }

  /** No two options of a kind are the same text, even ignoring case. */
  lemma OptionsDistinct(kind: Kind)
    ensures forall i, j :: 0 <= i < j < |StreamOptions(kind)| ==>
      !SameText(StreamOptions(kind)[i], StreamOptions(kind)[j])
  {
    var opts := StreamOptions(kind);
    forall i, j | 0 <= i < j < |opts|
      ensures !SameText(opts[i], opts[j])
    {
      assert |Fold(opts[i])| != |Fold(opts[j])|;
    }
  }

  /** The first option at or after `j` that names `name`, ignoring case. */
  function FindOption(opts: seq<string>, name: string, j: nat): (r: Option<nat>)
    requires j <= |opts|
    ensures r.Some? ==> (j <= r.value < |opts| && SameText(opts[r.value], name) &&
                         forall k :: j <= k < r.value ==> !SameText(opts[k], name))
    ensures r.None? ==> forall k :: j <= k < |opts| ==> !SameText(opts[k], name)
    decreases |opts| - j
  {
    if j == |opts| then None
    else if SameText(opts[j], name) then Some(j)
    else FindOption(opts, name, j + 1)
  }

  /** The mode an option name stands for, if it names one of the kind's options. */
  function RequestedMode(kind: Kind, name: string): Option<Mode> {
    match FindOption(StreamOptions(kind), name, 0)
    case None => None
    case Some(k) => Some(ModeAt(k))
  }

  /**
   * The index the SetStreamType loop stops at from `j` on: the first option
   * whose text matches and whose mode is not the current one.
   */
  function StreamTypeIndex(kind: Kind, mode: Mode, name: string, j: nat): (r: Option<nat>)
    requires j <= |StreamOptions(kind)|
    ensures r.Some? ==> (j <= r.value < |StreamOptions(kind)| &&
                         SameText(StreamOptions(kind)[r.value], name) && ModeAt(r.value) != mode)
    ensures r.Some? ==> forall k :: j <= k < r.value ==>
      !(SameText(StreamOptions(kind)[k], name) && ModeAt(k) != mode)
    ensures r.None? ==> forall k :: j <= k < |StreamOptions(kind)| ==>
      !(SameText(StreamOptions(kind)[k], name) && ModeAt(k) != mode)
    decreases |StreamOptions(kind)| - j
  {
    var opts := StreamOptions(kind);
    if j == |opts| then None
    else if SameText(opts[j], name) && ModeAt(j) != mode then Some(j)
    else StreamTypeIndex(kind, mode, name, j + 1)
  }

  /**
   * Because the options are distinct, the loop's stopping rule is the same as
   * "the name names a mode, and that mode is not the current one".
   */
  lemma StreamTypeIndexIsRequest(kind: Kind, mode: Mode, name: string)
    ensures match StreamTypeIndex(kind, mode, name, 0)
      case Some(k) => RequestedMode(kind, name) == Some(ModeAt(k)) && ModeAt(k) != mode
      case None => RequestedMode(kind, name).None? || RequestedMode(kind, name) == Some(mode)
  {
    OptionsDistinct(kind);
    var opts := StreamOptions(kind);
    var f := FindOption(opts, name, 0);
    match StreamTypeIndex(kind, mode, name, 0)
    case Some(k) =>
      assert f.Some? && f.value <= k;
      assert f.value < k ==> SameText(opts[f.value], opts[k]);
    case None =>
      if f.Some? {
        assert ModeAt(f.value) == mode;
      }
  }

  /** What `Get*DisplayText` and `ShouldDisplayInUI` read: the whole value of one subject. */
  datatype SubjectState = SubjectState(kind: Kind, name: string, path: string, mode: Mode,
                                       joints: seq<StreamHierarchy>)

  /** The invariant every subject keeps: an existing mode, and a flat hierarchy that can be streamed. */
  predicate StateValid(st: SubjectState) {
    ModeAllowed(st.kind, st.mode) && ParentsInRange(st.joints)
  }

  /** A freshly constructed subject: its initial mode and no joints. */
  function NewState(kind: Kind, name: string, path: string): (st: SubjectState)
    ensures StateValid(st)
  {
    SubjectState(kind, name, path, InitialMode(kind), [])
  }

  /** Only the active camera is hidden from the UI lists (the interface's default is false). */
  predicate ShouldDisplayInUI(kind: Kind) {
    kind != ActiveCamera
  }

  /** GetRoleDisplayText: the option name of the current mode. */
  function RoleDisplayText(kind: Kind, mode: Mode): string
    requires ModeAllowed(kind, mode)
  {
    StreamOptions(kind)[ModeIndex(mode)]
  }

  /** GetSubjectTypeDisplayText. */
  function TypeDisplayText(kind: Kind): string {
    match kind
    case JointHierarchy => "Character"
    case CameraSubject => "Camera"
    case ActiveCamera => "Camera"
    case LightSubject => "Light"
    case PropSubject => "Prop"
  }

  /** The role text shown for a mode names that very mode: asking for it by name selects it again. */
  lemma RoleDisplayTextRoundTrip(kind: Kind, mode: Mode)
    requires ModeAllowed(kind, mode)
    ensures RequestedMode(kind, RoleDisplayText(kind, mode)) == Some(mode)
  {
    OptionsDistinct(kind);
    var opts := StreamOptions(kind);
    var f := FindOption(opts, RoleDisplayText(kind, mode), 0);
    assert SameText(opts[ModeIndex(mode)], RoleDisplayText(kind, mode));
    assert f.Some?;
  }

  /** Two names that differ only in the case of ASCII letters find the same option. */
  lemma {:induction false} FindOptionIgnoresCase(opts: seq<string>, a: string, b: string, j: nat)
    requires j <= |opts| && Fold(a) == Fold(b)
    ensures FindOption(opts, a, j) == FindOption(opts, b, j)
    decreases |opts| - j
  {
    if j < |opts| {
      FindOptionIgnoresCase(opts, a, b, j + 1);
    }
  }

  /** Option names are matched without regard to the case of ASCII letters: such names request the same mode. */
  lemma RequestIgnoresCase(kind: Kind, a: string, b: string)
    requires Fold(a) == Fold(b)
    ensures RequestedMode(kind, a) == RequestedMode(kind, b)
  {
    FindOptionIgnoresCase(StreamOptions(kind), a, b, 0);
  }

  /** Examples: a differently cased option name selects its mode, and another kind's option selects nothing. */
  lemma RequestExamples()
    ensures RequestedMode(CameraSubject, "camera") == Some(RoleSpecific)
    ensures RequestedMode(LightSubject, "FULL HIERARCHY") == Some(FullHierarchy)
    ensures RequestedMode(PropSubject, "Light") == None
  {
    assert Fold("camera") == Fold("Camera");
    assert Fold("FULL HIERARCHY") == Fold("Full Hierarchy");
    assert !SameText("Root Only", "Camera");
    assert !SameText("Root Only", "Full Hierarchy");
    assert !SameText("Root Only", "FULL HIERARCHY");
    assert !SameText("Root Only", "Light") && !SameText("Full Hierarchy", "Light");
  }

  /** ValidateSubject: a joint hierarchy is valid while its root path is; every other kind always is. */
  predicate ValidateSubject(st: SubjectState, scene: Scene) {
    st.kind == JointHierarchy ==> scene.isValid(st.path)
  }

  /** The state after RebuildSubjectData: only a joint hierarchy in FullHierarchy refreshes its joints. */
  function Rebuilt(st: SubjectState, scene: Scene): SubjectState {
    if st.kind == JointHierarchy && st.mode == FullHierarchy
    then st.(joints := Flattened(scene.jointWalk(st.path)))
    else st
  }

  /** The role a static or frame payload belongs to. */
  predicate StaticFitsRole(role: Role, data: StaticData) {
    match role
    case TransformRole => data.TransformStatic?
    case AnimationRole => data.SkeletonStatic? && |data.boneNames| == |data.boneParents|
    case CameraRole => data.CameraStatic?
    case LightRole => data.LightStatic?
  }

  /** The role each mode of each kind publishes. */
  function ModeRole(kind: Kind, mode: Mode): Role {
    match mode
    case RootOnly => TransformRole
    case FullHierarchy => AnimationRole
    case RoleSpecific => if kind == LightSubject then LightRole else CameraRole
  }

  /** The one static-data call RebuildSubjectData makes in the subject's current mode. */
  function Schema(st: SubjectState, scene: Scene): (e: Event)
    requires ModeAllowed(st.kind, st.mode)
    ensures e.StaticDataUpdated? && e.subject == st.name && e.role == ModeRole(st.kind, st.mode)
    ensures StaticFitsRole(e.role, e.data)
  {
    var data :=
      if st.mode == RootOnly then TransformStatic
      else if st.mode == FullHierarchy then
        (if st.kind == JointHierarchy
         then SkeletonStatic(BoneNames(scene.jointWalk(st.path)), BoneParents(scene.jointWalk(st.path)))
         else SkeletonStatic(["root"], [-1]))
      else if st.kind == LightSubject then
        (var spot := HasFn(scene, st.path, SpotLightFn); LightStatic(true, true, spot, spot))
      else CameraStatic(true, true, true, true);
    StaticDataUpdated(st.name, ModeRole(st.kind, st.mode), data)
  }

  /** The schema of each mode, for the kinds that do not walk a hierarchy. */
  lemma SchemaByMode(st: SubjectState, scene: Scene)
    requires ModeAllowed(st.kind, st.mode)
    ensures st.mode == RootOnly ==> Schema(st, scene).data == TransformStatic
    ensures st.mode == FullHierarchy && st.kind != JointHierarchy ==>
      Schema(st, scene).data == SkeletonStatic(["root"], [-1])
    ensures st.mode == RoleSpecific && st.kind != LightSubject ==>
      Schema(st, scene).data == CameraStatic(true, true, true, true)
    ensures st.mode == RoleSpecific && st.kind == LightSubject ==>
      Schema(st, scene).data.LightStatic? && Schema(st, scene).data.intensity && Schema(st, scene).data.lightColor &&
      (Schema(st, scene).data.innerConeAngle <==> HasFn(scene, st.path, SpotLightFn)) &&
      (Schema(st, scene).data.outerConeAngle <==> HasFn(scene, st.path, SpotLightFn))
    ensures st.mode == RoleSpecific ==> st.kind in {CameraSubject, ActiveCamera, LightSubject}
  {
  }

  /**
   * The skeleton of a joint hierarchy in FullHierarchy, for a well-formed
   * walk: one bone per joint, roots exactly at depth 0, every other parent
   * an earlier bone.
   */
  lemma SkeletonSchema(st: SubjectState, scene: Scene)
    requires st.kind == JointHierarchy && st.mode == FullHierarchy
    requires WellFormedWalk(scene.jointWalk(st.path))
    ensures var walk := scene.jointWalk(st.path);
      var data := Schema(st, scene).data;
      data.SkeletonStatic? && |data.boneNames| == |walk| && |data.boneParents| == |walk| &&
      forall i :: 0 <= i < |walk| ==>
        (data.boneParents[i] == -1 <==> walk[i].depth == 0) &&
        (data.boneParents[i] != -1 ==> 0 <= data.boneParents[i] < i)
  {
    var walk := scene.jointWalk(st.path);
    forall i | 0 <= i < |walk|
      ensures (BoneParents(walk)[i] == -1 <==> walk[i].depth == 0) &&
        (BoneParents(walk)[i] != -1 ==> 0 <= BoneParents(walk)[i] < i)
    {
      ParentOfWellFormed(walk, i);
    }
  }

  /** The up-axis corrected, remapped transform of a node's local matrix. */
  function NodeTransform(scene: Scene, path: string): UETransform {
    BuildUETransform(RotateForUnreal(scene.transformation(path)))
  }

  /** The camera's transform: its basis matrix, up-axis corrected and remapped, then turned by the -90 degree yaw. */
  function CameraTransform(c: CameraView): UETransform {
    BuildUETransform(RotateForUnreal(BasisMatrix(c.right, c.view, c.up, c.eye))).(yawCorrected := true)
  }

  /** The frame payload of one mode, for the subjects whose frame is one transform. */
  function SingleTransformFrame(mode: Mode, t: UETransform, time: real): FrameData {
    if mode == RootOnly then TransformFrame(t, time) else AnimationFrame([t], time)
  }

  /**
   * The frame-data calls OnStream makes, given the state it streams from (for
   * the active camera, after its path was refreshed). A camera whose path is
   * not valid streams nothing.
   */
  function FrameEvents(st: SubjectState, scene: Scene, time: real): seq<Event>
    requires StateValid(st)
  {
    match st.kind
    case JointHierarchy =>
      if st.mode == RootOnly
      then [FrameDataUpdated(st.name, TransformFrame(NodeTransform(scene, st.path), time))]
      else [FrameDataUpdated(st.name, AnimationFrame(JointTransforms(st.joints, scene.jointPose), time))]
    case PropSubject =>
      [FrameDataUpdated(st.name, SingleTransformFrame(st.mode, NodeTransform(scene, st.path), time))]
    case LightSubject =>
      var t := NodeTransform(scene, st.path);
      if st.mode != RoleSpecific
      then [FrameDataUpdated(st.name, SingleTransformFrame(st.mode, t, time))]
      else
        var l := scene.light(st.path);
        var cones := if HasFn(scene, st.path, SpotLightFn) then Some(ConeAngles(l.coneAngle, l.penumbraAngle)) else None;
        [FrameDataUpdated(st.name, LightFrame(t, time, l.intensity, MayaColorToUnreal(l.color), cones))]
    case _ =>
      if !scene.isValid(st.path) then []
      else
        var c := scene.camera(st.path);
        var t := CameraTransform(c);
        if st.mode != RoleSpecific
        then [FrameDataUpdated(st.name, SingleTransformFrame(st.mode, t, time))]
        else [FrameDataUpdated(st.name, CameraFrame(t, time, c.horizontalFieldOfView, c.aspectRatio,
                                                     c.focalLength, if c.isOrtho then Orthographic else Perspective))]
  }

  /** A frame payload of the shape the role's static data announced. */
  predicate FrameFitsRole(role: Role, frame: FrameData) {
    match role
    case TransformRole => frame.TransformFrame?
    case AnimationRole => frame.AnimationFrame?
    case CameraRole => frame.CameraFrame?
    case LightRole => frame.LightFrame?
  }

  /**
   * Every frame a subject streams is for that subject and has the shape of
   * the role its current mode publishes; only a camera with an invalid path
   * streams nothing, and at most one frame is streamed per call.
   */
  lemma FramesFitSchema(st: SubjectState, scene: Scene, time: real)
    requires StateValid(st)
    ensures |FrameEvents(st, scene, time)| <= 1
    ensures |FrameEvents(st, scene, time)| == 0 <==>
      st.kind in {CameraSubject, ActiveCamera} && !scene.isValid(st.path)
    ensures forall e :: e in FrameEvents(st, scene, time) ==>
      e.FrameDataUpdated? && e.subject == st.name && FrameFitsRole(ModeRole(st.kind, st.mode), e.frame)
  {
  }

  /**
   * After a rebuild, the frame of a joint hierarchy in FullHierarchy carries
   * exactly one transform per bone of the skeleton just published.
   */
  lemma SkeletonAndFrameAgree(st: SubjectState, scene: Scene, time: real)
    requires StateValid(st) && st.kind == JointHierarchy && st.mode == FullHierarchy
    ensures StateValid(Rebuilt(st, scene))
    ensures var frames := FrameEvents(Rebuilt(st, scene), scene, time);
      |frames| == 1 && frames[0].frame.AnimationFrame? &&
      |frames[0].frame.transforms| == |Schema(st, scene).data.boneNames|
  {
  }

  /** The light's frame carries cone angles exactly when its schema said they are supported. */
  lemma LightConesAgree(st: SubjectState, scene: Scene, time: real)
    requires StateValid(st) && st.kind == LightSubject && st.mode == RoleSpecific
    ensures var frame := FrameEvents(st, scene, time)[0].frame;
      frame.LightFrame? &&
      (frame.coneAngles.Some? <==> Schema(st, scene).data.innerConeAngle) &&
      (frame.coneAngles.Some? <==> Schema(st, scene).data.outerConeAngle)
  {
  }

  /** The state after OnStream: the active camera follows the camera of the active view when there is one. */
  function Streamed(st: SubjectState, scene: Scene): SubjectState {
    if st.kind == ActiveCamera && scene.activeViewCamera.Some?
    then st.(path := scene.activeViewCamera.value)
    else st
  }

  /** The state after SetStreamType(name). */
  function ModeChanged(st: SubjectState, name: string, scene: Scene): SubjectState
    requires ModeAllowed(st.kind, st.mode)
  {
    match StreamTypeIndex(st.kind, st.mode, name, 0)
    case None => st
    case Some(k) => Rebuilt(st.(mode := ModeAt(k)), scene)
  }

  /** The provider calls SetStreamType(name) makes. */
  function ModeChangeEvents(st: SubjectState, name: string, scene: Scene): seq<Event>
    requires ModeAllowed(st.kind, st.mode)
  {
    match StreamTypeIndex(st.kind, st.mode, name, 0)
    case None => []
    case Some(k) => [Schema(st.(mode := ModeAt(k)), scene)]
  }

  /**
   * SetStreamType republishes the schema exactly once when the name selects
   * another mode, and otherwise (an unknown name, or the current mode's name)
   * changes nothing and publishes nothing.
   */
  lemma SetStreamTypeSpec(st: SubjectState, name: string, scene: Scene)
    requires StateValid(st)
    ensures StateValid(ModeChanged(st, name, scene))
    ensures |ModeChangeEvents(st, name, scene)| == (if ModeChanged(st, name, scene).mode != st.mode then 1 else 0)
    ensures RequestedMode(st.kind, name).None? ==>
      ModeChanged(st, name, scene) == st && ModeChangeEvents(st, name, scene) == []
    ensures RequestedMode(st.kind, name) == Some(st.mode) ==>
      ModeChanged(st, name, scene) == st && ModeChangeEvents(st, name, scene) == []
    ensures forall m :: RequestedMode(st.kind, name) == Some(m) && m != st.mode ==>
      ModeChanged(st, name, scene) == Rebuilt(st.(mode := m), scene) &&
      ModeChangeEvents(st, name, scene) == [Schema(st.(mode := m), scene)]
  {
    StreamTypeIndexIsRequest(st.kind, st.mode, name);
  }

  /** Selecting a mode by its display name switches to that mode and republishes its schema. */
  lemma SelectModeByName(st: SubjectState, m: Mode, scene: Scene)
    requires StateValid(st) && ModeAllowed(st.kind, m) && m != st.mode
    ensures ModeChanged(st, RoleDisplayText(st.kind, m), scene).mode == m
    ensures ModeChangeEvents(st, RoleDisplayText(st.kind, m), scene) == [Schema(st.(mode := m), scene)]
  {
    RoleDisplayTextRoundTrip(st.kind, m);
    SetStreamTypeSpec(st, RoleDisplayText(st.kind, m), scene);
  }

  /** Rebuilding and streaming keep a subject's invariant, its kind and its name. */
  lemma TransitionsKeepValid(st: SubjectState, scene: Scene)
    requires StateValid(st)
    ensures StateValid(Rebuilt(st, scene)) && StateValid(Streamed(st, scene))
    ensures Rebuilt(st, scene).kind == st.kind && Rebuilt(st, scene).name == st.name
    ensures Rebuilt(st, scene).path == st.path && Rebuilt(st, scene).mode == st.mode
    ensures Streamed(st, scene).kind == st.kind && Streamed(st, scene).name == st.name
    ensures Streamed(st, scene).mode == st.mode && Streamed(st, scene).joints == st.joints
    ensures st.kind != ActiveCamera ==> Streamed(st, scene) == st
  {
  }

  /** One streamed subject; the kind-specific virtual methods dispatch on `kind`. */
  class Subject {
    const kind: Kind
    const name: string
    var path: string
    var mode: Mode
    var joints: seq<StreamHierarchy>

    function State(): SubjectState
      reads this
    {
      SubjectState(kind, name, path, mode, joints)
    }

    constructor (kind: Kind, name: string, path: string)
      ensures State() == NewState(kind, name, path)
    {
      this.kind := kind;
      this.name := name;
      this.path := path;
      this.mode := InitialMode(kind);
      this.joints := [];
    }

    /** RebuildSubjectData: publish the schema of the current mode. */
    method RebuildSubjectData(scene: Scene, provider: Provider)
      requires ModeAllowed(kind, mode)
      modifies this, provider
      ensures State() == Rebuilt(old(State()), scene)
      ensures provider.log == old(provider.log) + [Schema(old(State()), scene)]
    {
      if mode == RootOnly {
        provider.log := provider.log + [StaticDataUpdated(name, TransformRole, TransformStatic)];
      } else if mode == FullHierarchy {
        if kind == JointHierarchy {
          var flat, boneNames, boneParents := FlattenJoints(scene.jointWalk(path));
          joints := flat;
          provider.log := provider.log + [StaticDataUpdated(name, AnimationRole, SkeletonStatic(boneNames, boneParents))];
        } else {
          provider.log := provider.log + [StaticDataUpdated(name, AnimationRole, SkeletonStatic(["root"], [-1]))];
        }
      } else if kind == LightSubject {
        var isSpotLight := HasFn(scene, path, SpotLightFn);
        provider.log := provider.log + [StaticDataUpdated(name, LightRole, LightStatic(true, true, isSpotLight, isSpotLight))];
      } else {
        provider.log := provider.log + [StaticDataUpdated(name, CameraRole, CameraStatic(true, true, true, true))];
      }
    }

    /** StreamCamera: the camera's frame, when the given path is valid. */
    method StreamCamera(cameraPath: string, scene: Scene, time: real, provider: Provider)
      requires StateValid(State()) && kind in {CameraSubject, ActiveCamera} && cameraPath == path
      modifies provider
      ensures provider.log == old(provider.log) + FrameEvents(State(), scene, time)
    {
      if scene.isValid(cameraPath) {
        var c := scene.camera(cameraPath);
        var cameraTransform := CameraTransform(c);
        var frame;
        if mode == RootOnly {
          frame := TransformFrame(cameraTransform, time);
        } else if mode == FullHierarchy {
          frame := AnimationFrame([cameraTransform], time);
        } else {
          frame := CameraFrame(cameraTransform, time, c.horizontalFieldOfView, c.aspectRatio, c.focalLength,
                               if c.isOrtho then Orthographic else Perspective);
        }
        provider.log := provider.log + [FrameDataUpdated(name, frame)];
      }
    }

    /** OnStream: publish one frame of the current mode. */
    method OnStream(scene: Scene, time: real, provider: Provider)
      requires StateValid(State())
      modifies this, provider
      ensures State() == Streamed(old(State()), scene)
      ensures provider.log == old(provider.log) + FrameEvents(State(), scene, time)
    {
      match kind
      case JointHierarchy =>
        if mode == RootOnly {
          var transform := NodeTransform(scene, path);
          provider.log := provider.log + [FrameDataUpdated(name, TransformFrame(transform, time))];
        } else {
          var transforms := ComposeFrame(joints, scene.jointPose);
          assert transforms == JointTransforms(joints, scene.jointPose);
          provider.log := provider.log + [FrameDataUpdated(name, AnimationFrame(transforms, time))];
        }
      case PropSubject =>
        var unrealTransform := NodeTransform(scene, path);
        var frame := if mode == RootOnly then TransformFrame(unrealTransform, time) else AnimationFrame([unrealTransform], time);
        provider.log := provider.log + [FrameDataUpdated(name, frame)];
      case LightSubject =>
        var unrealTransform := NodeTransform(scene, path);
        var frame;
        if mode == RootOnly {
          frame := TransformFrame(unrealTransform, time);
        } else if mode == FullHierarchy {
          frame := AnimationFrame([unrealTransform], time);
        } else {
          var light := scene.light(path);
          var cones := None;
          if HasFn(scene, path, SpotLightFn) {
            cones := Some(ConeAngles(light.coneAngle, light.penumbraAngle));
          }
          frame := LightFrame(unrealTransform, time, light.intensity, MayaColorToUnreal(light.color), cones);
        }
        provider.log := provider.log + [FrameDataUpdated(name, frame)];
      case CameraSubject =>
        StreamCamera(path, scene, time, provider);
      case ActiveCamera =>
        if scene.activeViewCamera.Some? {
          path := scene.activeViewCamera.value;
        }
        StreamCamera(path, scene, time, provider);
    }

    /**
     * SetStreamType: the first option that names the argument and is not the
     * current mode becomes the mode, and the schema is republished.
     */
    method SetStreamType(streamType: string, scene: Scene, provider: Provider)
      requires StateValid(State())
      modifies this, provider
      ensures State() == ModeChanged(old(State()), streamType, scene)
      ensures provider.log == old(provider.log) + ModeChangeEvents(old(State()), streamType, scene)
    {
      var options := StreamOptions(kind);
      for streamTypeIdx := 0 to |options|
        invariant State() == old(State()) && provider.log == old(provider.log)
        invariant StreamTypeIndex(kind, mode, streamType, 0) == StreamTypeIndex(kind, mode, streamType, streamTypeIdx)
      {
        if SameText(options[streamTypeIdx], streamType) && mode != ModeAt(streamTypeIdx) {
          mode := ModeAt(streamTypeIdx);
          RebuildSubjectData(scene, provider);
          return;
        }
      }
    }
  }
}
