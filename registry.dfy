/**
 * The subject registry: FLiveLinkStreamedSubjectManager's ordered list of
 * subjects, changed in place by add (append), remove-by-path, rename
 * (remove and recreate), validate (prune), reset, rebuild and stream, and
 * read by the four UI listings.
 *
 * Each operation is first stated on the list of subject states, then the
 * `SubjectManager` class is proved against those functions.
 */
module Registry {
  import opened Wrappers
  import opened MayaScene
  import opened LiveLink
  import opened Subjects

  /** The name the active camera subject streams under. */
  const ActiveCameraName: string := "EditorActiveCamera"

  /** A default-constructed MDagPath has the empty full path name. */
  const NoPath: string := ""

  predicate AllValid(states: seq<SubjectState>) {
    forall i :: 0 <= i < |states| ==> StateValid(states[i])
  }

  // ---------------------------------------------------------------- lookup

  /** The first subject at or after `j` whose path is `path` (FindByPredicate, hidden subjects included). */
  function FindFrom(states: seq<SubjectState>, path: string, j: nat): (r: Option<nat>)
    requires j <= |states|
    ensures r.Some? ==> (j <= r.value < |states| && states[r.value].path == path &&
                         forall k :: j <= k < r.value ==> states[k].path != path)
    ensures r.None? ==> forall k :: j <= k < |states| ==> states[k].path != path
    decreases |states| - j
  {
    if j == |states| then None
    else if states[j].path == path then Some(j)
    else FindFrom(states, path, j + 1)
  }

  /** GetSubjectByDagPath with the miss made explicit: the first subject whose path matches. */
  function FindSubjectByPath(states: seq<SubjectState>, path: string): (r: Option<nat>)
    ensures r.Some? <==> exists k :: 0 <= k < |states| && states[k].path == path
    ensures r.Some? ==> r.value < |states| && states[r.value].path == path &&
                        forall k :: 0 <= k < r.value ==> states[k].path != path
  {
    FindFrom(states, path, 0)
  }

  /** What GetSubjectByDagPath does as written: on a miss it dereferences the null result of FindByPredicate. */
  datatype Lookup = Found(index: nat) | NullDereference

  function GetSubjectByDagPathAsWritten(states: seq<SubjectState>, path: string): (r: Lookup)
    ensures r.NullDereference? <==> forall k :: 0 <= k < |states| ==> states[k].path != path
    ensures r.Found? ==> r.index < |states| && states[r.index].path == path
  {
    match FindSubjectByPath(states, path)
    case Some(i) => Found(i)
    case None => NullDereference
  }

  /**
   * The registry right after Reset holds only the active camera, whose path
   * is empty while no view camera is known; asking it for any other path
   * (renaming or re-roling a subject not added yet, say) reaches the null
   * dereference.
   */
  lemma LookupMissDereferencesNull(scene: Scene, path: string)
    requires scene.activeViewCamera.None? && path != NoPath
    ensures GetSubjectByDagPathAsWritten(ResetStates(scene), path) == NullDereference
  {
  }

  // ---------------------------------------------------------------- removal

  /** RemoveSubject only considers subjects shown in the UI. */
  predicate IsRemovable(st: SubjectState, path: string) {
    ShouldDisplayInUI(st.kind) && st.path == path
  }

  /** The last removable subject among the first `n`, scanning from index n - 1 down. */
  function LastVisibleMatch(states: seq<SubjectState>, path: string, n: nat): (r: Option<nat>)
    requires n <= |states|
    ensures r.Some? ==> (r.value < n && IsRemovable(states[r.value], path) &&
                         forall k :: r.value < k < n ==> !IsRemovable(states[k], path))
    ensures r.None? ==> forall k :: 0 <= k < n ==> !IsRemovable(states[k], path)
  {
    if n == 0 then None
    else if IsRemovable(states[n - 1], path) then Some(n - 1)
    else LastVisibleMatch(states, path, n - 1)
  }

  function RemoveSubjectStates(states: seq<SubjectState>, path: string): seq<SubjectState> {
    match LastVisibleMatch(states, path, |states|)
    case None => states
    case Some(i) => states[..i] + states[i + 1..]
  }

  /** The removed subject's destructor retracts it from the provider. */
  function RemoveSubjectEvents(states: seq<SubjectState>, path: string): seq<Event> {
    match LastVisibleMatch(states, path, |states|)
    case None => []
    case Some(i) => [SubjectRemoved(states[i].name)]
  }

  /**
   * RemoveSubject removes at most one subject, the last UI-visible one with
   * the path, and retracts exactly that one; with no such subject nothing
   * changes.
   */
  lemma RemoveSubjectSpec(states: seq<SubjectState>, path: string, i: nat)
    requires i < |states| && IsRemovable(states[i], path)
    requires forall k :: i < k < |states| ==> !IsRemovable(states[k], path)
    ensures RemoveSubjectStates(states, path) == states[..i] + states[i + 1..]
    ensures RemoveSubjectEvents(states, path) == [SubjectRemoved(states[i].name)]
  {
    assert LastVisibleMatch(states, path, |states|) == Some(i);
  }

  /** With no UI-visible subject at the path, RemoveSubject changes nothing and retracts nothing. */
  lemma RemoveSubjectMiss(states: seq<SubjectState>, path: string)
    requires forall k :: 0 <= k < |states| ==> !IsRemovable(states[k], path)
    ensures RemoveSubjectStates(states, path) == states
    ensures RemoveSubjectEvents(states, path) == []
  {
    assert LastVisibleMatch(states, path, |states|).None?;
  }

  /** The registry shrinks by one exactly when some UI-visible subject has the path. */
  lemma RemoveSubjectSize(states: seq<SubjectState>, path: string)
    ensures (exists k :: 0 <= k < |states| && IsRemovable(states[k], path)) <==>
      |RemoveSubjectStates(states, path)| == |states| - 1
  {
    if exists k :: 0 <= k < |states| && IsRemovable(states[k], path) {
      var k :| 0 <= k < |states| && IsRemovable(states[k], path);
      assert LastVisibleMatch(states, path, |states|).Some?;
    }
  }

  /** Hidden subjects (the active camera) survive every RemoveSubject, and so does every invariant. */
  lemma RemoveSubjectKeeps(states: seq<SubjectState>, path: string)
    ensures forall st :: st in states && !ShouldDisplayInUI(st.kind) ==> st in RemoveSubjectStates(states, path)
    ensures AllValid(states) ==> AllValid(RemoveSubjectStates(states, path))
  {
    var m := LastVisibleMatch(states, path, |states|);
    if m.Some? {
      var i := m.value;
      var r := states[..i] + states[i + 1..];
      forall st | st in states && !ShouldDisplayInUI(st.kind)
        ensures st in r
      {
        var k :| 0 <= k < |states| && states[k] == st;
        if k < i {
          assert r[k] == st;
        } else {
          assert r[k - 1] == st;
        }
      }
      if AllValid(states) {
        forall k | 0 <= k < |r|
          ensures StateValid(r[k])
        {
          if k < i {
            assert r[k] == states[k];
          } else {
            assert r[k] == states[k + 1];
          }
        }
      }
    }
  }

  // ---------------------------------------------------------------- validation

  /** The subjects RemoveAll keeps: those whose ValidateSubject holds, in their original order. */
  function Survivors(states: seq<SubjectState>, scene: Scene): (r: seq<SubjectState>)
    ensures |r| <= |states|
    ensures forall st :: st in r <==> st in states && ValidateSubject(st, scene)
    ensures AllValid(states) ==> AllValid(r)
  {
    if |states| == 0 then []
    else
      var last := states[|states| - 1];
      var init := states[..|states| - 1];
      assert states == init + [last];
      Survivors(init, scene) + (if ValidateSubject(last, scene) then [last] else [])
  }

  /** The destructors of the pruned subjects, in list order. */
  function PruneEvents(states: seq<SubjectState>, scene: Scene): seq<Event> {
    if |states| == 0 then []
    else
      var last := states[|states| - 1];
      PruneEvents(states[..|states| - 1], scene) +
      (if ValidateSubject(last, scene) then [] else [SubjectRemoved(last.name)])
  }

  /** Pruning keeps every camera, light and prop subject, and touches nothing when every subject is valid. */
  lemma {:induction false} SurvivorsKeepValid(states: seq<SubjectState>, scene: Scene)
    ensures forall st :: st in states && st.kind != JointHierarchy ==> st in Survivors(states, scene)
    ensures (forall k :: 0 <= k < |states| ==> ValidateSubject(states[k], scene)) ==> Survivors(states, scene) == states
    decreases |states|
  {
    if |states| > 0 {
      var init := states[..|states| - 1];
      SurvivorsKeepValid(init, scene);
      assert states == init + [states[|states| - 1]];
    }
  }

  /** Pruning twice prunes nothing more. */
  lemma {:induction false} SurvivorsIdempotent(states: seq<SubjectState>, scene: Scene)
    ensures Survivors(Survivors(states, scene), scene) == Survivors(states, scene)
    decreases |states|
  {
    if |states| > 0 {
      var init := states[..|states| - 1];
      SurvivorsIdempotent(init, scene);
      var s := Survivors(init, scene);
      var last := states[|states| - 1];
      if ValidateSubject(last, scene) {
        var t := s + [last];
        assert t[..|t| - 1] == s && t[|t| - 1] == last;
        assert Survivors(t, scene) == Survivors(s, scene) + [last];
      } else {
        assert Survivors(states, scene) == s;
      }
    }
  }

  /** The subjects RemoveAll drops: those whose ValidateSubject fails, in their original order. */
  function Pruned(states: seq<SubjectState>, scene: Scene): (r: seq<SubjectState>)
    ensures forall st :: st in r <==> st in states && !ValidateSubject(st, scene)
  {
    if |states| == 0 then []
    else
      var last := states[|states| - 1];
      var init := states[..|states| - 1];
      assert states == init + [last];
      Pruned(init, scene) + (if ValidateSubject(last, scene) then [] else [last])
  }

  /** One more destructor call at the end of a list. */
  lemma RemovedEventsAppend(states: seq<SubjectState>, st: SubjectState)
    ensures RemovedEvents(states + [st]) == RemovedEvents(states) + [SubjectRemoved(st.name)]
  {
    assert forall k :: 0 <= k < |states| ==> (states + [st])[k] == states[k];
  }

  /**
   * Every subject is either kept or retracted, never both: the kept ones are
   * those that validate, and the destructor calls logged are exactly those
   * of the others, in list order.
   */
  lemma {:induction false} PruneAccountsForAll(states: seq<SubjectState>, scene: Scene)
    ensures PruneEvents(states, scene) == RemovedEvents(Pruned(states, scene))
    ensures |Survivors(states, scene)| + |Pruned(states, scene)| == |states|
    decreases |states|
  {
    if |states| > 0 {
      var init := states[..|states| - 1];
      var last := states[|states| - 1];
      PruneAccountsForAll(init, scene);
      if !ValidateSubject(last, scene) {
        RemovedEventsAppend(Pruned(init, scene), last);
      }
    }
  }

  // ---------------------------------------------------------------- creation and rename

  /** The kind ChangeSubjectName recreates for a node: joint, then camera, then light, else prop. */
  function KindForNode(fns: set<NodeFn>): (k: Kind)
    ensures k == JointHierarchy <==> JointFn in fns
    ensures k == CameraSubject <==> JointFn !in fns && CameraFn in fns
    ensures k == LightSubject <==> JointFn !in fns && CameraFn !in fns && LightFn in fns
    ensures k == PropSubject <==> JointFn !in fns && CameraFn !in fns && LightFn !in fns
  {
    if JointFn in fns then JointHierarchy
    else if CameraFn in fns then CameraSubject
    else if LightFn in fns then LightSubject
    else PropSubject
  }

  /** AddSubjectOfType: construct, rebuild, stream once, then append. */
  function CreatedState(kind: Kind, name: string, path: string, scene: Scene): (st: SubjectState)
    ensures StateValid(st) && st.kind == kind && st.name == name && st.mode == InitialMode(kind)
    ensures kind != ActiveCamera ==> st.path == path
  {
    TransitionsKeepValid(NewState(kind, name, path), scene);
    TransitionsKeepValid(Rebuilt(NewState(kind, name, path), scene), scene);
    Streamed(Rebuilt(NewState(kind, name, path), scene), scene)
  }

  /** The provider calls of AddSubjectOfType: the initial schema, then the first frame. */
  function CreationEvents(kind: Kind, name: string, path: string, scene: Scene, time: real): seq<Event> {
    [Schema(NewState(kind, name, path), scene)] + FrameEvents(CreatedState(kind, name, path, scene), scene, time)
  }

  /**
   * ChangeSubjectName: remove the subject at the path and append a new one of
   * the node's kind under the new name. Renaming a path no subject has
   * changes nothing; otherwise the recreated subject ends the registry.
   */
  function RenameStates(states: seq<SubjectState>, path: string, newName: string, scene: Scene): (r: seq<SubjectState>)
    ensures FindSubjectByPath(states, path).None? ==> r == states
    ensures FindSubjectByPath(states, path).Some? ==>
      |r| > 0 && r[|r| - 1].name == newName && r[|r| - 1].path == path &&
      r[|r| - 1].kind == KindForNode(scene.fnTypes(path)) &&
      r[|r| - 1].mode == InitialMode(KindForNode(scene.fnTypes(path))) &&
      r[..|r| - 1] == RemoveSubjectStates(states, path)
  {
    match FindSubjectByPath(states, path)
    case None => states
    case Some(_) => RemoveSubjectStates(states, path) + [CreatedState(KindForNode(scene.fnTypes(path)), newName, path, scene)]
  }

  /** The provider calls of ChangeSubjectName: none for an unknown path, else the removal then the creation. */
  function RenameEvents(states: seq<SubjectState>, path: string, newName: string, scene: Scene, time: real): (r: seq<Event>)
    ensures FindSubjectByPath(states, path).None? ==> r == []
    ensures FindSubjectByPath(states, path).Some? ==>
      var created := CreationEvents(KindForNode(scene.fnTypes(path)), newName, path, scene, time);
      |created| <= |r| <= |created| + 1 && r[|r| - |created|..] == created &&
      r[..|r| - |created|] == RemoveSubjectEvents(states, path)
  {
    match FindSubjectByPath(states, path)
    case None => []
    case Some(_) => RemoveSubjectEvents(states, path) + CreationEvents(KindForNode(scene.fnTypes(path)), newName, path, scene, time)
  }

  /**
   * Renaming a UI-visible subject keeps the registry's size. When only the
   * hidden active camera has the path, nothing is removed and the registry
   * grows by one.
   */
  lemma RenameSize(states: seq<SubjectState>, path: string, newName: string, scene: Scene)
    ensures (exists k :: 0 <= k < |states| && IsRemovable(states[k], path)) ==>
      |RenameStates(states, path, newName, scene)| == |states|
    ensures ((exists k :: 0 <= k < |states| && states[k].path == path) &&
             (forall k :: 0 <= k < |states| && states[k].path == path ==> !ShouldDisplayInUI(states[k].kind))) ==>
      |RenameStates(states, path, newName, scene)| == |states| + 1
  {
    RemoveSubjectSize(states, path);
    if exists k :: 0 <= k < |states| && IsRemovable(states[k], path) {
      var k :| 0 <= k < |states| && IsRemovable(states[k], path);
      assert FindSubjectByPath(states, path).Some?;
    }
  }

  /** Renaming keeps every subject's invariant. */
  lemma RenameKeepsValid(states: seq<SubjectState>, path: string, newName: string, scene: Scene)
    requires AllValid(states)
    ensures AllValid(RenameStates(states, path, newName, scene))
  {
    if FindSubjectByPath(states, path).Some? {
      RemoveSubjectKeeps(states, path);
      var r := RenameStates(states, path, newName, scene);
      var rest := RemoveSubjectStates(states, path);
      forall k | 0 <= k < |r|
        ensures StateValid(r[k])
      {
        if k < |rest| {
          assert r[k] == rest[k];
        }
      }
    }
  }

  // ---------------------------------------------------------------- stream type

  /** ChangeStreamType: SetStreamType on the first subject with the path, which may be the hidden active camera. */
  function ChangeStreamTypeStates(states: seq<SubjectState>, path: string, streamType: string, scene: Scene): seq<SubjectState>
    requires AllValid(states)
  {
    match FindSubjectByPath(states, path)
    case None => states
    case Some(i) => states[i := ModeChanged(states[i], streamType, scene)]
  }

  function ChangeStreamTypeEvents(states: seq<SubjectState>, path: string, streamType: string, scene: Scene): seq<Event>
    requires AllValid(states)
  {
    match FindSubjectByPath(states, path)
    case None => []
    case Some(i) => ModeChangeEvents(states[i], streamType, scene)
  }

  /**
   * ChangeStreamType changes at most the first subject with the path, keeps
   * every invariant, and does nothing for an unknown path.
   */
  lemma ChangeStreamTypeSpec(states: seq<SubjectState>, path: string, streamType: string, scene: Scene)
    requires AllValid(states)
    ensures var r := ChangeStreamTypeStates(states, path, streamType, scene);
      |r| == |states| && AllValid(r) &&
      forall k :: 0 <= k < |states| && FindSubjectByPath(states, path) != Some(k) ==> r[k] == states[k]
    ensures FindSubjectByPath(states, path).None? ==>
      ChangeStreamTypeStates(states, path, streamType, scene) == states &&
      ChangeStreamTypeEvents(states, path, streamType, scene) == []
  {
    match FindSubjectByPath(states, path)
    case None =>
    case Some(i) =>
      SetStreamTypeSpec(states[i], streamType, scene);
  }

  /**
   * Lookup and removal pick different subjects: with the active camera
   * looking through a camera that is also a subject, ChangeStreamType acts
   * on the hidden active camera while RemoveSubject removes the visible one.
   */
  lemma LookupAndRemovalDiffer(cam: string, scene: Scene)
    ensures var states := [SubjectState(ActiveCamera, ActiveCameraName, cam, RoleSpecific, []),
                           SubjectState(CameraSubject, "cam", cam, RoleSpecific, [])];
      FindSubjectByPath(states, cam) == Some(0) &&
      LastVisibleMatch(states, cam, |states|) == Some(1)
  {
  }

  // ---------------------------------------------------------------- listings

  datatype Column = Names | Paths | Roles | Types

  /** The entry one subject contributes to a listing. */
  function DisplayText(st: SubjectState, column: Column): string
    requires ModeAllowed(st.kind, st.mode)
  {
    match column
    case Names => st.name
    case Paths => st.path
    case Roles => RoleDisplayText(st.kind, st.mode)
    case Types => TypeDisplayText(st.kind)
  }

  /** The subjects shown in the UI, in list order. */
  function Visible(states: seq<SubjectState>): (r: seq<SubjectState>)
    ensures forall st :: st in r <==> st in states && ShouldDisplayInUI(st.kind)
  {
    if |states| == 0 then []
    else
      var last := states[|states| - 1];
      assert states == states[..|states| - 1] + [last];
      Visible(states[..|states| - 1]) + (if ShouldDisplayInUI(last.kind) then [last] else [])
  }

  /** GetSubjectNames/Paths/Roles/Types: one entry per UI-visible subject. */
  function Listing(states: seq<SubjectState>, column: Column): seq<string>
    requires AllValid(states)
  {
    if |states| == 0 then []
    else
      var last := states[|states| - 1];
      Listing(states[..|states| - 1], column) +
      (if ShouldDisplayInUI(last.kind) then [DisplayText(last, column)] else [])
  }

  /**
   * The k-th entry of every listing describes the k-th visible subject, so
   * the four UI lists line up row by row and never show the active camera.
   */
  lemma {:induction false} ListingIsVisible(states: seq<SubjectState>, column: Column)
    requires AllValid(states)
    ensures |Listing(states, column)| == |Visible(states)|
    ensures forall k :: 0 <= k < |Visible(states)| ==>
      ModeAllowed(Visible(states)[k].kind, Visible(states)[k].mode) &&
      Listing(states, column)[k] == DisplayText(Visible(states)[k], column)
    decreases |states|
  {
    if |states| > 0 {
      var init := states[..|states| - 1];
      assert AllValid(init);
      ListingIsVisible(init, column);
      forall st | st in Visible(states)
        ensures StateValid(st)
      {
      }
    }
  }

  // ---------------------------------------------------------------- whole-registry passes

  /** Every subject's schema, in list order (RebuildSubjects after pruning). */
  function AllSchemaEvents(states: seq<SubjectState>, scene: Scene): seq<Event>
    requires AllValid(states)
  {
    if |states| == 0 then []
    else AllSchemaEvents(states[..|states| - 1], scene) + [Schema(states[|states| - 1], scene)]
  }

  function RebuiltAll(states: seq<SubjectState>, scene: Scene): (r: seq<SubjectState>)
    ensures |r| == |states|
  {
    seq(|states|, i requires 0 <= i < |states| => Rebuilt(states[i], scene))
  }

  /** Every subject's frame, in list order (StreamSubjects). */
  function AllFrameEvents(states: seq<SubjectState>, scene: Scene, time: real): seq<Event>
    requires AllValid(states)
  {
    if |states| == 0 then []
    else
      var last := states[|states| - 1];
      TransitionsKeepValid(last, scene);
      AllFrameEvents(states[..|states| - 1], scene, time) + FrameEvents(Streamed(last, scene), scene, time)
  }

  /** Streaming every subject sends at most one frame per subject. */
  lemma {:induction false} AllFramesAtMostOne(states: seq<SubjectState>, scene: Scene, time: real)
    requires AllValid(states)
    ensures |AllFrameEvents(states, scene, time)| <= |states|
    decreases |states|
  {
    if |states| > 0 {
      var last := states[|states| - 1];
      TransitionsKeepValid(last, scene);
      FramesFitSchema(Streamed(last, scene), scene, time);
      AllFramesAtMostOne(states[..|states| - 1], scene, time);
    }
  }

  function StreamedAll(states: seq<SubjectState>, scene: Scene): (r: seq<SubjectState>)
    ensures |r| == |states|
  {
    seq(|states|, i requires 0 <= i < |states| => Streamed(states[i], scene))
  }

  /** Reset's destructors, one per subject in list order. */
  function RemovedEvents(states: seq<SubjectState>): (r: seq<Event>)
    ensures |r| == |states|
  {
    seq(|states|, i requires 0 <= i < |states| => SubjectRemoved(states[i].name))
  }

  /** The registry after Reset: the active camera alone. */
  function ResetStates(scene: Scene): seq<SubjectState> {
    [CreatedState(ActiveCamera, ActiveCameraName, NoPath, scene)]
  }

  /**
   * After Reset the active camera is the one subject, the UI lists are
   * empty, and no RemoveSubject can remove the active camera, which is hidden.
   */
  lemma ResetSpec(scene: Scene, path: string, column: Column)
    ensures AllValid(ResetStates(scene)) && OneActiveCamera(ResetStates(scene))
    ensures Listing(ResetStates(scene), column) == []
    ensures RemoveSubjectStates(ResetStates(scene), path) == ResetStates(scene)
    ensures RemoveSubjectEvents(ResetStates(scene), path) == []
  {
    var s := ResetStates(scene);
    assert s[..0] == [];
  }

  /** A rebuild and a stream keep every invariant of the list. */
  lemma PassesKeepValid(states: seq<SubjectState>, scene: Scene)
    requires AllValid(states)
    ensures AllValid(RebuiltAll(states, scene)) && AllValid(StreamedAll(states, scene))
    ensures forall k :: 0 <= k < |states| ==>
      RebuiltAll(states, scene)[k].name == states[k].name && StreamedAll(states, scene)[k].name == states[k].name
  {
    forall k | 0 <= k < |states|
      ensures StateValid(RebuiltAll(states, scene)[k]) && StateValid(StreamedAll(states, scene)[k])
    {
      TransitionsKeepValid(states[k], scene);
    }
  }

  // ---------------------------------------------------------------- the active camera

  /** The number of active camera subjects in the list. */
  function ActiveCameras(states: seq<SubjectState>): nat {
    if |states| == 0 then 0
    else ActiveCameras(states[..|states| - 1]) + (if states[|states| - 1].kind == ActiveCamera then 1 else 0)
  }

  /** The registry's invariant from Reset on: exactly one active camera. */
  predicate OneActiveCamera(states: seq<SubjectState>) {
    ActiveCameras(states) == 1
  }

  /** The active camera is at `i` and nowhere else. */
  predicate OnlyActiveCameraAt(states: seq<SubjectState>, i: nat) {
    i < |states| && states[i].kind == ActiveCamera &&
    forall j :: 0 <= j < |states| && j != i ==> states[j].kind != ActiveCamera
  }

  /** Exactly one active camera means one index holds it and no other does. */
  lemma OneActiveCameraAt(states: seq<SubjectState>)
    ensures OneActiveCamera(states) <==> exists i: nat :: OnlyActiveCameraAt(states, i)
  {
    if OneActiveCamera(states) {
      OneActiveCameraFound(states);
    }
    if exists i: nat :: OnlyActiveCameraAt(states, i) {
      var i: nat :| OnlyActiveCameraAt(states, i);
      assert states == states[..i] + [states[i]] + states[i + 1..];
      ActiveCamerasAppend(states[..i] + [states[i]], states[i + 1..]);
      ActiveCamerasAppend(states[..i], [states[i]]);
      NoActiveCameraNone(states[..i]);
      NoActiveCameraNone(states[i + 1..]);
    }
  }

  lemma {:induction false} OneActiveCameraFound(states: seq<SubjectState>)
    requires OneActiveCamera(states)
    ensures exists i: nat :: OnlyActiveCameraAt(states, i)
    decreases |states|
  {
    var n := |states| - 1;
    var init := states[..n];
    assert forall j :: 0 <= j < n ==> states[j] == init[j];
    if states[n].kind == ActiveCamera {
      NoActiveCameraNone(init);
      assert OnlyActiveCameraAt(states, n);
    } else {
      OneActiveCameraFound(init);
      var i: nat :| OnlyActiveCameraAt(init, i);
      assert OnlyActiveCameraAt(states, i);
    }
  }

  /** A list without an active camera counts none. */
  lemma {:induction false} NoActiveCameraNone(states: seq<SubjectState>)
    ensures ActiveCameras(states) == 0 <==> forall j :: 0 <= j < |states| ==> states[j].kind != ActiveCamera
    decreases |states|
  {
    if |states| > 0 {
      var init := states[..|states| - 1];
      NoActiveCameraNone(init);
      assert forall j :: 0 <= j < |init| ==> init[j] == states[j];
    }
  }

  lemma {:induction false} ActiveCamerasAppend(a: seq<SubjectState>, b: seq<SubjectState>)
    ensures ActiveCameras(a + b) == ActiveCameras(a) + ActiveCameras(b)
    decreases |b|
  {
    if |b| == 0 {
      assert a + b == a;
    } else {
      var ab := a + b;
      assert ab[..|ab| - 1] == a + b[..|b| - 1];
      ActiveCamerasAppend(a, b[..|b| - 1]);
    }
  }

  /** Lists with the same kinds, position by position, count the same active cameras. */
  lemma {:induction false} ActiveCamerasSameKinds(a: seq<SubjectState>, b: seq<SubjectState>)
    requires |a| == |b| && forall k :: 0 <= k < |a| ==> a[k].kind == b[k].kind
    ensures ActiveCameras(a) == ActiveCameras(b)
    decreases |a|
  {
    if |a| > 0 {
      ActiveCamerasSameKinds(a[..|a| - 1], b[..|b| - 1]);
    }
  }

  /** RemoveSubject never removes the active camera: the count is kept. */
  lemma RemoveSubjectKeepsActiveCamera(states: seq<SubjectState>, path: string)
    ensures ActiveCameras(RemoveSubjectStates(states, path)) == ActiveCameras(states)
  {
    match LastVisibleMatch(states, path, |states|)
    case None =>
    case Some(i) =>
      assert states == states[..i] + [states[i]] + states[i + 1..];
      ActiveCamerasAppend(states[..i] + [states[i]], states[i + 1..]);
      ActiveCamerasAppend(states[..i], [states[i]]);
      ActiveCamerasAppend(states[..i], states[i + 1..]);
  }

  /** Pruning never drops the active camera, which always validates. */
  lemma {:induction false} SurvivorsKeepActiveCamera(states: seq<SubjectState>, scene: Scene)
    ensures ActiveCameras(Survivors(states, scene)) == ActiveCameras(states)
    decreases |states|
  {
    if |states| > 0 {
      var init := states[..|states| - 1];
      var last := states[|states| - 1];
      SurvivorsKeepActiveCamera(init, scene);
      ActiveCamerasAppend(Survivors(init, scene), if ValidateSubject(last, scene) then [last] else []);
      assert ActiveCameras([last]) == (if last.kind == ActiveCamera then 1 else 0);
    }
  }

  /** Appending a subject of some kind adds one active camera exactly when the kind is the active camera. */
  lemma AppendActiveCamera(states: seq<SubjectState>, st: SubjectState)
    ensures ActiveCameras(states + [st]) == ActiveCameras(states) + (if st.kind == ActiveCamera then 1 else 0)
  {
    assert (states + [st])[..|states|] == states;
  }

  /** Renaming recreates a joint, camera, light or prop, never an active camera: the count is kept. */
  lemma RenameKeepsActiveCamera(states: seq<SubjectState>, path: string, newName: string, scene: Scene)
    ensures ActiveCameras(RenameStates(states, path, newName, scene)) == ActiveCameras(states)
  {
    RemoveSubjectKeepsActiveCamera(states, path);
    if FindSubjectByPath(states, path).Some? {
      AppendActiveCamera(RemoveSubjectStates(states, path),
                         CreatedState(KindForNode(scene.fnTypes(path)), newName, path, scene));
    }
  }

  /** Changing a stream type keeps every kind, so the count is kept. */
  lemma ChangeStreamTypeKeepsActiveCamera(states: seq<SubjectState>, path: string, streamType: string, scene: Scene)
    requires AllValid(states)
    ensures ActiveCameras(ChangeStreamTypeStates(states, path, streamType, scene)) == ActiveCameras(states)
  {
    ActiveCamerasSameKinds(ChangeStreamTypeStates(states, path, streamType, scene), states);
  }

  /** Rebuilding and streaming keep every kind, so the count is kept. */
  lemma PassesKeepActiveCamera(states: seq<SubjectState>, scene: Scene)
    ensures ActiveCameras(RebuiltAll(states, scene)) == ActiveCameras(states)
    ensures ActiveCameras(StreamedAll(states, scene)) == ActiveCameras(states)
  {
    ActiveCamerasSameKinds(RebuiltAll(states, scene), states);
    ActiveCamerasSameKinds(StreamedAll(states, scene), states);
  }

  // ---------------------------------------------------------------- the manager

  /** The states of a list of subjects, in list order. */
  function StatesOf(ss: seq<Subject>): (r: seq<SubjectState>)
    reads ss
    ensures |r| == |ss| && forall i :: 0 <= i < |ss| ==> r[i] == ss[i].State()
  {
    seq(|ss|, i requires 0 <= i < |ss| reads ss => ss[i].State())
  }

  predicate Distinct(ss: seq<Subject>) {
    forall i, j :: 0 <= i < |ss| && 0 <= j < |ss| && i != j ==> ss[i] != ss[j]
  }

  /** Removing the subject at `i` removes its state at `i` and keeps the others distinct. */
  lemma RemoveAtFacts(ss: seq<Subject>, i: nat)
    requires i < |ss|
    ensures StatesOf(ss[..i] + ss[i + 1..]) == StatesOf(ss)[..i] + StatesOf(ss)[i + 1..]
    ensures Distinct(ss) ==> Distinct(ss[..i] + ss[i + 1..])
    ensures forall s :: s in ss[..i] + ss[i + 1..] ==> s in ss
  {
    var r := ss[..i] + ss[i + 1..];
    assert forall k :: 0 <= k < |r| ==> r[k] == ss[if k < i then k else k + 1];
  }

  lemma StreamedStep(states: seq<SubjectState>, i: nat, scene: Scene)
    requires i < |states|
    ensures (StreamedAll(states[..i], scene) + states[i..])[i] == states[i]
    ensures StreamedAll(states[..i + 1], scene) + states[i + 1..] ==
            (StreamedAll(states[..i], scene) + states[i..])[i := Streamed(states[i], scene)]
  {
  }

  lemma FrameEventsStep(states: seq<SubjectState>, i: nat, scene: Scene, time: real)
    requires AllValid(states) && i < |states|
    ensures AllValid(states[..i]) && AllValid(states[..i + 1]) && StateValid(Streamed(states[i], scene))
    ensures AllFrameEvents(states[..i + 1], scene, time) ==
            AllFrameEvents(states[..i], scene, time) + FrameEvents(Streamed(states[i], scene), scene, time)
  {
    assert states[..i + 1][..i] == states[..i];
    TransitionsKeepValid(states[i], scene);
  }

  lemma RebuiltStep(states: seq<SubjectState>, i: nat, scene: Scene)
    requires i < |states|
    ensures (RebuiltAll(states[..i], scene) + states[i..])[i] == states[i]
    ensures RebuiltAll(states[..i + 1], scene) + states[i + 1..] ==
            (RebuiltAll(states[..i], scene) + states[i..])[i := Rebuilt(states[i], scene)]
  {
  }

  lemma SchemaEventsStep(states: seq<SubjectState>, i: nat, scene: Scene)
    requires AllValid(states) && i < |states|
    ensures AllValid(states[..i]) && AllValid(states[..i + 1])
    ensures AllSchemaEvents(states[..i + 1], scene) ==
            AllSchemaEvents(states[..i], scene) + [Schema(states[i], scene)]
  {
    assert states[..i + 1][..i] == states[..i];
  }

  /** One step of ValidateSubjects on states: the state at `i` survives exactly when it validates. */
  lemma SurvivorsStep(states: seq<SubjectState>, i: nat, scene: Scene)
    requires i < |states|
    ensures Survivors(states[..i + 1], scene) == Survivors(states[..i], scene) +
      (if ValidateSubject(states[i], scene) then [states[i]] else [])
    ensures PruneEvents(states[..i + 1], scene) == PruneEvents(states[..i], scene) +
      (if ValidateSubject(states[i], scene) then [] else [SubjectRemoved(states[i].name)])
  {
    assert states[..i + 1][..i] == states[..i];
  }

  lemma StatesOfAppend(ss: seq<Subject>, s: Subject)
    ensures StatesOf(ss + [s]) == StatesOf(ss) + [s.State()]
  {
  }

  /** Keeping the subject at `i` after some of those before it keeps the kept list distinct. */
  lemma KeepStep(ss: seq<Subject>, kept: seq<Subject>, i: nat)
    requires i < |ss| && Distinct(ss)
    requires Distinct(kept) && forall k :: 0 <= k < |kept| ==> kept[k] in ss[..i]
    ensures Distinct(kept + [ss[i]]) && forall k :: 0 <= k < |kept| + 1 ==> (kept + [ss[i]])[k] in ss[..i + 1]
  {
    forall k | 0 <= k < |kept|
      ensures kept[k] != ss[i] && kept[k] in ss[..i + 1]
    {
      var j :| 0 <= j < i && ss[..i][j] == kept[k];
      assert ss[..i + 1][j] == kept[k];
    }
    assert ss[..i + 1][i] == ss[i];
  }

  /** The filtering pass after the subjects before `i`: `kept` holds those that validate, `removed` the others' destructor calls. */
  ghost predicate SelectedUpTo(ss: seq<Subject>, states: seq<SubjectState>, kept: seq<Subject>, removed: seq<Event>, i: nat, scene: Scene)
    reads kept
    requires i <= |ss| && i <= |states|
  {
    StatesOf(kept) == Survivors(states[..i], scene) && removed == PruneEvents(states[..i], scene) &&
    Distinct(kept) && forall k :: 0 <= k < |kept| ==> kept[k] in ss[..i]
  }

  /** One step of the filtering pass: keeping or dropping `ss[i]` extends the pass to `i + 1`. */
  lemma SelectStep(ss: seq<Subject>, states: seq<SubjectState>, kept: seq<Subject>, removed: seq<Event>, i: nat, scene: Scene)
    requires states == StatesOf(ss) && i < |ss| && Distinct(ss)
    requires SelectedUpTo(ss, states, kept, removed, i, scene)
    ensures ValidateSubject(states[i], scene) ==> SelectedUpTo(ss, states, kept + [ss[i]], removed, i + 1, scene)
    ensures !ValidateSubject(states[i], scene) ==>
      SelectedUpTo(ss, states, kept, removed + [SubjectRemoved(ss[i].name)], i + 1, scene)
  {
    SurvivorsStep(states, i, scene);
    if ValidateSubject(states[i], scene) {
      StatesOfAppend(kept, ss[i]);
      KeepStep(ss, kept, i);
    } else {
      assert ss[..i + 1] == ss[..i] + [ss[i]];
    }
  }

  /** The filtering pass over every subject keeps exactly the survivors and logs exactly the pruning. */
  lemma SelectDone(ss: seq<Subject>, states: seq<SubjectState>, kept: seq<Subject>, removed: seq<Event>, scene: Scene)
    requires states == StatesOf(ss) && AllValid(states) && SelectedUpTo(ss, states, kept, removed, |ss|, scene)
    ensures StatesOf(kept) == Survivors(states, scene) && AllValid(StatesOf(kept))
    ensures removed == PruneEvents(states, scene)
    ensures Distinct(kept) && forall k :: 0 <= k < |kept| ==> kept[k] in ss
  {
    assert states[..|ss|] == states && ss[..|ss|] == ss;
  }

  /** Appending a new subject, while the listed ones stay unchanged, appends its state. */
  twostate lemma AppendFresh(ss: seq<Subject>, new s: Subject)
    requires Distinct(ss) && s !in ss
    requires forall k :: 0 <= k < |ss| ==> unchanged(ss[k])
    ensures Distinct(ss + [s])
    ensures StatesOf(ss + [s]) == old(StatesOf(ss)) + [s.State()]
  {
  }

  /** The end of a pass over every subject: the prefix is the whole list. */
  lemma PassDone(states: seq<SubjectState>, scene: Scene)
    requires AllValid(states)
    ensures states[..|states|] == states
    ensures RebuiltAll(states[..|states|], scene) + states[|states|..] == RebuiltAll(states, scene)
    ensures StreamedAll(states[..|states|], scene) + states[|states|..] == StreamedAll(states, scene)
    ensures AllValid(RebuiltAll(states, scene)) && AllValid(StreamedAll(states, scene))
  {
    assert states[..|states|] == states;
    PassesKeepValid(states, scene);
  }

  /** One more subject extends each listing by its entry when it is shown in the UI. */
  lemma ListingStep(states: seq<SubjectState>, i: nat, column: Column)
    requires AllValid(states) && i < |states|
    ensures AllValid(states[..i]) && AllValid(states[..i + 1])
    ensures Listing(states[..i + 1], column) == Listing(states[..i], column) +
      (if ShouldDisplayInUI(states[i].kind) then [DisplayText(states[i], column)] else [])
  {
    assert states[..i + 1][..i] == states[..i];
  }

  lemma AppendAssoc<T>(a: seq<T>, b: seq<T>, c: seq<T>)
    ensures (a + b) + c == a + (b + c)
  {
  }

  class SubjectManager {
    var subjects: seq<Subject>
    const provider: Provider

    /** The subjects are distinct objects, each keeping its own invariant. */
    predicate Valid()
      reads this, subjects
    {
      Distinct(subjects) && AllValid(StatesOf(subjects))
    }

    function States(): seq<SubjectState>
      reads this, subjects
    {
      StatesOf(subjects)
    }

    /** The manager's constructor calls Reset. */
    constructor (provider: Provider, scene: Scene, time: real)
      modifies provider
      ensures Valid() && this.provider == provider
      ensures States() == ResetStates(scene) && OneActiveCamera(States())
      ensures provider.log == old(provider.log) + CreationEvents(ActiveCamera, ActiveCameraName, NoPath, scene, time)
    {
      this.provider := provider;
      subjects := [];
      new;
      Reset(scene, time);
    }

    /** AddSubjectOfType (and the four Add*Subject wrappers, each at a fixed kind). */
    method AddSubjectOfType(kind: Kind, name: string, path: string, scene: Scene, time: real)
      requires Valid()
      modifies this, provider
      ensures Valid()
      ensures States() == old(States()) + [CreatedState(kind, name, path, scene)]
      ensures provider.log == old(provider.log) + CreationEvents(kind, name, path, scene, time)
      ensures |subjects| == |old(subjects)| + 1 && subjects[..|old(subjects)|] == old(subjects)
      ensures fresh(subjects[|subjects| - 1])
      ensures ActiveCameras(States()) == ActiveCameras(old(States())) + (if kind == ActiveCamera then 1 else 0)
    {
      ghost var before := States();
      var subject := CreateSubject(kind, name, path, scene, time);
      AppendFresh(subjects, subject);
      subjects := subjects + [subject];
      assert subjects[..|old(subjects)|] == old(subjects);
      AppendActiveCamera(before, CreatedState(kind, name, path, scene));
    }

    /** AddJointHeirarchySubject. */
    method AddJointHierarchySubject(name: string, rootPath: string, scene: Scene, time: real)
      requires Valid()
      modifies this, provider
      ensures Valid()
      ensures States() == old(States()) + [CreatedState(JointHierarchy, name, rootPath, scene)]
      ensures provider.log == old(provider.log) + CreationEvents(JointHierarchy, name, rootPath, scene, time)
      ensures ActiveCameras(States()) == ActiveCameras(old(States()))
    {
      AddSubjectOfType(JointHierarchy, name, rootPath, scene, time);
    }

    /** AddCameraSubject. */
    method AddCameraSubject(name: string, rootPath: string, scene: Scene, time: real)
      requires Valid()
      modifies this, provider
      ensures Valid()
      ensures States() == old(States()) + [CreatedState(CameraSubject, name, rootPath, scene)]
      ensures provider.log == old(provider.log) + CreationEvents(CameraSubject, name, rootPath, scene, time)
      ensures ActiveCameras(States()) == ActiveCameras(old(States()))
    {
      AddSubjectOfType(CameraSubject, name, rootPath, scene, time);
    }

    /** AddLightSubject. */
    method AddLightSubject(name: string, rootPath: string, scene: Scene, time: real)
      requires Valid()
      modifies this, provider
      ensures Valid()
      ensures States() == old(States()) + [CreatedState(LightSubject, name, rootPath, scene)]
      ensures provider.log == old(provider.log) + CreationEvents(LightSubject, name, rootPath, scene, time)
      ensures ActiveCameras(States()) == ActiveCameras(old(States()))
    {
      AddSubjectOfType(LightSubject, name, rootPath, scene, time);
    }

    /** AddPropSubject. */
    method AddPropSubject(name: string, rootPath: string, scene: Scene, time: real)
      requires Valid()
      modifies this, provider
      ensures Valid()
      ensures States() == old(States()) + [CreatedState(PropSubject, name, rootPath, scene)]
      ensures provider.log == old(provider.log) + CreationEvents(PropSubject, name, rootPath, scene, time)
      ensures ActiveCameras(States()) == ActiveCameras(old(States()))
    {
      AddSubjectOfType(PropSubject, name, rootPath, scene, time);
    }

    /**
     * GetSubjectNames, GetSubjectPaths, GetSubjectRoles and GetSubjectTypes:
     * append to the caller's entries the column's text of every subject shown
     * in the UI, in list order.
     */
    method GetSubjectEntries(column: Column, entries: seq<string>) returns (r: seq<string>)
      requires Valid()
      ensures r == entries + Listing(States(), column)
    {
      ghost var states := States();
      r := entries;
      for i := 0 to |subjects|
        invariant AllValid(states[..i])
        invariant r == entries + Listing(states[..i], column)
      {
        ListingStep(states, i, column);
        if ShouldDisplayInUI(subjects[i].kind) {
          var text := DisplayText(subjects[i].State(), column);
          assert subjects[i].State() == states[i];
          AppendAssoc(entries, Listing(states[..i], column), [text]);
          r := r + [text];
        }
      }
      assert states[..|subjects|] == states;
    }

    /** The first half of AddSubjectOfType: construct the subject, rebuild it and stream its first frame. */
    method CreateSubject(kind: Kind, name: string, path: string, scene: Scene, time: real) returns (subject: Subject)
      modifies provider
      ensures fresh(subject) && subject.State() == CreatedState(kind, name, path, scene)
      ensures provider.log == old(provider.log) + CreationEvents(kind, name, path, scene, time)
    {
      subject := new Subject(kind, name, path);
      subject.RebuildSubjectData(scene, provider);
      subject.OnStream(scene, time, provider);
      AppendAssoc(old(provider.log), [Schema(NewState(kind, name, path), scene)],
                  FrameEvents(CreatedState(kind, name, path, scene), scene, time));
    }

    /** RemoveSubject: scan from the end and remove the first UI-visible subject with the path. */
    method RemoveSubject(pathOfSubjectToRemove: string)
      requires Valid()
      modifies this, provider
      ensures Valid()
      ensures States() == RemoveSubjectStates(old(States()), pathOfSubjectToRemove)
      ensures provider.log == old(provider.log) + RemoveSubjectEvents(old(States()), pathOfSubjectToRemove)
      ensures forall s :: s in subjects ==> s in old(subjects)
      ensures ActiveCameras(States()) == ActiveCameras(old(States()))
    {
      ghost var states := States();
      RemoveSubjectKeepsActiveCamera(states, pathOfSubjectToRemove);
      var index := |subjects| - 1;
      while index >= 0
        invariant -1 <= index < |subjects|
        invariant subjects == old(subjects) && provider.log == old(provider.log)
        invariant LastVisibleMatch(states, pathOfSubjectToRemove, |states|) ==
                  LastVisibleMatch(states, pathOfSubjectToRemove, index + 1)
        decreases index
      {
        if ShouldDisplayInUI(subjects[index].kind) && subjects[index].path == pathOfSubjectToRemove {
          RemoveSubjectSpec(states, pathOfSubjectToRemove, index);
          RemoveAt(index);
          return;
        }
        index := index - 1;
      }
    }

    /** The removal of the subject at `index` from the list, and its destructor. */
    method RemoveAt(index: nat)
      requires Valid() && index < |subjects|
      modifies this, provider
      ensures Valid()
      ensures States() == old(States()[..index] + States()[index + 1..])
      ensures provider.log == old(provider.log) + [SubjectRemoved(old(subjects[index].name))]
      ensures forall s :: s in subjects ==> s in old(subjects)
    {
      var removed := subjects[index];
      var remaining := subjects[..index] + subjects[index + 1..];
      RemoveAtFacts(subjects, index);
      ghost var remainingStates := StatesOf(remaining);
      provider.log := provider.log + [SubjectRemoved(removed.name)];
      subjects := remaining;
      assert States() == remainingStates;
    }

    /** ChangeSubjectName: look the subject up, remove it, and recreate it under the new name. */
    method ChangeSubjectName(subjectDagPath: string, newName: string, scene: Scene, time: real)
      requires Valid()
      modifies this, provider
      ensures Valid()
      ensures States() == RenameStates(old(States()), subjectDagPath, newName, scene)
      ensures provider.log == old(provider.log) + RenameEvents(old(States()), subjectDagPath, newName, scene, time)
      ensures ActiveCameras(States()) == ActiveCameras(old(States()))
    {
      RenameKeepsActiveCamera(States(), subjectDagPath, newName, scene);
      var found := FindSubjectByPath(States(), subjectDagPath);
      if found.Some? {
        var pathBackup := subjects[found.value].path;
        ghost var removedEvents := RemoveSubjectEvents(States(), subjectDagPath);
        RemoveSubject(subjectDagPath);
        AddSubjectOfType(KindForNode(scene.fnTypes(pathBackup)), newName, pathBackup, scene, time);
        AppendAssoc(old(provider.log), removedEvents,
                    CreationEvents(KindForNode(scene.fnTypes(pathBackup)), newName, pathBackup, scene, time));
      }
    }

    /** ChangeStreamType: SetStreamType on the subject the lookup finds. */
    method ChangeStreamType(subjectPath: string, streamType: string, scene: Scene)
      requires Valid()
      modifies subjects, provider
      ensures Valid() && subjects == old(subjects)
      ensures States() == ChangeStreamTypeStates(old(States()), subjectPath, streamType, scene)
      ensures provider.log == old(provider.log) + ChangeStreamTypeEvents(old(States()), subjectPath, streamType, scene)
      ensures ActiveCameras(States()) == ActiveCameras(old(States()))
    {
      ghost var states := States();
      var found := FindSubjectByPath(States(), subjectPath);
      if found.Some? {
        SetStreamTypeOne(found.value, streamType, scene);
        ChangeStreamTypeSpec(states, subjectPath, streamType, scene);
      }
      ChangeStreamTypeKeepsActiveCamera(states, subjectPath, streamType, scene);
    }

    /** SetStreamType on the subject at `i`; no other subject changes. */
    method SetStreamTypeOne(i: nat, streamType: string, scene: Scene)
      requires Distinct(subjects) && i < |subjects| && StateValid(subjects[i].State())
      modifies subjects[i], provider
      ensures StatesOf(subjects) == old(StatesOf(subjects))[i := ModeChanged(old(subjects[i].State()), streamType, scene)]
      ensures provider.log == old(provider.log) + ModeChangeEvents(old(subjects[i].State()), streamType, scene)
    {
      ghost var before := StatesOf(subjects);
      subjects[i].SetStreamType(streamType, scene, provider);
      assert forall k :: 0 <= k < |subjects| && k != i ==> StatesOf(subjects)[k] == before[k];
    }

    /** ValidateSubjects: RemoveAll of the subjects whose ValidateSubject fails. */
    method ValidateSubjects(scene: Scene)
      requires Valid()
      modifies this, provider
      ensures Valid()
      ensures States() == Survivors(old(States()), scene)
      ensures provider.log == old(provider.log) + PruneEvents(old(States()), scene)
      ensures forall k :: 0 <= k < |subjects| ==> subjects[k] in old(subjects)
      ensures ActiveCameras(States()) == ActiveCameras(old(States()))
    {
      ghost var before := States();
      var kept, removed := SelectSurvivors(scene);
      ghost var keptStates := StatesOf(kept);
      // the destructors of the pruned subjects, in list order
      provider.log := provider.log + removed;
      subjects := kept;
      assert States() == keptStates;
      SurvivorsKeepActiveCamera(before, scene);
    }

    /** The filtering pass of RemoveAll: the subjects that validate, and the destructor calls of the others. */
    method SelectSurvivors(scene: Scene) returns (kept: seq<Subject>, ghost removed: seq<Event>)
      requires Valid()
      ensures StatesOf(kept) == Survivors(States(), scene) && AllValid(StatesOf(kept))
      ensures removed == PruneEvents(States(), scene)
      ensures Distinct(kept) && forall k :: 0 <= k < |kept| ==> kept[k] in subjects
    {
      ghost var states := States();
      removed := [];
      kept := [];
      var i := 0;
      while i < |subjects|
        invariant 0 <= i <= |subjects|
        invariant SelectedUpTo(subjects, states, kept, removed, i, scene)
      {
        SelectStep(subjects, states, kept, removed, i, scene);
        assert subjects[i].State() == states[i];
        if ValidateSubject(subjects[i].State(), scene) {
          kept := kept + [subjects[i]];
        } else {
          removed := removed + [SubjectRemoved(subjects[i].name)];
        }
        i := i + 1;
      }
      SelectDone(subjects, states, kept, removed, scene);
    }

    /** Reset: destroy every subject, then add the active camera. */
    method Reset(scene: Scene, time: real)
      modifies this, provider
      ensures Valid()
      ensures States() == ResetStates(scene) && OneActiveCamera(States())
      ensures provider.log == old(provider.log) + RemovedEvents(old(States())) +
                              CreationEvents(ActiveCamera, ActiveCameraName, NoPath, scene, time)
    {
      ghost var states := States();
      for i := 0 to |subjects|
        invariant provider.log == old(provider.log) + RemovedEvents(states[..i])
      {
        provider.log := provider.log + [SubjectRemoved(subjects[i].name)];
        assert RemovedEvents(states[..i + 1]) == RemovedEvents(states[..i]) + [SubjectRemoved(states[i].name)];
      }
      assert states[..|subjects|] == states;
      subjects := [];
      AddSubjectOfType(ActiveCamera, ActiveCameraName, NoPath, scene, time);
      ResetSpec(scene, NoPath, Names);
    }

    /** One step of RebuildSubjects: RebuildSubjectData on the subject at `i`, the others unchanged. */
    method RebuildStep(ghost states: seq<SubjectState>, ghost logBefore: seq<Event>, i: nat, scene: Scene)
      requires Distinct(subjects) && AllValid(states) && i < |states| == |subjects|
      requires StatesOf(subjects) == RebuiltAll(states[..i], scene) + states[i..]
      requires provider.log == logBefore + AllSchemaEvents(states[..i], scene)
      modifies subjects[i], provider
      ensures StatesOf(subjects) == RebuiltAll(states[..i + 1], scene) + states[i + 1..]
      ensures AllValid(states[..i + 1])
      ensures provider.log == logBefore + AllSchemaEvents(states[..i + 1], scene)
    {
      RebuiltStep(states, i, scene);
      SchemaEventsStep(states, i, scene);
      assert subjects[i].State() == states[i];
      RebuildOne(i, scene);
      AppendAssoc(logBefore, AllSchemaEvents(states[..i], scene), [Schema(states[i], scene)]);
    }

    /** RebuildSubjectData on the subject at `i`; the other subjects keep their state. */
    method RebuildOne(i: nat, scene: Scene)
      requires Distinct(subjects) && i < |subjects| && StateValid(subjects[i].State())
      modifies subjects[i], provider
      ensures StatesOf(subjects) == old(StatesOf(subjects))[i := Rebuilt(old(subjects[i].State()), scene)]
      ensures provider.log == old(provider.log) + [Schema(old(subjects[i].State()), scene)]
    {
      ghost var before := StatesOf(subjects);
      subjects[i].RebuildSubjectData(scene, provider);
      assert forall k :: 0 <= k < |subjects| && k != i ==> StatesOf(subjects)[k] == before[k];
    }

    /** RebuildSubjects: prune, then republish the schema of every survivor. */
    method RebuildSubjects(scene: Scene)
      requires Valid()
      modifies this, provider, subjects
      ensures Valid()
      ensures States() == RebuiltAll(Survivors(old(States()), scene), scene)
      ensures provider.log == old(provider.log) + PruneEvents(old(States()), scene) +
                              AllSchemaEvents(Survivors(old(States()), scene), scene)
      ensures ActiveCameras(States()) == ActiveCameras(old(States()))
    {
      SurvivorsKeepActiveCamera(States(), scene);
      PassesKeepActiveCamera(Survivors(States(), scene), scene);
      ValidateSubjects(scene);
      assert forall k :: 0 <= k < |subjects| ==> subjects[k] in old(subjects);
      RebuildEach(scene);
    }

    /** The loop of RebuildSubjects: one RebuildSubjectData per subject, in list order. */
    method RebuildEach(scene: Scene)
      requires Valid()
      modifies provider, subjects
      ensures Valid() && subjects == old(subjects)
      ensures States() == RebuiltAll(old(States()), scene)
      ensures provider.log == old(provider.log) + AllSchemaEvents(old(States()), scene)
    {
      ghost var states := States();
      for i := 0 to |subjects|
        invariant subjects == old(subjects) && Distinct(subjects) && AllValid(states)
        invariant StatesOf(subjects) == RebuiltAll(states[..i], scene) + states[i..]
        invariant AllValid(states[..i])
        invariant provider.log == old(provider.log) + AllSchemaEvents(states[..i], scene)
      {
        RebuildStep(states, old(provider.log), i, scene);
      }
      PassDone(states, scene);
    }

    /** One step of StreamSubjects: OnStream on the subject at `i`, the others unchanged. */
    method StreamStep(ghost states: seq<SubjectState>, ghost logBefore: seq<Event>, i: nat, scene: Scene, time: real)
      requires Distinct(subjects) && AllValid(states) && i < |states| == |subjects|
      requires StatesOf(subjects) == StreamedAll(states[..i], scene) + states[i..]
      requires provider.log == logBefore + AllFrameEvents(states[..i], scene, time)
      modifies subjects[i], provider
      ensures StatesOf(subjects) == StreamedAll(states[..i + 1], scene) + states[i + 1..]
      ensures AllValid(states[..i + 1])
      ensures provider.log == logBefore + AllFrameEvents(states[..i + 1], scene, time)
    {
      StreamedStep(states, i, scene);
      FrameEventsStep(states, i, scene, time);
      assert subjects[i].State() == states[i];
      StreamOne(i, scene, time);
      AppendAssoc(logBefore, AllFrameEvents(states[..i], scene, time), FrameEvents(Streamed(states[i], scene), scene, time));
    }

    /** OnStream on the subject at `i`; the other subjects keep their state. */
    method StreamOne(i: nat, scene: Scene, time: real)
      requires Distinct(subjects) && i < |subjects| && StateValid(subjects[i].State())
      modifies subjects[i], provider
      ensures StatesOf(subjects) == old(StatesOf(subjects))[i := Streamed(old(subjects[i].State()), scene)]
      ensures provider.log == old(provider.log) + FrameEvents(Streamed(old(subjects[i].State()), scene), scene, time)
    {
      ghost var before := StatesOf(subjects);
      subjects[i].OnStream(scene, time, provider);
      assert forall k :: 0 <= k < |subjects| && k != i ==> StatesOf(subjects)[k] == before[k];
    }

    /** StreamSubjects: one OnStream per subject, in list order. */
    method StreamSubjects(scene: Scene, time: real)
      requires Valid()
      modifies provider, subjects
      ensures Valid() && subjects == old(subjects)
      ensures States() == StreamedAll(old(States()), scene)
      ensures provider.log == old(provider.log) + AllFrameEvents(old(States()), scene, time)
      ensures ActiveCameras(States()) == ActiveCameras(old(States()))
    {
      ghost var states := States();
      for i := 0 to |subjects|
        invariant subjects == old(subjects) && Distinct(subjects) && AllValid(states)
        invariant StatesOf(subjects) == StreamedAll(states[..i], scene) + states[i..]
        invariant AllValid(states[..i])
        invariant provider.log == old(provider.log) + AllFrameEvents(states[..i], scene, time)
      {
        StreamStep(states, old(provider.log), i, scene, time);
      }
      PassDone(states, scene);
      PassesKeepActiveCamera(states, scene);
    }
  }
}
