# Maya Live Link plugin: a verified model of the streaming core

The Maya Live Link plugin streams Maya scene objects to Unreal Engine over
Live Link. Each streamed object is a *subject*: a joint hierarchy (character),
a camera, a light, a prop, or the editor's active camera. This model covers
the plugin's core in `Source/MayaLiveLinkPlugin.cpp`:

- the matrix conversion from Maya to Unreal space: the row and sign remap,
  the 90 degree up-axis correction, and the colour conversion for lights
  (module `Transforms`);
- the joint subject's hierarchy flattener and its per-frame matrix
  composition (module `Hierarchy`);
- the four subject structs, with their stream modes, option lists, schemas
  per mode, frames, `SetStreamType`, `ValidateSubject` and
  `ShouldDisplayInUI` (module `Subjects`). They become one `Subject` class
  tagged with its `Kind`;
- `FLiveLinkStreamedSubjectManager`, the ordered registry of subjects
  (module `Registry`, class `SubjectManager`).

The Maya scene is read through a `Scene` value (module `MayaScene`). Each of
its fields answers one query the core makes: path validity, `hasFn`, the
depth-first joint walk, joint and node matrices, camera and light
attributes, and the camera of the active view. The Live Link provider is a
`Provider` object whose ghost `log` records, in order, every
`UpdateSubjectStaticData`, `UpdateSubjectFrameData` and `RemoveSubject` call
(module `LiveLink`). A subject's destructor calls `RemoveSubject`, so every
removal from the registry appears in the log as a `SubjectRemoved` event.

Each operation is stated twice. A pure function on subject states gives the
state and the provider calls it must produce: `Rebuilt`/`Schema`,
`Streamed`/`FrameEvents`, `ModeChanged`/`ModeChangeEvents`,
`RemoveSubjectStates`/`RemoveSubjectEvents`, `Survivors`/`PruneEvents`,
`RenameStates`/`RenameEvents`, and so on. The imperative classes are proved
to produce exactly those. Lemmas about the functions then state what the
plugin promises.

Where the code and its description differ, the model follows the code:

- Stream-type names are compared with `FString ==`, which ignores the case of
  letters, so `"camera"` selects the Camera mode.
- The joint flattener's parent-index stack starts as 100 zeroed slots. A
  first joint below depth 0 therefore gets parent index 0, not -1
  (`Hierarchy.FirstJointBelowRoot`).
- `ChangeStreamType` acts on the first subject with the path, even the
  hidden active camera. `RemoveSubject` acts on the last visible one
  (`Registry.LookupAndRemovalDiffer`).

## Model

| member | source | states |
|---|---|---|
| Transforms.UnrealSpace | Source/MayaLiveLinkPlugin.cpp:175-192 | an entry of the Unreal-space matrix changes sign exactly when one, but not both, of its row and column is 1 |
| Transforms.UnrealSpaceInvolution | Source/MayaLiveLinkPlugin.cpp:175-192 | applying the remap twice gives back the input matrix |
| Transforms.UnrealSpaceIsFlipConjugation | Source/MayaLiveLinkPlugin.cpp:175-192 | the remap is the change of basis by the Y-axis flip, FlipY * m * FlipY |
| Transforms.UnrealSpaceDistributes | Source/MayaLiveLinkPlugin.cpp:175-192 | remapping a product equals the product of the remapped factors |
| Transforms.RotateForUnreal | Source/MayaLiveLinkPlugin.cpp:163-168 | the up-axis correction keeps columns 0 and 3, moves column 1 to column 2 and puts minus column 2 in column 1 |
| Transforms.RotateForUnrealFourTimes | Source/MayaLiveLinkPlugin.cpp:163-168 | the correction is a quarter turn: four of them give the matrix back |
| Transforms.BuildUETransformRecoversMaya | Source/MayaLiveLinkPlugin.cpp:170-212 | the Maya-space matrix can be recovered from the converted transform, and the conversion applies no camera yaw |
| Transforms.ScaleInverse | Source/MayaLiveLinkPlugin.cpp:430-431 | for a scale with no zero component, the inverse scale matrix is a two-sided inverse |
| Transforms.ColorChannel | Source/MayaLiveLinkPlugin.cpp:217-219 | a channel is clamped to 0..255; inputs at or above 1 give 255, inputs at or below 0 give 0 |
| Transforms.MayaColorToUnreal | Source/MayaLiveLinkPlugin.cpp:214-222 | each colour channel lies in 0..255 and alpha is 255 |
| Transforms.ColorChannelRoundTrip | Source/MayaLiveLinkPlugin.cpp:217-219 | a byte written as a Maya colour (byte / 255) converts back to the same byte |
| Hierarchy.LastAtDepth | Source/MayaLiveLinkPlugin.cpp:365-384 | the stack slot of a depth holds the last earlier index at that depth, or nothing when no earlier index reached it |
| Hierarchy.Flattened | Source/MayaLiveLinkPlugin.cpp:351-389 | the flat hierarchy has one entry per visited joint, and every parent index is -1 or not after its own index |
| Hierarchy.FlattenJoints | Source/MayaLiveLinkPlugin.cpp:351-389 | the stack loop, starting from empty arrays, builds exactly the flat hierarchy, the bone names and the bone parents of the walk |
| Hierarchy.ParentOfWellFormed | Source/MayaLiveLinkPlugin.cpp:351-389 | for a walk that starts at depth 0 and goes down at most one level per step, a parent index is -1 exactly at depth 0; any other parent is an earlier joint one level up, and every joint between them lies inside the parent's subtree |
| Hierarchy.FlattenedParentsPrecede | Source/MayaLiveLinkPlugin.cpp:351-389 | for such a walk, every parent comes strictly before its children, and the roots are exactly the depth-0 joints |
| Hierarchy.JointChain | Source/MayaLiveLinkPlugin.cpp:351-389 | a three-joint chain flattens to bone parents [-1, 0, 1] |
| Hierarchy.FirstJointBelowRoot | Source/MayaLiveLinkPlugin.cpp:365-378 | a first joint below depth 0 reads the stack's initial 0 and becomes its own parent |
| Hierarchy.ComposeFrame | Source/MayaLiveLinkPlugin.cpp:419-448 | the loop builds one transform per flat entry, in order. The parent's inverse scale is read back from `InverseScales`, which is always filled up to the current index |
| Hierarchy.JointTransformsRecoverLocal | Source/MayaLiveLinkPlugin.cpp:419-448 | there is one transform per entry, and each converts back (the remap is its own inverse) to the entry's local joint matrix, up-axis corrected at entry 0 only; every non-root entry's inverse-scale factor cancels its parent's non-degenerate scale |
| Subjects.OptionsDistinct | Source/MayaLiveLinkPlugin.cpp:603 | no two options of a kind match each other, even ignoring case |
| Subjects.FindOption | Source/MayaLiveLinkPlugin.cpp:457-459 | the first option that names the argument, ignoring case, or none when no option does |
| Subjects.StreamTypeIndex | Source/MayaLiveLinkPlugin.cpp:457-459 | the index where the SetStreamType loop stops: the first option that matches the name and is not the current mode |
| Subjects.StreamTypeIndexIsRequest | Source/MayaLiveLinkPlugin.cpp:455-466 | the loop stops exactly when the name names a mode other than the current one, and then it stops at that mode's index |
| Subjects.NewState | Source/MayaLiveLinkPlugin.cpp:277-281 | a new subject's initial mode (joint FullHierarchy, camera Camera, light Light, prop RootOnly) is one its enum has, and its empty hierarchy can be streamed |
| Subjects.RoleDisplayTextRoundTrip | Source/MayaLiveLinkPlugin.cpp:496 | the role text shown for a mode, passed back as a stream type, names that same mode |
| Subjects.RequestIgnoresCase | Source/MayaLiveLinkPlugin.cpp:591 | option names match regardless of letter case: any two names equal up to the case of ASCII letters request the same mode, for every kind |
| Subjects.RequestExamples | Source/MayaLiveLinkPlugin.cpp:591 | "camera" selects a camera's role mode and "FULL HIERARCHY" a light's full mode, while a prop has no "Light" option and selects nothing |
| Subjects.Schema | Source/MayaLiveLinkPlugin.cpp:342-393 | a rebuild publishes one static-data call for the subject, in the role of its mode, with data of that role's shape |
| Subjects.SchemaByMode | Source/MayaLiveLinkPlugin.cpp:501-528 | RootOnly publishes transform data. FullHierarchy publishes the single bone "root" with parent -1 for non-joint subjects. Camera mode sets all four camera flags. Light mode supports the cone angles exactly for a spot light |
| Subjects.SkeletonSchema | Source/MayaLiveLinkPlugin.cpp:351-389 | a joint subject's skeleton has one bone per joint; for a well-formed walk its parents are -1 exactly at depth 0 and otherwise earlier bones |
| Subjects.FramesFitSchema | Source/MayaLiveLinkPlugin.cpp:395-453 | a stream makes at most one frame call, for the subject and of its mode's role shape. Only a camera whose path is invalid streams nothing |
| Subjects.SkeletonAndFrameAgree | Source/MayaLiveLinkPlugin.cpp:414-452 | after a rebuild, a FullHierarchy frame has exactly one transform per published bone |
| Subjects.LightConesAgree | Source/MayaLiveLinkPlugin.cpp:750-760 | a light frame carries cone angles exactly when the light's schema declared them supported |
| Subjects.SetStreamTypeSpec | Source/MayaLiveLinkPlugin.cpp:455-466 | if the name selects another mode, the mode changes to it and the schema is republished exactly once. An unknown name, or the current mode's name, changes nothing and publishes nothing |
| Subjects.SelectModeByName | Source/MayaLiveLinkPlugin.cpp:587-598 | asking for another mode by its display name switches to that mode and republishes its schema |
| Subjects.TransitionsKeepValid | Source/MayaLiveLinkPlugin.cpp:622-636 | rebuilds and streams keep a subject valid, and keep its kind, name and mode. Only the active camera's path follows the active view |
| Subjects.Subject.constructor | Source/MayaLiveLinkPlugin.cpp:277-281 | the new subject's state is its kind's initial state, with no joints |
| Subjects.Subject.RebuildSubjectData | Source/MayaLiveLinkPlugin.cpp:342-393 | the subject's new state is `Rebuilt`, and exactly the one static-data call `Schema` is logged (the same method of the camera, light and prop structs is at lines 501-528, 687-716 and 818-835) |
| Subjects.Subject.StreamCamera | Source/MayaLiveLinkPlugin.cpp:530-585 | logs the camera's frame for its mode when the path is valid, and nothing otherwise |
| Subjects.Subject.OnStream | Source/MayaLiveLinkPlugin.cpp:395-453 | the subject's new state is `Streamed` (the active camera takes the view's camera) and exactly `FrameEvents` is logged (the other kinds' OnStream is at lines 622-636, 653-656, 718-764 and 837-862) |
| Subjects.Subject.SetStreamType | Source/MayaLiveLinkPlugin.cpp:455-466 | the subject's new state and log are exactly `ModeChanged` and `ModeChangeEvents` (the same loop is at lines 587-598, 766-777 and 864-875) |
| Registry.FindSubjectByPath | Source/MayaLiveLinkPlugin.cpp:1039-1054 | finds a subject exactly when one has the path, and then the first such, hidden subjects included |
| Registry.GetSubjectByDagPathAsWritten | Source/MayaLiveLinkPlugin.cpp:1039-1054 | the lookup as written reaches the null dereference exactly when no subject has the path |
| Registry.LookupMissDereferencesNull | Source/MayaLiveLinkPlugin.cpp:1053 | right after a reset, while no view camera is known, looking up any path other than the active camera's empty path reaches the null dereference |
| Registry.LastVisibleMatch | Source/MayaLiveLinkPlugin.cpp:991-1000 | the reverse scan stops at the last UI-visible subject with the path, or finds none |
| Registry.RemoveSubjectSpec | Source/MayaLiveLinkPlugin.cpp:989-1002 | exactly the last UI-visible subject with the path is removed and retracted from the provider |
| Registry.RemoveSubjectMiss | Source/MayaLiveLinkPlugin.cpp:989-1002 | when no UI-visible subject has the path, nothing changes and nothing is retracted |
| Registry.RemoveSubjectSize | Source/MayaLiveLinkPlugin.cpp:989-1002 | the registry shrinks by one exactly when some UI-visible subject has the path |
| Registry.RemoveSubjectKeeps | Source/MayaLiveLinkPlugin.cpp:243 | hidden subjects (the active camera) survive every removal, and every subject stays valid |
| Registry.Survivors | Source/MayaLiveLinkPlugin.cpp:895-902 | the kept subjects are exactly those whose ValidateSubject holds, and they stay valid |
| Registry.SurvivorsKeepValid | Source/MayaLiveLinkPlugin.cpp:499 | camera, light and prop subjects are never pruned; with every subject valid, pruning changes nothing |
| Registry.SurvivorsIdempotent | Source/MayaLiveLinkPlugin.cpp:895-902 | pruning a second time prunes nothing more |
| Registry.Pruned | Source/MayaLiveLinkPlugin.cpp:895-902 | the subjects RemoveAll drops are exactly those whose ValidateSubject fails |
| Registry.PruneAccountsForAll | Source/MayaLiveLinkPlugin.cpp:895-902 | the pruning log is exactly the destructor calls of the pruned subjects, in list order, and kept plus pruned make up the whole registry |
| Registry.KindForNode | Source/MayaLiveLinkPlugin.cpp:1011-1026 | the recreated kind follows the priority joint, then camera, then light, else prop |
| Registry.CreatedState | Source/MayaLiveLinkPlugin.cpp:955-967 | a new subject keeps its kind, name and initial mode through its first rebuild and stream, and is valid |
| Registry.RenameStates | Source/MayaLiveLinkPlugin.cpp:1004-1028 | renaming an unknown path changes nothing. Otherwise the registry ends with a subject under the new name at the same path, of the node's kind and in its initial mode; everything before it is exactly the registry after removing the subject at the path (`RemoveSubjectStates`) |
| Registry.RenameEvents | Source/MayaLiveLinkPlugin.cpp:1004-1028 | an unknown path logs nothing. Otherwise the log ends with the new subject's creation calls, preceded by at most one removal; everything before those calls is exactly the removal's retraction (`RemoveSubjectEvents`) |
| Registry.RenameSize | Source/MayaLiveLinkPlugin.cpp:1004-1028 | renaming a UI-visible subject keeps the registry's size; when only the hidden active camera has the path, the registry grows by one |
| Registry.RenameKeepsValid | Source/MayaLiveLinkPlugin.cpp:1004-1028 | renaming keeps every subject valid |
| Registry.ChangeStreamTypeSpec | Source/MayaLiveLinkPlugin.cpp:1030-1037 | at most the first subject with the path changes, every subject stays valid, and an unknown path changes and logs nothing |
| Registry.LookupAndRemovalDiffer | Source/MayaLiveLinkPlugin.cpp:989-1054 | when the active camera shares a path with a camera subject, the lookup picks the hidden active camera while removal picks the visible camera |
| Registry.Visible | Source/MayaLiveLinkPlugin.cpp:913-919 | the listed subjects are exactly those shown in the UI |
| Registry.ListingIsVisible | Source/MayaLiveLinkPlugin.cpp:911-953 | entry k of each of the four listings describes the k-th UI-visible subject, so the lists line up and never show the active camera |
| Registry.ResetSpec | Source/MayaLiveLinkPlugin.cpp:1056-1060 | after a reset the registry is valid and holds exactly one active camera, every listing is empty, and no removal can take the active camera |
| Registry.AllFramesAtMostOne | Source/MayaLiveLinkPlugin.cpp:1071-1080 | streaming every subject sends at most one frame per subject |
| Registry.PassesKeepValid | Source/MayaLiveLinkPlugin.cpp:1062-1080 | rebuilding and streaming every subject keep each subject valid and keep each name |
| Registry.OneActiveCameraAt | Source/MayaLiveLinkPlugin.cpp:613-642 | the registry holds one active camera exactly when some entry is the active camera and no other entry is |
| Registry.AppendActiveCamera | Source/MayaLiveLinkPlugin.cpp:955-967 | adding a subject raises the active-camera count by one exactly when the new subject is the active camera |
| Registry.RemoveSubjectKeepsActiveCamera | Source/MayaLiveLinkPlugin.cpp:989-1002 | removal never changes the number of active cameras, because it only takes UI-visible subjects |
| Registry.SurvivorsKeepActiveCamera | Source/MayaLiveLinkPlugin.cpp:499 | pruning never changes the number of active cameras, because a camera always validates |
| Registry.RenameKeepsActiveCamera | Source/MayaLiveLinkPlugin.cpp:1004-1028 | renaming never changes the number of active cameras: it removes a visible subject and recreates the node as a joint, camera, light or prop |
| Registry.ChangeStreamTypeKeepsActiveCamera | Source/MayaLiveLinkPlugin.cpp:1030-1037 | changing a stream type never changes the number of active cameras |
| Registry.PassesKeepActiveCamera | Source/MayaLiveLinkPlugin.cpp:1062-1080 | rebuilding or streaming every subject never changes the number of active cameras |
| Registry.SubjectManager.constructor | Source/MayaLiveLinkPlugin.cpp:906-909 | the new manager is in the reset state, with exactly one active camera, and only the active camera's creation calls are logged |
| Registry.SubjectManager.AddSubjectOfType | Source/MayaLiveLinkPlugin.cpp:955-967 | appends one fresh subject in its created state, keeps the old subjects in place, and logs its schema then its first frame; the active-camera count grows only when the kind is the active camera |
| Registry.SubjectManager.CreateSubject | Source/MayaLiveLinkPlugin.cpp:958-963 | the new subject is rebuilt and streamed once before it is added |
| Registry.SubjectManager.AddJointHierarchySubject | Source/MayaLiveLinkPlugin.cpp:969-972 | appends a joint hierarchy subject, and keeps the number of active cameras |
| Registry.SubjectManager.AddCameraSubject | Source/MayaLiveLinkPlugin.cpp:974-977 | appends a camera subject, and keeps the number of active cameras |
| Registry.SubjectManager.AddLightSubject | Source/MayaLiveLinkPlugin.cpp:979-982 | appends a light subject, and keeps the number of active cameras |
| Registry.SubjectManager.AddPropSubject | Source/MayaLiveLinkPlugin.cpp:984-987 | appends a prop subject, and keeps the number of active cameras |
| Registry.SubjectManager.RemoveSubject | Source/MayaLiveLinkPlugin.cpp:989-1002 | the reverse loop leaves exactly `RemoveSubjectStates` and logs exactly `RemoveSubjectEvents`; the number of active cameras is unchanged |
| Registry.SubjectManager.RemoveAt | Source/MayaLiveLinkPlugin.cpp:997 | removes the subject at the index, keeps the others in order, and logs its destructor |
| Registry.SubjectManager.ChangeSubjectName | Source/MayaLiveLinkPlugin.cpp:1004-1028 | the new registry and log are exactly `RenameStates` and `RenameEvents`; the number of active cameras is unchanged |
| Registry.SubjectManager.ChangeStreamType | Source/MayaLiveLinkPlugin.cpp:1030-1037 | the lookup's subject changes its stream type, no other subject changes, and the number of active cameras is unchanged |
| Registry.SubjectManager.SetStreamTypeOne | Source/MayaLiveLinkPlugin.cpp:1035 | changes only the stream type of the subject at the index and logs that subject's calls |
| Registry.SubjectManager.ValidateSubjects | Source/MayaLiveLinkPlugin.cpp:895-902 | the survivors stay in their original relative order, each pruned subject's destructor is logged, and the number of active cameras is unchanged |
| Registry.SubjectManager.SelectSurvivors | Source/MayaLiveLinkPlugin.cpp:897-900 | the filter keeps exactly the validating subjects, distinct and in order |
| Registry.SubjectManager.GetSubjectEntries | Source/MayaLiveLinkPlugin.cpp:911-953 | appends to the caller's entries exactly the column's listing of the UI-visible subjects |
| Registry.SubjectManager.Reset | Source/MayaLiveLinkPlugin.cpp:1056-1060 | every subject's destructor is logged in list order; afterwards the active camera is the only subject, so there is exactly one |
| Registry.SubjectManager.RebuildSubjects | Source/MayaLiveLinkPlugin.cpp:1062-1069 | prunes, then republishes the schema of every survivor in list order, keeping the number of active cameras |
| Registry.SubjectManager.RebuildEach | Source/MayaLiveLinkPlugin.cpp:1065-1068 | one rebuild per subject, in list order |
| Registry.SubjectManager.RebuildOne | Source/MayaLiveLinkPlugin.cpp:1067 | rebuilds only the subject at the index |
| Registry.SubjectManager.StreamSubjects | Source/MayaLiveLinkPlugin.cpp:1071-1080 | runs one OnStream per subject in list order, all at one stream time, each sending at most one frame (none for a camera whose node is gone); the number of active cameras is unchanged |
| Registry.SubjectManager.StreamOne | Source/MayaLiveLinkPlugin.cpp:1078 | streams only the subject at the index |

## Left out

- The decomposition of the Unreal-space matrix into an `FTransform` (quaternion, translation, scale) is a Maya library call on floats. Camera transforms also get a -90 degree yaw. `UETransform` keeps the Unreal-space matrix and a flag saying whether that yaw was applied.
- `Transforms.InverseScaleMatrix`: `MMatrix::inverse` of a scale with a zero component is not modelled. This model puts 0 in that component; the properties about it assume non-zero scales.
- Floating point: matrices, angles and colours are over the reals, so rounding is not modelled. The double-to-byte store in MayaColorToUnreal truncates, and truncation is the floor of the clamped non-negative value.
- The Maya API calls (MItDag, MFnIkJoint, MFnTransform, MFnCamera, MFnLight, hasFn, M3dView) are fields of the `Scene` value. `Scene.jointWalk` gives the depth-first joint walk, not the iterator.
- `FPlatformTime::Seconds` is the `time` parameter of the stream operations. `MAnimControl::currentTime` and the frame number are unused by the modelled code and are not modelled.
- The Live Link provider is the ordered log of its calls. Frame payloads keep their matrices and attribute values, not Unreal's structs. The connection-status delegate is not modelled.
- `RefreshUI` after pruning, debug logging, and the translation read in the joint's ValidateSubject (it only changes a debug message) are not modelled.
- Shared pointers: each subject is held only by the registry, so removing it runs its destructor at once; that destructor call is what the log records.
- The MPxCommand classes, argument parsing, the selection scan, viewport and scene callbacks, plugin initialisation and the Python UI are not part of this model.
- AddSubjectOfType: like the C++ template, it accepts the active-camera kind from any caller. Only Reset uses it that way. Every other public operation keeps the number of active cameras, so "exactly one active camera" holds after the constructor and after Reset, and is kept from then on.
- `Scene.fnTypes` does not enforce Maya's function-set hierarchy (a spot light node is also a light). The kind chosen in `Registry.KindForNode` tests joint, camera and light only, so the spot-light test (`SpotLightFn`) matters only inside the light subject.
- A subject's path is the string captured when it is created. The source holds an `MDagPath`, which follows renames and reparenting of the node in Maya: `GetDagPath` at Source/MayaLiveLinkPlugin.cpp:1008 and the path listing at 925-933 recompute `fullPathName`. The model does not follow these scene edits.
- The four getters GetSubjectNames, GetSubjectPaths, GetSubjectRoles and GetSubjectTypes are one method, `GetSubjectEntries`, that takes the column; they differ only in the text each subject contributes.

## Findings

| source | as written | input that shows it | evidently intended | confidence | as-written member | corrected member |
|---|---|---|---|---|---|---|
|Source/MayaLiveLinkPlugin.cpp:1039-1054 | on a miss, `GetSubjectByDagPath` dereferences the null pointer `FindByPredicate` returns, although both callers test its result for null | after Reset, with only the active camera (path ""), rename or re-role the path "\|pCube1" | return null on a miss, so that `ChangeSubjectName` and `ChangeStreamType` do nothing | not executed | Registry.GetSubjectByDagPathAsWritten, Registry.LookupMissDereferencesNull | Registry.FindSubjectByPath, used by Registry.RenameStates and Registry.ChangeStreamTypeStates (a miss is a no-op) |
