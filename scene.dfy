/**
 * The Maya scene as the core sees it: every query the subjects make of the
 * scene (path validity, node function sets, the depth-first joint walk,
 * joint and transform attributes, camera and light attributes, the camera of
 * the active view) is a field of one `Scene` value, read at the moment of
 * the call.
 */
module MayaScene {
  import opened Wrappers
  import opened Transforms

  /** The `MFn` function sets the core tests with `hasFn`. */
  datatype NodeFn = JointFn | CameraFn | LightFn | SpotLightFn

  /** One step of `MItDag` over joints: its depth, the joint's name and its full path. */
  datatype DagItem = DagItem(depth: nat, name: string, path: string)

  /**
   * The local factors of a joint read by OnStream: scale, scale orientation,
   * rotation, joint orientation (each rotation already a matrix, as
   * `MTransformationMatrix::asMatrix` gives it) and translation.
   */
  datatype JointPose = JointPose(scale: Vec3, scaleOrientation: Mat4, rotation: Mat4,
                                 jointOrientation: Mat4, translation: Vec3)

  /** What `MFnCamera` reports for a camera. */
  datatype CameraView = CameraView(right: Vec3, view: Vec3, up: Vec3, eye: Vec3,
                                   horizontalFieldOfView: real, aspectRatio: real,
                                   focalLength: real, isOrtho: bool)

  /** What `MFnLight` and `MFnSpotLight` report for a light. */
  datatype LightView = LightView(intensity: real, color: MColor, coneAngle: real, penumbraAngle: real)

  datatype Scene = Scene(
    isValid: string -> bool,               // MDagPath::isValid for a full path name
    fnTypes: string -> set<NodeFn>,        // the function sets hasFn answers true for
    jointWalk: string -> seq<DagItem>,     // MItDag depth-first, joints only, from a root
    jointPose: string -> JointPose,
    transformation: string -> Mat4,        // MFnTransform::transformation().asMatrix()
    camera: string -> CameraView,
    light: string -> LightView,
    activeViewCamera: Option<string>)      // M3dView::active3dView().getCamera, when both succeed

  predicate HasFn(scene: Scene, path: string, f: NodeFn) {
    f in scene.fnTypes(path)
  }
}
