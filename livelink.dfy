/**
 * The Live Link provider as the core uses it: static data per role, frame
 * data, and subject removal. The provider is reduced to the ordered log of
 * the calls it receives.
 */
module LiveLink {
  import opened Wrappers
  import opened Transforms

  /** The role class passed to `UpdateSubjectStaticData`. */
  datatype Role = TransformRole | AnimationRole | CameraRole | LightRole

  datatype StaticData =
    | TransformStatic
    | SkeletonStatic(boneNames: seq<string>, boneParents: seq<int>)
    | CameraStatic(fieldOfView: bool, aspectRatio: bool, focalLength: bool, projectionMode: bool)
    | LightStatic(intensity: bool, lightColor: bool, innerConeAngle: bool, outerConeAngle: bool)

  datatype ProjectionMode = Perspective | Orthographic

  datatype ConeAngles = ConeAngles(inner: real, outer: real)

  datatype FrameData =
    | TransformFrame(transform: UETransform, worldTime: real)
    | AnimationFrame(transforms: seq<UETransform>, worldTime: real)
    | CameraFrame(transform: UETransform, worldTime: real, fieldOfView: real, aspectRatio: real,
                  focalLength: real, projection: ProjectionMode)
    | LightFrame(transform: UETransform, worldTime: real, intensity: real, lightColor: FColor,
                 coneAngles: Option<ConeAngles>)

  /** One provider call: UpdateSubjectStaticData, UpdateSubjectFrameData or RemoveSubject. */
  datatype Event =
    | StaticDataUpdated(subject: string, role: Role, data: StaticData)
    | FrameDataUpdated(subject: string, frame: FrameData)
    | SubjectRemoved(subject: string)

  class Provider {
    ghost var log: seq<Event>

    constructor ()
      ensures log == []
    {
      log := [];
    }
  }
}
