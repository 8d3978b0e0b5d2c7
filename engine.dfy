/** Values the AR core receives from the engine and the AR runtime: screen points,
    vectors, poses, raycast hits and identifiers. Coordinates are exact reals, so
    float rounding is not modelled; equality is the exact `Equals` that `BuildController.cs` uses. */
module Engine {

  datatype Option<+T> = None | Some(value: T)

  /** The outcome of a sequence of engine calls that may raise a
      NullReferenceException; `Threw` ends the event handler that made the call. */
  datatype Try<+T> = Done(value: T) | Threw

  /** UnityEngine.Vector2: a screen point. */
  datatype Vec2 = Vec2(x: real, y: real)

  /** UnityEngine.Vector3: a world position, direction or local scale. */
  datatype Vec3 = Vec3(x: real, y: real, z: real)

  const Zero2: Vec2 := Vec2(0.0, 0.0)
  const Zero3: Vec3 := Vec3(0.0, 0.0, 0.0)
  const One3: Vec3 := Vec3(1.0, 1.0, 1.0)

  /** Vector subtraction `a - b`; the difference is the zero vector exactly when the points coincide. */
  function Sub(a: Vec3, b: Vec3): (r: Vec3)
    ensures r == Zero3 <==> a == b
    ensures Vec3(b.x + r.x, b.y + r.y, b.z + r.z) == a
  {
    Vec3(a.x - b.x, a.y - b.y, a.z - b.z)
  }

  /** An orientation; no quaternion arithmetic is modelled. */
  datatype Quaternion = Quaternion(x: real, y: real, z: real, w: real)

  datatype Pose = Pose(position: Vec3, rotation: Quaternion)

  /** The identity of an AR trackable (a detected plane). */
  type TrackableId = nat

  /** One result of an AR raycast: the trackable that was hit and the pose of the hit. */
  datatype ARRaycastHit = ARRaycastHit(trackableId: TrackableId, pose: Pose)

  /** A prefab asset and a material asset, by identity. */
  type PrefabId = nat
  type MaterialId = nat

  /** An ARTrackedImage: an instance of some reference image of the image library. */
  datatype TrackedImage = TrackedImage(instance: nat, referenceImageName: string)
}
