/** Values the scripts exchange with the Unity engine and its libraries:
    vectors (also used for Euler angles), audio clips, DOTween ease names
    and the record of one tween the engine was asked to run. */
module Engine {

  /** A possibly missing reference (a Unity object that may be null). */
  datatype Option<+T> = None | Some(value: T)

  /** Vector2: a 2D axis value such as a stick or pointer delta. */
  datatype Vec2 = Vec2(x: real, y: real)

  /** Vector3: a position, a displacement or a triple of Euler angles in degrees. */
  datatype Vec3 = Vec3(x: real, y: real, z: real)

  const Zero2: Vec2 := Vec2(0.0, 0.0)

  function Scale(v: Vec3, k: real): Vec3 {
    Vec3(v.x * k, v.y * k, v.z * k)
  }

  function Add(a: Vec3, b: Vec3): Vec3 {
    Vec3(a.x + b.x, a.y + b.y, a.z + b.z)
  }

  /** An AudioClip, known only by its asset name. */
  datatype Clip = Clip(name: string)

  /** A DOTween ease; the curves themselves belong to the library. */
  datatype Ease = InOutQuad | OtherEase(name: string)

  /** One rotation tween started with DORotate(target, duration).SetEase(ease):
      `active` is what IsActive() would answer for its handle. */
  datatype Tween = Tween(target: Vec3, duration: real, ease: Ease, active: bool)
}
