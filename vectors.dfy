/** The small slice of Bevy's vector types that the camera controller uses,
    over exact reals in place of `f32`. */
module Vectors {

  datatype Vec2 = Vec2(x: real, y: real)

  datatype Vec3 = Vec3(x: real, y: real, z: real)

  const ZERO2: Vec2 := Vec2(0.0, 0.0)

  /** `Vec3::ZERO`, the origin. */
  const ZERO3: Vec3 := Vec3(0.0, 0.0, 0.0)

  /** `Vec3::Y`, the up axis handed to `looking_at`. */
  const UNIT_Y: Vec3 := Vec3(0.0, 1.0, 0.0)

  function Add2(a: Vec2, b: Vec2): Vec2 {
    Vec2(a.x + b.x, a.y + b.y)
  }

  function Scale2(v: Vec2, k: real): Vec2 {
    Vec2(v.x * k, v.y * k)
  }

  function Scale3(v: Vec3, k: real): Vec3 {
    Vec3(v.x * k, v.y * k, v.z * k)
  }

  function Sub3(a: Vec3, b: Vec3): Vec3 {
    Vec3(a.x - b.x, a.y - b.y, a.z - b.z)
  }

  function Dot3(a: Vec3, b: Vec3): real {
    a.x * b.x + a.y * b.y + a.z * b.z
  }
}
