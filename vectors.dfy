/** Engine value types the core computes with: three- and two-dimensional
    vectors and colours, with the handful of operations the source uses
    (`sub`, `add`, `mul`, `Dot`). Coordinates are exact reals. */
module Vectors {

  datatype Vec3 = Vec3(x: real, y: real, z: real)

  datatype Vec2 = Vec2(x: real, y: real)

  datatype Color3 = Color3(r: real, g: real, b: real)

  function Add(a: Vec3, b: Vec3): Vec3 {
    Vec3(a.x + b.x, a.y + b.y, a.z + b.z)
  }

  function Sub(a: Vec3, b: Vec3): Vec3 {
    Vec3(a.x - b.x, a.y - b.y, a.z - b.z)
  }

  function Scale(a: Vec3, s: real): Vec3 {
    Vec3(a.x * s, a.y * s, a.z * s)
  }

  function Dot(a: Vec3, b: Vec3): real {
    a.x * b.x + a.y * b.y + a.z * b.z
  }

  /** Squared Euclidean distance; the square of the engine's `Magnitude`. */
  function SqDist(a: Vec3, b: Vec3): real {
    Dot(Sub(a, b), Sub(a, b))
  }

  function Add2(a: Vec2, b: Vec2): Vec2 {
    Vec2(a.x + b.x, a.y + b.y)
  }

  function Sub2(a: Vec2, b: Vec2): Vec2 {
    Vec2(a.x - b.x, a.y - b.y)
  }

  function Scale2(a: Vec2, s: real): Vec2 {
    Vec2(a.x * s, a.y * s)
  }
}
