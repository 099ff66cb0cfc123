/** Vectors, colours and the opaque maths the scene viewer leans on.
    Floating point is modelled by `real`; rounding is not modelled.
    Transcendental functions (sqrt, sin, cos, atan2, acos, normalize) are not
    interpreted: they are the fields of a `Math` record of function values that
    callers pass in, so nothing is proved that depends on what they compute.
    Matrices are symbolic terms (`Mat`) built by the glm calls the source makes. */
module Vectors {

  datatype Vec3 = Vec3(x: real, y: real, z: real)

  datatype Vec4 = Vec4(x: real, y: real, z: real, w: real)

  const Zero3: Vec3 := Vec3(0.0, 0.0, 0.0)
  const Zero4: Vec4 := Vec4(0.0, 0.0, 0.0, 0.0)

  /** M_PI and M_PI_2 as the C library defines them (double precision). */
  const PI: real := 3.141592653589793
  const HALF_PI: real := 1.5707963267948966

  function Add(a: Vec3, b: Vec3): Vec3 {
    Vec3(a.x + b.x, a.y + b.y, a.z + b.z)
  }

  function Sub(a: Vec3, b: Vec3): Vec3 {
    Vec3(a.x - b.x, a.y - b.y, a.z - b.z)
  }

  function Scale(a: Vec3, k: real): Vec3 {
    Vec3(a.x * k, a.y * k, a.z * k)
  }

  function Dot(a: Vec3, b: Vec3): real {
    a.x * b.x + a.y * b.y + a.z * b.z
  }

  /** |a - b|^2, the squared Euclidean distance. */
  function DistSq(a: Vec3, b: Vec3): real {
    Dot(Sub(a, b), Sub(a, b))
  }

  /** glm::radians */
  function Radians(deg: real): real {
    deg * PI / 180.0
  }

  function Min(a: real, b: real): real { if a <= b then a else b }
  function Max(a: real, b: real): real { if a >= b then a else b }

  /** glm::clamp on one component */
  function Clamp(v: real, lo: real, hi: real): real {
    Min(Max(v, lo), hi)
  }

  /** The transcendental functions the source calls, left uninterpreted. */
  datatype Math = Math(
    sqrt: real -> real,
    sin: real -> real,
    cos: real -> real,
    atan2: (real, real) -> real,
    acos: real -> real,
    normalize: Vec3 -> Vec3)

  /** glm::length */
  function Length(m: Math, v: Vec3): real {
    m.sqrt(Dot(v, v))
  }

  /** glm matrices as the terms that build them. */
  datatype Mat =
    | Identity
    | LookAt(eye: Vec3, center: Vec3, up: Vec3)
    | Perspective(fovyRadians: real, aspect: real, zNear: real, zFar: real)
    | Ortho(left: real, right: real, bottom: real, top: real, zNear: real, zFar: real)
    | Translate(offset: Vec3)
    | Rotate(angleRadians: real, axis: Vec3)
    | ScaleBy(factors: Vec3)
    | Product(lhs: Mat, rhs: Mat)

  const AxisX: Vec3 := Vec3(1.0, 0.0, 0.0)
  const AxisY: Vec3 := Vec3(0.0, 1.0, 0.0)
  const AxisZ: Vec3 := Vec3(0.0, 0.0, 1.0)
}
