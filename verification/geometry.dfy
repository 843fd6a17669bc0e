/** Stand-ins for the glm vector types and the glm operations the camera code uses.
    Vector addition, subtraction and scaling are exact over `real`; the angle conversion,
    the trigonometric functions, normalisation and the cross product are left
    uninterpreted and passed in as a `Maths` value. */
module Geometry {

  /** glm::vec2: a texture coordinate (u, v). */
  datatype Vec2 = Vec2(x: real, y: real)
  {
    /** Component `j` of the vector, as glm's `v[j]` gives it. */
    function At(j: nat): real
      requires j < 2
    {
      if j == 0 then x else y
    }
  }

  /** glm::vec3: a point or a direction. */
  datatype Vec3 = Vec3(x: real, y: real, z: real)
  {
    /** Component `j` of the vector, as glm's `v[j]` gives it. */
    function At(j: nat): real
      requires j < 3
    {
      if j == 0 then x else if j == 1 then y else z
    }
  }

  /** The product of two non-constant floats. It is kept behind a function so that the
      solver treats each product as a term: the proofs here relate products of equal
      factors and never need their values. */
  function Mul(a: real, b: real): real {
    a * b
  }

  const Origin := Vec3(0.0, 0.0, 0.0)

  function Add(a: Vec3, b: Vec3): Vec3 {
    Vec3(a.x + b.x, a.y + b.y, a.z + b.z)
  }

  function Sub(a: Vec3, b: Vec3): Vec3 {
    Vec3(a.x - b.x, a.y - b.y, a.z - b.z)
  }

  function Scale(a: Vec3, k: real): Vec3 {
    Vec3(a.x * k, a.y * k, a.z * k)
  }

  /** The cross product, written out. The camera code calls glm::cross through `Maths`;
      this definition is only used to say what `Maths.cross` computes for particular inputs. */
  function CrossProduct(a: Vec3, b: Vec3): Vec3 {
    Vec3(a.y * b.z - a.z * b.y, a.z * b.x - a.x * b.z, a.x * b.y - a.y * b.x)
  }

  /** glm::radians, glm::cos, glm::sin, glm::normalize and glm::cross, uninterpreted. */
  datatype Maths = Maths(
    radians: real -> real,
    cos: real -> real,
    sin: real -> real,
    normalize: Vec3 -> Vec3,
    cross: (Vec3, Vec3) -> Vec3)
}
