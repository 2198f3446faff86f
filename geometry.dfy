/**
 * Vectors, matrices and bounding boxes as opaque symbolic values.
 *
 * The engine's matrix and vector arithmetic (glm::ortho, glm::lookAt, products,
 * inverses, transformed boxes) is not interpreted: each operation builds a term,
 * so two results are equal exactly when they were built by the same operations
 * from equal arguments. Nothing in the model depends on what a matrix means.
 */
module Geometry {

  datatype Vec3 = Vec3(x: real, y: real, z: real)
  {
    function Negated(): Vec3
    {
      Vec3(-x, -y, -z)
    }
  }

  const Origin: Vec3 := Vec3(0.0, 0.0, 0.0)
  const Up: Vec3 := Vec3(0.0, 1.0, 0.0)

  datatype Mat4 =
    | Identity
    | Ortho(left: real, right: real, bottom: real, top: real, near: real, far: real)
    | LookAt(eye: Vec3, center: Vec3, up: Vec3)
    | Product(lhs: Mat4, rhs: Mat4)
    | Named(id: nat)            // a matrix the model only carries around (decoded, animated, ...)

  /** An axis-aligned box, possibly moved by a model matrix (BoundingBox::transformed). */
  datatype BBox =
    | MeshBox(mesh: nat)
    | Transformed(box: BBox, model: Mat4)
}
