/**
 * 4x4 transformation matrices, modelled structurally.
 *
 * The matrix library of the engine (its `Matrix4x4` type) works on floats and
 * trigonometry. Here a matrix is the word of elementary transformations whose
 * product it is: the product of two matrices is the concatenation of their
 * words and the identity is the empty word. The product is therefore
 * associative with the identity as its unit, which is all that the traversal
 * engine relies on.
 */
module Matrices {

  /** One elementary transformation, with the arguments it was built from. */
  datatype Op =
    | Translate(tx: real, ty: real, tz: real)
    | Rotate(degrees: real, ax: real, ay: real, az: real)
    | RotateX(degrees: real)
    | RotateY(degrees: real)
    | RotateZ(degrees: real)
    | Scale(sx: real, sy: real, sz: real)
      /** A matrix supplied from outside the engine (a projection, a view, an orthographic matrix). */
    | Given(id: nat)

  type Matrix = seq<Op>

  function Identity(): Matrix { [] }

  /** The matrix product `a * b`. */
  function Mul(a: Matrix, b: Matrix): Matrix { a + b }
}
