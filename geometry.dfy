/** Value types shared by the scene nodes. Coordinates are reals: float rounding is not modelled. */
module Geometry {

  datatype Point2 = Point2(x: real, y: real)

  datatype Point3 = Point3(x: real, y: real, z: real)

  datatype Vector3 = Vector3(x: real, y: real, z: real)

  datatype Color4 = Color4(r: real, g: real, b: real, a: real)

  /** One vertex of a draggable line: a position and a colour. */
  datatype PositionAndColor = PositionAndColor(position: Point2, color: Color4)

  /** One vertex of the unit square: a position and a normal. */
  datatype VertexAndNormal = VertexAndNormal(vertex: Point3, normal: Vector3)

  const Origin2 := Point2(0.0, 0.0)
}
