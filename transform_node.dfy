/** The transform node: a composite transform built by mutators and applied to its subtree. */
module TransformNodes {
  import opened Matrices
  import opened Scene
  import opened Gl
  import Traversal

  class TransformNode {
    /** The composite transform, as the word of operations applied to it since the last reset. */
    var composite: Matrix

    /** A new transform node holds the identity. */
    constructor ()
      ensures composite == Identity()
    {
      composite := Identity();
    }

    method LoadIdentity()
      modifies this
      ensures composite == Identity()
    {
      composite := Identity();
    }

    /** Each mutator post-multiplies the composite by one operation, so operations apply in call order. */
    method Translate(x: real, y: real, z: real)
      modifies this
      ensures composite == Mul(old(composite), [Op.Translate(x, y, z)])
    {
      composite := Mul(composite, [Op.Translate(x, y, z)]);
    }

    method Rotate(degrees: real, axis: Geometry.Vector3)
      modifies this
      ensures composite == Mul(old(composite), [Op.Rotate(degrees, axis.x, axis.y, axis.z)])
    {
      composite := Mul(composite, [Op.Rotate(degrees, axis.x, axis.y, axis.z)]);
    }

    method RotateX(degrees: real)
      modifies this
      ensures composite == Mul(old(composite), [Op.RotateX(degrees)])
    {
      composite := Mul(composite, [Op.RotateX(degrees)]);
    }

    method RotateY(degrees: real)
      modifies this
      ensures composite == Mul(old(composite), [Op.RotateY(degrees)])
    {
      composite := Mul(composite, [Op.RotateY(degrees)]);
    }

    method RotateZ(degrees: real)
      modifies this
      ensures composite == Mul(old(composite), [Op.RotateZ(degrees)])
    {
      composite := Mul(composite, [Op.RotateZ(degrees)]);
    }

    method Scale(x: real, y: real, z: real)
      modifies this
      ensures composite == Mul(old(composite), [Op.Scale(x, y, z)])
    {
      composite := Mul(composite, [Op.Scale(x, y, z)]);
    }

    /** The per-frame update changes neither the node nor the scene state. */
    method Update(s: SceneState)
      ensures composite == old(composite) && s.Value() == old(s.Value())
    {
    }

    /** This node, with children `cs`, as a node of the scene graph. */
    function View(cs: seq<Traversal.Node>): (n: Traversal.Node)
      reads this
      ensures n.Transform? && n.children == cs
    {
      Traversal.Transform(composite, cs)
    }

    /** The draw override, on the scene state object in place. */
    method Draw(cs: seq<Traversal.Node>, s: SceneState, ghost d: Device) returns (ghost d': Device)
      modifies s
      ensures (s.Value(), d') == Traversal.Draw(View(cs), old(s.Value()), d)
    {
      d' := Traversal.RenderTransform(composite, cs, s, d);
    }
  }
}
