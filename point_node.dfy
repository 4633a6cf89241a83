/**
 * The point node: a vertex buffer of fixed capacity whose first
 * `vertexCount` points are drawn as GL points.
 */
module PointNodes {
  import opened Geometry
  import opened Scene
  import opened Gl
  import Traversal

  class PointNode {
    /** The contents of the node's vertex buffer object, one point per slot. */
    var buffer: array<Point2>
    var vertexCount: int
    var vbo: nat
    var vao: nat

    /** The count never exceeds the buffer's capacity. */
    predicate Valid()
      reads this
    {
      0 <= vertexCount <= buffer.Length
    }

    /**
     * A buffer of `capacity` points, all at the origin, and no points to
     * draw; `vbo` and `vao` are the handles the context generates.
     */
    constructor (capacity: nat, positionLoc: int, vbo: nat, vao: nat)
      ensures Valid() && fresh(buffer)
      ensures vertexCount == 0 && buffer[..] == seq(capacity, _ => Origin2)
      ensures this.vbo == vbo && this.vao == vao
    {
      buffer := new Point2[capacity](_ => Origin2);
      this.vbo := vbo;
      this.vao := vao;
      vertexCount := 0;
    }

    /**
     * Replaces the first `|v|` points of the buffer with `v`, keeps the
     * rest, and makes `v` the points to draw. The buffer is not resized,
     * so `v` must fit in it. A non-empty upload leaves the node's buffer
     * bound as the array buffer.
     */
    method Update(v: seq<Point2>, ghost d: Device) returns (ghost d': Device)
      requires |v| <= buffer.Length
      modifies this, buffer
      ensures Valid() && buffer == old(buffer) && vbo == old(vbo) && vao == old(vao)
      ensures buffer[..] == v + old(buffer[..])[|v|..]
      ensures vertexCount == |v|
      ensures d' == if |v| > 0 then BindArrayBuffer(d, vbo) else d
    {
      d' := d;
      if |v| > 0 {
        d' := BindArrayBuffer(d', vbo);
        forall i | 0 <= i < |v| {
          buffer[i] := v[i];
        }
      }
      vertexCount := |v|;
    }

    /** Nothing left to draw; the buffer keeps its contents. */
    method Clear()
      modifies this
      ensures Valid() && buffer == old(buffer) && vbo == old(vbo) && vao == old(vao)
      ensures vertexCount == 0 && buffer[..] == old(buffer[..])
    {
      vertexCount := 0;
    }

    function View(): (n: Traversal.Node)
      reads this
      ensures n.PointSet? && n.vao == vao
    {
      Traversal.PointSet(vertexCount, vao)
    }

    /** The draw override: the scene state is left alone. */
    method Draw(s: SceneState, ghost d: Device) returns (ghost d': Device)
      ensures (s.Value(), d') == Traversal.Draw(View(), s.Value(), d)
    {
      d' := Traversal.RenderPointSet(vertexCount, vao, s, d);
    }

    /** The destructor releases the buffer and then the vertex array, once each. */
    method Destroy(ghost d: Device) returns (ghost d': Device)
      ensures d'.released == d.released + [Buffer(vbo), VertexArray(vao)]
      ensures d' == DeleteVertexArray(DeleteBuffer(d, vbo), vao)
    {
      d' := DeleteBuffer(d, vbo);
      d' := DeleteVertexArray(d', vao);
    }
  }

  /**
   * The node's life between two frames: after an update with a non-empty
   * list the next draw submits exactly those points, and after a clear it
   * submits nothing.
   */
  method UpdateThenClear(p: PointNode, v: seq<Point2>, s: SceneState, ghost d: Device)
      returns (ghost afterUpdate: Device, ghost afterClear: Device)
    requires 0 < |v| <= p.buffer.Length
    modifies p, p.buffer
    ensures p.buffer == old(p.buffer) && p.buffer[..|v|] == v
    ensures afterUpdate.draws == d.draws + [DrawCall(Points, 0, |v|, p.vao, d.blend, d.issued,
                                                      Enabled(d, p.vao), d.lineWidth, d.program)]
    ensures afterUpdate.arrayBuffer == p.vbo
    ensures afterClear == afterUpdate
  {
    var d1 := p.Update(v, d);
    assert p.buffer[..|v|] == p.buffer[..][..|v|];
    afterUpdate := p.Draw(s, d1);
    p.Clear();
    afterClear := p.Draw(s, afterUpdate);
  }
}
