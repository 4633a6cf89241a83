/**
 * The unit square node: four vertices with normals in a buffer object,
 * drawn as a triangle strip under the current shader's attribute handles.
 */
module UnitSquareNodes {
  import opened Geometry
  import opened Scene
  import opened Gl
  import Traversal

  /** The normal of every vertex: the +z axis. */
  const Up := Vector3(0.0, 0.0, 1.0)

  /** The vertices in strip order: bottom left, bottom right, top left, top right. */
  function SquareVertices(): (r: seq<VertexAndNormal>)
    ensures |r| == Traversal.SquareVertexCount
  {
    [VertexAndNormal(Point3(-0.5, -0.5, 0.0), Up), VertexAndNormal(Point3(0.5, -0.5, 0.0), Up),
     VertexAndNormal(Point3(-0.5, 0.5, 0.0), Up), VertexAndNormal(Point3(0.5, 0.5, 0.0), Up)]
  }

  /**
   * The vertices are the four corners of the unit square centred on the
   * origin in the z = 0 plane, each once, all facing +z.
   */
  lemma SquareIsUnit()
    ensures var v := SquareVertices();
            && (forall i | 0 <= i < |v| :: v[i].normal == Up && v[i].vertex.z == 0.0)
            && (forall i | 0 <= i < |v| :: (v[i].vertex.x == -0.5 || v[i].vertex.x == 0.5) &&
                                           (v[i].vertex.y == -0.5 || v[i].vertex.y == 0.5))
            && (forall i, j | 0 <= i < j < |v| :: v[i].vertex != v[j].vertex)
  {
    var v := SquareVertices();
    forall i, j | 0 <= i < j < |v| ensures v[i].vertex != v[j].vertex {
      if i == 0 { assert v[0].vertex == Point3(-0.5, -0.5, 0.0); }
    }
  }

  class UnitSquareNode {
    var vbo: nat
    var vao: nat
    var vertices: array<VertexAndNormal>
    /** The contents of the vertex buffer object, empty until uploaded. */
    ghost var uploaded: seq<VertexAndNormal>

    predicate Valid()
      reads this
    {
      vertices.Length == Traversal.SquareVertexCount
    }

    /**
     * Both handles start at 0; the vertices are created and the geometry
     * set up with the handles `genVao` and `genVbo` that the context
     * hands out (0 for a failure).
     */
    constructor (genVao: nat, genVbo: nat, ghost d: Device)
      ensures Valid() && fresh(vertices) && vertices[..] == SquareVertices()
      ensures vao == genVao && vbo == (if genVao == 0 then 0 else genVbo)
      ensures uploaded == (if vao != 0 && vbo != 0 then SquareVertices() else [])
    {
      vbo := 0;
      vao := 0;
      vertices := new VertexAndNormal[Traversal.SquareVertexCount];
      uploaded := [];
      new;
      CreateVertices();
      var _ := SetupGeometry(genVao, genVbo, d);
    }

    /** Fills the four slots, one by one, with the corners in strip order. */
    method CreateVertices()
      requires Valid()
      modifies vertices
      ensures vertices[..] == SquareVertices()
    {
      var normal := Up;
      vertices[0] := VertexAndNormal(Point3(-0.5, -0.5, 0.0), normal);
      vertices[1] := VertexAndNormal(Point3(0.5, -0.5, 0.0), normal);
      vertices[2] := VertexAndNormal(Point3(-0.5, 0.5, 0.0), normal);
      vertices[3] := VertexAndNormal(Point3(0.5, 0.5, 0.0), normal);
    }

    /**
     * Takes the vertex array handle, stopping if it is 0; then the buffer
     * handle, stopping if it is 0 (the vertex array stays bound); then
     * uploads the vertices and unbinds both.
     */
    method SetupGeometry(genVao: nat, genVbo: nat, ghost d: Device) returns (ghost d': Device)
      requires vbo == 0
      modifies this
      ensures vertices == old(vertices) && vao == genVao
      ensures vbo == (if genVao == 0 then 0 else genVbo)
      ensures uploaded == (if genVao != 0 && genVbo != 0 then vertices[..] else old(uploaded))
      ensures d' == if genVao == 0 then d
                    else if genVbo == 0 then BindVertexArray(d, genVao)
                    else BindArrayBuffer(BindVertexArray(BindArrayBuffer(BindVertexArray(d, genVao), genVbo), 0), 0)
    {
      vao := genVao;
      d' := d;
      if vao == 0 {
        return;
      }
      d' := BindVertexArray(d', vao);
      vbo := genVbo;
      if vbo == 0 {
        return;
      }
      d' := BindArrayBuffer(d', vbo);
      uploaded := vertices[..];
      d' := BindVertexArray(d', 0);
      d' := BindArrayBuffer(d', 0);
    }

    function View(cs: seq<Traversal.Node>): (n: Traversal.Node)
      reads this
      ensures n.UnitSquare? && n.children == cs
    {
      Traversal.UnitSquare(vao, vbo, cs)
    }

    /** The draw override: its own strip, then the children. */
    method Draw(cs: seq<Traversal.Node>, s: SceneState, ghost d: Device) returns (ghost d': Device)
      modifies s
      ensures (s.Value(), d') == Traversal.Draw(View(cs), old(s.Value()), d)
    {
      d' := Traversal.RenderUnitSquare(vao, vbo, cs, s, d);
    }

    /** The destructor releases each handle only if it was ever obtained. */
    method Destroy(ghost d: Device) returns (ghost d': Device)
      ensures d' == d.(released := d.released + (if vbo != 0 then [Buffer(vbo)] else [])
                                               + (if vao != 0 then [VertexArray(vao)] else []))
    {
      d' := d;
      if vbo != 0 { d' := DeleteBuffer(d', vbo); }
      if vao != 0 { d' := DeleteVertexArray(d', vao); }
    }
  }

  /**
   * A square's whole life: it releases exactly the handles it obtained,
   * each once, and a vertex array of 0 means no buffer was taken either.
   */
  method Lifecycle(genVao: nat, genVbo: nat, ghost d: Device) returns (ghost d': Device)
    ensures genVao == 0 ==> d'.released == d.released
    ensures genVao != 0 && genVbo == 0 ==> d'.released == d.released + [VertexArray(genVao)]
    ensures genVao != 0 && genVbo != 0 ==> d'.released == d.released + [Buffer(genVbo), VertexArray(genVao)]
  {
    var square := new UnitSquareNode(genVao, genVbo, d);
    d' := square.Destroy(d);
  }
}
