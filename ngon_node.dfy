/**
 * The n-gon node: a triangle fan around a centre, with the ring points
 * kept for intersection tests.
 */
module NGonNodes {
  import opened Geometry
  import opened Scene
  import opened Gl
  import Traversal

  /** The number of ring points a request for `numSides` sides produces. */
  function Sides(numSides: int): nat
  {
    if numSides > 0 then numSides else 0
  }

  /** The ring points: point `i` of the circle, for each side `i`. */
  function Ring(numSides: int, ring: int -> Point2): (r: seq<Point2>)
    ensures |r| == Sides(numSides)
    ensures forall i | 0 <= i < |r| :: r[i] == ring(i)
  {
    seq(Sides(numSides), i => ring(i))
  }

  /** The point that closes the fan: the circle point at angle 0, computed exactly. */
  function Closing(center: Point2, radius: real): Point2
  {
    Point2(center.x + radius, center.y)
  }

  /** The fan's vertices: the centre, the ring points, the closing point. */
  function Fan(center: Point2, numSides: int, radius: real, ring: int -> Point2): seq<Point2>
  {
    [center] + Ring(numSides, ring) + [Closing(center, radius)]
  }

  /**
   * Builds the fan's vertex list one point at a time. `ring(i)` stands for
   * the point at the i-th angle step on the circle of the given radius.
   */
  method BuildVertexList(center: Point2, numSides: int, radius: real, ring: int -> Point2) returns (list: seq<Point2>)
    ensures |list| == Sides(numSides) + 2
    ensures list[0] == center && list[|list| - 1] == Closing(center, radius)
    ensures list[1..|list| - 1] == Ring(numSides, ring)
  {
    list := [center];
    var i := 0;
    while i < numSides
      invariant 0 <= i <= Sides(numSides)
      invariant |list| == i + 1 && list[0] == center
      invariant forall j | 0 <= j < i :: list[j + 1] == ring(j)
    {
      list := list + [ring(i)];
      i := i + 1;
    }
    list := list + [Closing(center, radius)];
  }

  /** The vertex list of `BuildVertexList` is the fan. */
  lemma BuildIsFan(list: seq<Point2>, center: Point2, numSides: int, radius: real, ring: int -> Point2)
    requires |list| == Sides(numSides) + 2
    requires list[0] == center && list[|list| - 1] == Closing(center, radius)
    requires list[1..|list| - 1] == Ring(numSides, ring)
    ensures list == Fan(center, numSides, radius, ring)
  {
    assert list == [list[0]] + list[1..|list| - 1] + [list[|list| - 1]];
  }

  class NGonNode {
    var numVerts: int
    var vbo: nat
    var vao: nat
    /** The ring points, for intersection computations. */
    var vertexList: seq<Point2>
    /** The contents of the vertex buffer object. */
    var buffered: seq<Point2>

    /** The kept list is the buffered fan without its centre and its closing point. */
    predicate Valid()
      reads this
    {
      numVerts == |buffered| && numVerts >= 2 && vertexList == buffered[1..numVerts - 1]
    }

    /**
     * Builds and buffers the fan, records its vertex count, then keeps only
     * the ring points.
     */
    constructor (center: Point2, numSides: int, radius: real, positionLoc: int,
                 ring: int -> Point2, vbo: nat, vao: nat)
      ensures Valid()
      ensures buffered == Fan(center, numSides, radius, ring)
      ensures numVerts == Sides(numSides) + 2
      ensures vertexList == Ring(numSides, ring)
      ensures this.vbo == vbo && this.vao == vao
    {
      var list := BuildVertexList(center, numSides, radius, ring);
      BuildIsFan(list, center, numSides, radius, ring);
      buffered := list;
      this.vbo := vbo;
      numVerts := |list|;
      this.vao := vao;
      list := list[1..];
      list := list[..|list| - 1];
      vertexList := list;
    }

    method GetVertexList() returns (list: seq<Point2>)
      requires Valid()
      ensures list == buffered[1..numVerts - 1]
    {
      return vertexList;
    }

    function View(): (n: Traversal.Node)
      reads this
      ensures n.NGon? && n.vao == vao
    {
      Traversal.NGon(numVerts, vao)
    }

    /** The draw override: the scene state is left alone. */
    method Draw(s: SceneState, ghost d: Device) returns (ghost d': Device)
      ensures (s.Value(), d') == Traversal.Draw(View(), s.Value(), d)
    {
      d' := Traversal.RenderNGon(numVerts, vao, s, d);
    }

    /** The destructor releases the buffer and then the vertex array, once each. */
    method Destroy(ghost d: Device) returns (ghost d': Device)
      ensures d'.released == d.released + [Buffer(vbo), VertexArray(vao)]
      ensures d' == DeleteVertexArray(DeleteBuffer(d, vbo), vao)
    {
      d' := DeleteBuffer(d, vbo);
      d' := DeleteVertexArray(d', vao);
    }
  }

  /** With no sides, the fan is the centre and the closing point, and no ring point is kept. */
  lemma NoSides(center: Point2, numSides: int, radius: real, ring: int -> Point2)
    requires numSides <= 0
    ensures Fan(center, numSides, radius, ring) == [center, Closing(center, radius)]
    ensures Ring(numSides, ring) == []
  {
  }
}
