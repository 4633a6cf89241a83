/**
 * The draggable line node: one line segment between two coloured
 * vertices, drawn only while its draw flag is set.
 */
module DragLineNodes {
  import opened Geometry
  import opened Scene
  import opened Gl
  import Traversal

  /** The number of lines the node holds. */
  const LineCapacity := 2

  class DragLineNode {
    var drawFlag: bool
    var vao: nat
    var vbo: nat
    var width: real
    var capacity: nat
    var startVertex: PositionAndColor
    var endVertex: PositionAndColor
    /** The contents of the vertex buffer object, one vertex per slot. */
    var buffer: array<PositionAndColor>
    /** The colours given at construction. */
    ghost var startColor: Color4
    ghost var endColor: Color4

    /** The buffer has room for two vertices per line, and the vertex colours are the constructed ones. */
    ghost predicate Valid()
      reads this
    {
      capacity == LineCapacity && buffer.Length == 2 * LineCapacity &&
      startVertex.color == startColor && endVertex.color == endColor
    }

    /**
     * Stores the width and the two colours, allocates a buffer of four
     * vertices, and starts with drawing off. The vertex positions and the
     * buffer's contents are not initialised: nothing is claimed about them.
     */
    constructor (color1: Color4, color2: Color4, w: real, positionLoc: int, colorLoc: int, vbo: nat, vao: nat)
      ensures Valid() && fresh(buffer) && !drawFlag
      ensures width == w && startColor == color1 && endColor == color2
      ensures this.vbo == vbo && this.vao == vao
    {
      width := w;
      capacity := LineCapacity;
      buffer := new PositionAndColor[2 * LineCapacity];
      this.vbo := vbo;
      this.vao := vao;
      startColor := color1;
      endColor := color2;
      drawFlag := false;
      new;
      startVertex := startVertex.(color := color1);
      endVertex := endVertex.(color := color2);
    }

    /**
     * The constructor as the program has it: the draw flag is never
     * assigned, so it holds whatever its storage held; `indeterminate`
     * stands for that value.
     */
    constructor AsWritten(color1: Color4, color2: Color4, w: real, positionLoc: int, colorLoc: int,
                          vbo: nat, vao: nat, indeterminate: bool)
      ensures Valid() && fresh(buffer) && drawFlag == indeterminate
      ensures width == w && startColor == color1 && endColor == color2
      ensures this.vbo == vbo && this.vao == vao
    {
      width := w;
      capacity := LineCapacity;
      buffer := new PositionAndColor[2 * LineCapacity];
      this.vbo := vbo;
      this.vao := vao;
      startColor := color1;
      endColor := color2;
      drawFlag := indeterminate;
      new;
      startVertex := startVertex.(color := color1);
      endVertex := endVertex.(color := color2);
    }

    method SetWidth(w: real)
      modifies this
      ensures width == w
      ensures drawFlag == old(drawFlag) && startVertex == old(startVertex) && endVertex == old(endVertex)
      ensures buffer == old(buffer) && vao == old(vao) && vbo == old(vbo) && capacity == old(capacity)
      ensures startColor == old(startColor) && endColor == old(endColor)
    {
      width := w;
    }

    /** Stops drawing the line; nothing else changes. */
    method Clear()
      modifies this
      ensures !drawFlag
      ensures width == old(width) && startVertex == old(startVertex) && endVertex == old(endVertex)
      ensures buffer == old(buffer) && vao == old(vao) && vbo == old(vbo) && capacity == old(capacity)
      ensures startColor == old(startColor) && endColor == old(endColor)
    {
      drawFlag := false;
    }

    /** Moves the start point, rewrites buffer slot 0 with the start vertex, and stops drawing; the line's buffer stays bound. */
    method ReplacePoint0(p: Point2, ghost d: Device) returns (ghost d': Device)
      requires Valid()
      modifies this, buffer
      ensures d' == BindArrayBuffer(d, vbo)
      ensures Valid() && !drawFlag
      ensures startVertex == old(startVertex).(position := p)
      ensures buffer == old(buffer) && buffer[..] == old(buffer[..])[0 := startVertex]
      ensures width == old(width) && endVertex == old(endVertex)
      ensures vao == old(vao) && vbo == old(vbo)
      ensures startColor == old(startColor) && endColor == old(endColor)
    {
      d' := BindArrayBuffer(d, vbo);
      startVertex := startVertex.(position := p);
      buffer[0] := startVertex;
      drawFlag := false;
    }

    /** Moves the end point, rewrites buffer slot 1 with the end vertex, and starts drawing; the line's buffer stays bound. */
    method ReplacePoint1(q: Point2, ghost d: Device) returns (ghost d': Device)
      requires Valid()
      modifies this, buffer
      ensures d' == BindArrayBuffer(d, vbo)
      ensures Valid() && drawFlag
      ensures endVertex == old(endVertex).(position := q)
      ensures buffer == old(buffer) && buffer[..] == old(buffer[..])[1 := endVertex]
      ensures width == old(width) && startVertex == old(startVertex)
      ensures vao == old(vao) && vbo == old(vbo)
      ensures startColor == old(startColor) && endColor == old(endColor)
    {
      d' := BindArrayBuffer(d, vbo);
      endVertex := endVertex.(position := q);
      buffer[1] := endVertex;
      drawFlag := true;
    }

    function View(): (n: Traversal.Node)
      reads this
      ensures n.DragLine? && n.vao == vao
    {
      Traversal.DragLine(drawFlag, width, vao)
    }

    /** The draw override: the scene state is left alone. */
    method Draw(s: SceneState, ghost d: Device) returns (ghost d': Device)
      ensures (s.Value(), d') == Traversal.Draw(View(), s.Value(), d)
    {
      d' := Traversal.RenderDragLine(drawFlag, width, vao, s, d);
    }
  }

  /**
   * A drag from `p` to `q`: after the start point and then the end point
   * are replaced, the buffer's first two slots hold the two points with
   * the constructed colours, and the next draw submits the line at the
   * node's width.
   */
  method Drag(line: DragLineNode, p: Point2, q: Point2, s: SceneState, ghost d: Device) returns (ghost d': Device)
    requires line.Valid()
    modifies line, line.buffer
    ensures line.Valid() && line.drawFlag
    ensures line.buffer == old(line.buffer)
    ensures line.buffer[..2] == [PositionAndColor(p, line.startColor), PositionAndColor(q, line.endColor)]
    ensures d'.draws == d.draws + [DrawCall(Lines, 0, 2, line.vao, d.blend, d.issued,
                                            Enabled(d, line.vao), line.width, d.program)]
    ensures d'.arrayBuffer == line.vbo
  {
    var d1 := line.ReplacePoint0(p, d);
    var d2 := line.ReplacePoint1(q, d1);
    d' := line.Draw(s, d2);
  }

  /**
   * As written, a frame displayed before any point was placed can already
   * draw a line, from buffer contents that were never written: it does so
   * whenever the unassigned flag's storage reads as true.
   */
  method FirstDrawAsWritten(color1: Color4, color2: Color4, w: real, positionLoc: int, colorLoc: int, vbo: nat, vao: nat, s: SceneState, ghost d: Device)
      returns (ghost d': Device)
    ensures |d'.draws| == |d.draws| + 1 && d'.draws[|d.draws|].mode == Lines
  {
    var line := new DragLineNode.AsWritten(color1, color2, w, positionLoc, colorLoc, vbo, vao, true);
    d' := line.Draw(s, d);
  }

  /** With the flag set to false at construction, nothing is drawn until the end point is placed. */
  method FirstDrawCorrected(color1: Color4, color2: Color4, w: real, positionLoc: int, colorLoc: int, vbo: nat, vao: nat, s: SceneState, ghost d: Device)
      returns (ghost d': Device)
    ensures d' == d
  {
    var line := new DragLineNode(color1, color2, w, positionLoc, colorLoc, vbo, vao);
    d' := line.Draw(s, d);
  }
}
