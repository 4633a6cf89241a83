/**
 * The room program: the square viewport kept on resize, the scene graph of
 * a room with a box in it, built under one lighting shader, and the
 * per-frame display of that graph.
 */
module RoomScene {
  import opened Matrices
  import opened Geometry
  import opened Gl
  import opened Scene
  import opened Traversal
  import opened GeometryDrawProps
  import opened TransformNodes
  import opened UnitSquareNodes
  import opened TraversalProps

  datatype Option<T> = None | Some(value: T)

  /** A viewport rectangle in window pixels. */
  datatype Viewport = Viewport(x: int, y: int, width: int, height: int)

  /** Integer division as C++ computes it: the quotient truncated toward zero. */
  function Quot(a: int, b: int): int
    requires b > 0
  {
    if a >= 0 then a / b else -((-a) / b)
  }

  function Min(a: int, b: int): int
  {
    if a <= b then a else b
  }

  /** The viewport set on a resize to `width` by `height`: a square as large as the smaller dimension. */
  function Reshape(width: int, height: int): (v: Viewport)
    ensures v.width == v.height && v.width <= width && v.width <= height
    ensures v.width == width || v.width == height
  {
    var size := Min(width, height);
    Viewport(Quot(width - size, 2), Quot(height - size, 2), size, size)
  }

  /**
   * The viewport is the largest square that fits in the window, centred:
   * its side is the smaller dimension, it lies inside the window, it is
   * flush with the window along the smaller dimension, and the margins on
   * the two sides of the larger one differ by at most one pixel.
   */
  lemma ReshapeCentresSquare(width: int, height: int)
    ensures var v := Reshape(width, height);
            && v.width == v.height
            && v.width <= width && v.width <= height && (v.width == width || v.width == height)
            && 0 <= v.x && 0 <= v.y && (v.x == 0 || v.y == 0)
            && 2 * v.x + v.width <= width && 2 * v.y + v.height <= height
            && width - (2 * v.x + v.width) <= 1 && height - (2 * v.y + v.height) <= 1
  {
  }

  /** For window dimensions a 32-bit int holds, no step of the computation leaves that range. */
  lemma ReshapeFitsInt32(width: int, height: int)
    requires 0 <= width < 0x8000_0000 && 0 <= height < 0x8000_0000
    ensures var v := Reshape(width, height);
            && 0 <= width - v.width < 0x8000_0000 && 0 <= height - v.height < 0x8000_0000
            && 0 <= v.x < 0x8000_0000 && 0 <= v.y < 0x8000_0000
  {
  }

  /** The colours of the room's surfaces. */
  const FloorColor := Color4(0.6, 0.5, 0.2, 1.0)
  const WallColor := Color4(1.0, 1.0, 1.0, 1.0)
  const BackWallColor := Color4(0.9, 0.7, 0.5, 1.0)
  const CeilingColor := Color4(0.1, 0.4, 1.0, 1.0)
  const BoxColor := Color4(0.5, 0.0, 0.5, 1.0)

  /** A surface: a transform over a colour node (blending off) over the shared square. */
  function Surface(m: Matrix, c: Color4, square: Node): Node
  {
    Transform(m, [ColorBlending(c, false, [square])])
  }

  /** The transforms of the five room surfaces, in the order their operations are applied. */
  const FloorOps: Matrix := [Op.Scale(100.0, 100.0, 1.0)]
  const LeftWallOps: Matrix := [Op.Translate(-50.0, 0.0, 50.0), Op.RotateY(90.0), Op.Scale(100.0, 100.0, 1.0)]
  const RightWallOps: Matrix := [Op.Translate(50.0, 0.0, 50.0), Op.RotateY(-90.0), Op.Scale(100.0, 100.0, 1.0)]
  const BackWallOps: Matrix := [Op.Translate(0.0, 50.0, 50.0), Op.RotateX(90.0), Op.Scale(100.0, 100.0, 1.0)]
  const CeilingOps: Matrix := [Op.Translate(0.0, 0.0, 100.0), Op.Scale(100.0, 100.0, 1.0)]
  /** The box as a whole, and its six faces relative to it. */
  const BoxOps: Matrix := [Op.Translate(25.0, 25.0, 10.0), Op.RotateZ(45.0)]
  const BoxFaceOps: seq<Matrix> := [
    [Op.Translate(0.0, 10.0, 0.0), Op.RotateX(90.0), Op.Scale(40.0, 20.0, 1.0)],
    [Op.Translate(0.0, -10.0, 0.0), Op.RotateX(90.0), Op.RotateZ(180.0), Op.Scale(40.0, 20.0, 1.0)],
    [Op.Translate(-20.0, 0.0, 0.0), Op.RotateY(-90.0), Op.Scale(20.0, 20.0, 1.0)],
    [Op.Translate(20.0, 0.0, 0.0), Op.RotateY(90.0), Op.Scale(20.0, 20.0, 1.0)],
    [Op.Translate(0.0, 0.0, 10.0), Op.Scale(40.0, 20.0, 1.0)],
    [Op.Translate(0.0, 0.0, -10.0), Op.Scale(40.0, 20.0, 1.0)]]

  /** The box: its transform over the six faces, each a purple surface. */
  function Box(square: Node): (n: Node)
    ensures n.Transform? && n.composite == BoxOps && |n.children| == 6
    ensures forall i | 0 <= i < 6 :: n.children[i] == Surface(BoxFaceOps[i], BoxColor, square)
  {
    Transform(BoxOps, seq(6, i requires 0 <= i < 6 => Surface(BoxFaceOps[i], BoxColor, square)))
  }

  /** The intended scene: the lighting shader over floor, left, right and back walls, ceiling and box. */
  function Room(p: int, h: Handles, square: Node): Node
  {
    LightingShader(p, h, [
      Surface(FloorOps, FloorColor, square),
      Surface(LeftWallOps, WallColor, square),
      Surface(RightWallOps, WallColor, square),
      Surface(BackWallOps, BackWallColor, square),
      Surface(CeilingOps, CeilingColor, square),
      Box(square)])
  }

  /** Builds the floor: a new transform, its mutators in order, a colour node over the square. */
  method FloorSurface(square: Node) returns (n: Node)
    ensures n == Surface(FloorOps, FloorColor, square)
  {
    var t := new TransformNode();
    t.Scale(100.0, 100.0, 1.0);
    n := t.View([ColorBlending(FloorColor, false, [square])]);
  }

  /** Builds the left wall: a new transform, its mutators in order, a colour node over the square. */
  method LeftWallSurface(square: Node) returns (n: Node)
    ensures n == Surface(LeftWallOps, WallColor, square)
  {
    var t := new TransformNode();
    t.Translate(-50.0, 0.0, 50.0);
    t.RotateY(90.0);
    t.Scale(100.0, 100.0, 1.0);
    n := t.View([ColorBlending(WallColor, false, [square])]);
  }

  /** Builds the right wall: a new transform, its mutators in order, a colour node over the square. */
  method RightWallSurface(square: Node) returns (n: Node)
    ensures n == Surface(RightWallOps, WallColor, square)
  {
    var t := new TransformNode();
    t.Translate(50.0, 0.0, 50.0);
    t.RotateY(-90.0);
    t.Scale(100.0, 100.0, 1.0);
    n := t.View([ColorBlending(WallColor, false, [square])]);
  }

  /** Builds the back wall: a new transform, its mutators in order, a colour node over the square. */
  method BackWallSurface(square: Node) returns (n: Node)
    ensures n == Surface(BackWallOps, BackWallColor, square)
  {
    var t := new TransformNode();
    t.Translate(0.0, 50.0, 50.0);
    t.RotateX(90.0);
    t.Scale(100.0, 100.0, 1.0);
    n := t.View([ColorBlending(BackWallColor, false, [square])]);
  }

  /** Builds the ceiling: a new transform, its mutators in order, a colour node over the square. */
  method CeilingSurface(square: Node) returns (n: Node)
    ensures n == Surface(CeilingOps, CeilingColor, square)
  {
    var t := new TransformNode();
    t.Translate(0.0, 0.0, 100.0);
    t.Scale(100.0, 100.0, 1.0);
    n := t.View([ColorBlending(CeilingColor, false, [square])]);
  }

  /** Builds box face 1 (front): a new transform, its mutators in order, a colour node over the square. */
  method BoxFace1(square: Node) returns (n: Node)
    ensures n == Surface(BoxFaceOps[0], BoxColor, square)
  {
    var t := new TransformNode();
    t.Translate(0.0, 10.0, 0.0);
    t.RotateX(90.0);
    t.Scale(40.0, 20.0, 1.0);
    n := t.View([ColorBlending(BoxColor, false, [square])]);
  }

  /** Builds box face 2 (back): a new transform, its mutators in order, a colour node over the square. */
  method BoxFace2(square: Node) returns (n: Node)
    ensures n == Surface(BoxFaceOps[1], BoxColor, square)
  {
    var t := new TransformNode();
    t.Translate(0.0, -10.0, 0.0);
    t.RotateX(90.0);
    t.RotateZ(180.0);
    t.Scale(40.0, 20.0, 1.0);
    n := t.View([ColorBlending(BoxColor, false, [square])]);
  }

  /** Builds box face 3 (left): a new transform, its mutators in order, a colour node over the square. */
  method BoxFace3(square: Node) returns (n: Node)
    ensures n == Surface(BoxFaceOps[2], BoxColor, square)
  {
    var t := new TransformNode();
    t.Translate(-20.0, 0.0, 0.0);
    t.RotateY(-90.0);
    t.Scale(20.0, 20.0, 1.0);
    n := t.View([ColorBlending(BoxColor, false, [square])]);
  }

  /** Builds box face 4 (right): a new transform, its mutators in order, a colour node over the square. */
  method BoxFace4(square: Node) returns (n: Node)
    ensures n == Surface(BoxFaceOps[3], BoxColor, square)
  {
    var t := new TransformNode();
    t.Translate(20.0, 0.0, 0.0);
    t.RotateY(90.0);
    t.Scale(20.0, 20.0, 1.0);
    n := t.View([ColorBlending(BoxColor, false, [square])]);
  }

  /** Builds box face 5 (top): a new transform, its mutators in order, a colour node over the square. */
  method BoxFace5(square: Node) returns (n: Node)
    ensures n == Surface(BoxFaceOps[4], BoxColor, square)
  {
    var t := new TransformNode();
    t.Translate(0.0, 0.0, 10.0);
    t.Scale(40.0, 20.0, 1.0);
    n := t.View([ColorBlending(BoxColor, false, [square])]);
  }

  /** Builds box face 6 (bottom): a new transform, its mutators in order, a colour node over the square. */
  method BoxFace6(square: Node) returns (n: Node)
    ensures n == Surface(BoxFaceOps[5], BoxColor, square)
  {
    var t := new TransformNode();
    t.Translate(0.0, 0.0, -10.0);
    t.Scale(40.0, 20.0, 1.0);
    n := t.View([ColorBlending(BoxColor, false, [square])]);
  }

  /** Builds the box: its main transform over the six faces, in order. */
  method BoxNode(square: Node) returns (n: Node)
    ensures n == Box(square)
  {
    var t := new TransformNode();
    t.Translate(25.0, 25.0, 10.0);
    t.RotateZ(45.0);
    var face1 := BoxFace1(square);
    var face2 := BoxFace2(square);
    var face3 := BoxFace3(square);
    var face4 := BoxFace4(square);
    var face5 := BoxFace5(square);
    var face6 := BoxFace6(square);
    n := t.View([face1, face2, face3, face4, face5, face6]);
  }

  /**
   * Builds the scene. `created` and `located` are the outcomes of the
   * lighting shader's creation and location lookup (the lookup is made
   * only after a successful creation); if either fails the program exits
   * and no scene exists. Otherwise one unit square, with the handles
   * `genVao` and `genVbo` from the context, is shared by all eleven colour
   * nodes.
   */
  method ConstructScene(created: bool, located: bool, p: int, h: Handles, genVao: nat, genVbo: nat, ghost d: Device)
      returns (root: Option<Node>)
    ensures root.None? <==> !created || !located
    ensures root.Some? ==> root.value == Room(p, h, UnitSquare(genVao, if genVao == 0 then 0 else genVbo, []))
  {
    if !created || !located {
      return None;
    }
    var unitSquare := new UnitSquareNode(genVao, genVbo, d);
    var square := unitSquare.View([]);
    var floor := FloorSurface(square);
    var leftWall := LeftWallSurface(square);
    var rightWall := RightWallSurface(square);
    var backWall := BackWallSurface(square);
    var ceiling := CeilingSurface(square);
    var box := BoxNode(square);
    root := Some(LightingShader(p, h, [floor, leftWall, rightWall, backWall, ceiling, box]));
  }

  /**
   * The per-frame display: the graph is drawn only if a root exists.
   * Clearing the frame and swapping the window's buffers are not modelled.
   */
  method Display(root: Option<Node>, s: SceneState, ghost d: Device) returns (ghost d': Device)
    modifies s
    ensures root.None? ==> s.Value() == old(s.Value()) && d' == d
    ensures root.Some? ==> (s.Value(), d') == Draw(root.value, old(s.Value()), d)
  {
    d' := d;
    if root.Some? {
      d' := Render(root.value, s, d);
    }
  }

  /** The number of places at which `x` occurs in the graph below `n`, `n` included. */
  function Occurrences(n: Node, x: Node): nat
    decreases n
  {
    (if n == x then 1 else 0) +
    match n
    case PointSet(_, _) => 0
    case DragLine(_, _, _) => 0
    case NGon(_, _) => 0
    case _ => OccurrencesIn(n.children, x)
  }

  function OccurrencesIn(cs: seq<Node>, x: Node): nat
    decreases cs
  {
    if |cs| == 0 then 0 else OccurrencesIn(cs[..|cs| - 1], x) + Occurrences(cs[|cs| - 1], x)
  }

  /** A part of the room: no shader, no blending, only the square's geometry, drawn once per occurrence of it. */
  ghost predicate Plain(n: Node, square: Node)
    requires square.UnitSquare?
  {
    SquaresOnly(n, square.vao) && NoShaders(n) && NoBlending(n) && DrawCount(n) == Occurrences(n, square)
  }

  /** A surface holds the square once, and is plain. */
  lemma SurfaceIsPlain(m: Matrix, c: Color4, vao: nat, vbo: nat)
    ensures var square := UnitSquare(vao, vbo, []);
            Plain(Surface(m, c, square), square) && Occurrences(Surface(m, c, square), square) == 1
  {
    var square := UnitSquare(vao, vbo, []);
    var color := ColorBlending(c, false, [square]);
    assert [square][..0] == [] && [color][..0] == [];
    assert OccurrencesIn([square], square) == 1;
    assert DrawCountChildren([square]) == 1;
    assert OccurrencesIn([color], square) == 1;
    assert DrawCountChildren([color]) == 1;
  }

  /** Plain parts side by side are plain, and their occurrences of the square add up. */
  lemma {:induction false} PlainChildren(cs: seq<Node>, square: Node)
    requires square.UnitSquare?
    requires forall i | 0 <= i < |cs| :: Plain(cs[i], square)
    ensures DrawCountChildren(cs) == OccurrencesIn(cs, square)
    decreases cs
  {
    if |cs| > 0 {
      PlainChildren(cs[..|cs| - 1], square);
    }
  }

  /** All six faces hold the square once each, so the box holds it six times. */
  lemma BoxIsPlain(vao: nat, vbo: nat)
    ensures var square := UnitSquare(vao, vbo, []);
            Plain(Box(square), square) && Occurrences(Box(square), square) == 6
  {
    var square := UnitSquare(vao, vbo, []);
    var faces := Box(square).children;
    forall i | 0 <= i < 6
      ensures Plain(faces[i], square) && Occurrences(faces[i], square) == 1
    {
      SurfaceIsPlain(BoxFaceOps[i], BoxColor, vao, vbo);
    }
    PlainChildren(faces, square);
    OnesAddUp(faces, square);
  }

  lemma {:induction false} OnesAddUp(cs: seq<Node>, x: Node)
    requires forall i | 0 <= i < |cs| :: Occurrences(cs[i], x) == 1
    ensures OccurrencesIn(cs, x) == |cs|
    decreases cs
  {
    if |cs| > 0 {
      OnesAddUp(cs[..|cs| - 1], x);
    }
  }

  /**
   * The one unit square is shared: it occurs eleven times in the room,
   * once under each of the eleven colour nodes, and the root holds exactly
   * the floor, the left, right and back walls, the ceiling and the box.
   */
  lemma RoomSharesOneSquare(p: int, h: Handles, vao: nat, vbo: nat)
    ensures var square := UnitSquare(vao, vbo, []);
            var root := Room(p, h, square);
            && Occurrences(root, square) == 11
            && |root.children| == 6
            && (forall i | 0 <= i < 5 :: root.children[i].Transform? && root.children[i].children[0].ColorBlending?)
            && root.children[5] == Box(square)
  {
    var square := UnitSquare(vao, vbo, []);
    var cs := Room(p, h, square).children;
    forall i | 0 <= i < 5 ensures Plain(cs[i], square) && Occurrences(cs[i], square) == 1 {
      SurfaceIsPlain([FloorOps, LeftWallOps, RightWallOps, BackWallOps, CeilingOps][i],
                     [FloorColor, WallColor, WallColor, BackWallColor, CeilingColor][i], vao, vbo);
    }
    OnesAddUp(cs[..5], square);
    BoxIsPlain(vao, vbo);
    assert cs[..6][..5] == cs[..5] && cs[..6] == cs;
  }

  /**
   * Displaying the room submits eleven draw calls, each a four-vertex
   * triangle strip of the shared square under the lighting program, with
   * blending as it was; afterwards the model matrix and the stack are as
   * before and the handle table is the lighting shader's.
   */
  lemma RoomDraw(p: int, h: Handles, vao: nat, vbo: nat, s: Frame, d: Device)
    ensures var r := Draw(Room(p, h, UnitSquare(vao, vbo, [])), s, d);
            && |r.1.draws| == |d.draws| + 11
            && StripsSince(d, r.1, vao, p)
            && (forall k | |d.draws| <= k < |r.1.draws| :: r.1.draws[k].blend == d.blend)
            && r.1.program == p && r.1.blend == d.blend
            && r.0 == s.(locs := h)
  {
    var square := UnitSquare(vao, vbo, []);
    var cs := Room(p, h, square).children;
    forall i | 0 <= i < 5 ensures Plain(cs[i], square) && Occurrences(cs[i], square) == 1 {
      SurfaceIsPlain([FloorOps, LeftWallOps, RightWallOps, BackWallOps, CeilingOps][i],
                     [FloorColor, WallColor, WallColor, BackWallColor, CeilingColor][i], vao, vbo);
    }
    BoxIsPlain(vao, vbo);
    RoomSharesOneSquare(p, h, vao, vbo);
    PlainChildren(cs, square);
    var s1 := s.(locs := h);
    var d1 := UseProgram(d, p);
    DrawsAppendedChildren(cs, s1, d1);
    OnlyStripsChildren(cs, vao, s1, d1);
    BlendKeptChildren(cs, s1, d1);
    DrawsKeepBlendChildren(cs, s1, d1);
    NoShadersKeepFrameChildren(cs, s1, d1);
  }
}
