/**
 * The scene graph and its traversal.
 *
 * Every node kind overrides `draw(SceneState&)`. Here the node kinds form one
 * closed datatype and a single function, `Draw`, gives the effect of each
 * override on the scene state and on the device; `Render` is the in-place
 * traversal, proved to have exactly that effect. The base traversal (draw the
 * children in list order with the same state) is `DrawChildren`.
 *
 * Geometry nodes appear by the fields their draw reads; their state machines
 * are the classes of the geometry modules, each of which gives its node here
 * through a `View` function.
 */
module Traversal {
  import opened Matrices
  import opened Geometry
  import opened Gl
  import opened Scene

  /** Number of vertices of the unit square's triangle strip. */
  const SquareVertexCount := 4

  datatype Node =
      /** A plain scene node: draws its children. */
    | Group(children: seq<Node>)
      /** A transform node with its composite transform. */
    | Transform(composite: Matrix, children: seq<Node>)
      /** A colour presentation node, optionally blending. */
    | ColorBlending(color: Color4, blending: bool, children: seq<Node>)
      /** The n-gon shader with its program and its three resolved handles. */
    | NGonShader(program: int, orthoLoc: int, colorLoc: int, positionLoc: int, children: seq<Node>)
      /** The point shader with its program and its two resolved handles. */
    | PointShader(program: int, orthoLoc: int, positionLoc: int, children: seq<Node>)
      /** The lighting shader of the room scene, with the handle table it publishes. */
    | LightingShader(program: int, handles: Handles, children: seq<Node>)
      /** A point set: its current vertex count and its vertex array. */
    | PointSet(count: int, vao: nat)
      /** A draggable line: its draw flag, its width and its vertex array. */
    | DragLine(visible: bool, width: real, vao: nat)
      /** An n-gon: its buffered vertex count and its vertex array. */
    | NGon(numVerts: int, vao: nat)
      /** The unit square: its vertex array and buffer, and its children. */
    | UnitSquare(vao: nat, vbo: nat, children: seq<Node>)

  /** The scene state after a draw equals the one before in everything a draw must restore or never touches. */
  ghost predicate Restores(s: Frame, s': Frame)
  {
    s'.model == s.model && s'.stack == s.stack && s'.pv == s.pv && s'.ortho == s.ortho
  }

  /** The device after a draw extends the one before: draw calls are only appended, nothing is released. */
  ghost predicate Extends(d: Device, d': Device)
  {
    d.draws <= d'.draws && d'.released == d.released
  }

  /** An upload that is skipped when the location is negative. */
  function UploadIfValid(d: Device, loc: int, u: Uniform): Device
  {
    if loc >= 0 then SetUniform(d, loc, u) else d
  }

  /**
   * The effect of drawing `n` with scene state `s` on device `d`. The
   * postcondition is the balance invariant: whatever the tree, the model
   * matrix and the transform stack are as they were on entry.
   */
  function Draw(n: Node, s: Frame, d: Device): (r: (Frame, Device))
    ensures Restores(s, r.0) && Extends(d, r.1)
    decreases n
  {
    match n
    case Group(cs) =>
      DrawChildren(cs, s, d)
    case Transform(m, cs) =>
      var s1 := Push(s).(model := Mul(s.model, m));
      var r := DrawChildren(cs, s1, PublishMatrices(d, s1));
      (Pop(r.0), r.1)
    case ColorBlending(c, blending, cs) =>
      var d1 := if blending then BlendOn(d) else d;
      var r := DrawChildren(cs, s, SetUniform(d1, s.locs.color, Vec4(c)));
      (r.0, if blending then DisableBlend(r.1) else r.1)
    case NGonShader(p, orthoLoc, colorLoc, positionLoc, cs) =>
      var s1 := s.(locs := s.locs.(ortho := orthoLoc, color := colorLoc, position := positionLoc));
      var d1 := SetUniform(UseProgram(d, p), orthoLoc, Mat4(s1.ortho));
      DrawChildren(cs, s1, d1)
    case PointShader(p, orthoLoc, positionLoc, cs) =>
      var s1 := s.(locs := s.locs.(ortho := orthoLoc, position := positionLoc));
      var d1 := SetUniform(UseProgram(d, p), orthoLoc, Mat4(s1.ortho));
      DrawChildren(cs, s1, d1)
    case LightingShader(p, h, cs) =>
      DrawChildren(cs, s.(locs := h), UseProgram(d, p))
    case PointSet(count, vao) =>
      if count > 0 then
        (s, BindVertexArray(DrawArrays(BindVertexArray(d, vao), Points, 0, count), 0))
      else
        (s, d)
    case DragLine(visible, width, vao) =>
      if visible then
        (s, BindVertexArray(DrawArrays(BindVertexArray(LineWidth(d, width), vao), Lines, 0, 2), 0))
      else
        (s, d)
    case NGon(numVerts, vao) =>
      (s, BindVertexArray(DrawArrays(BindVertexArray(d, vao), TriangleFan, 0, numVerts), 0))
    case UnitSquare(vao, vbo, cs) =>
      DrawChildren(cs, s, DrawSquare(d, vao, vbo, s.locs))
  }

  /**
   * A transform node's uploads with the composed model matrix in `s`: the
   * model matrix, the normal matrix (the model matrix itself) and the pvm
   * matrix, each only to a location that is not negative.
   */
  function PublishMatrices(d: Device, s: Frame): Device
  {
    var normal := s.model;
    var pvm := Mul(s.pv, s.model);
    var d1 := UploadIfValid(d, s.locs.model, Mat4(s.model));
    var d2 := UploadIfValid(d1, s.locs.normalMatrix, Mat4(normal));
    UploadIfValid(d2, s.locs.pvm, Mat4(pvm))
  }

  /** A blending colour node's blend set-up. */
  function BlendOn(d: Device): Device
  {
    EnableBlend(SetBlendFunc(d, SrcAlpha, OneMinusSrcAlpha))
  }

  /**
   * The unit square's own drawing: bind, enable the valid position and
   * normal attributes, draw the strip, disable them again, unbind.
   */
  function DrawSquare(d: Device, vao: nat, vbo: nat, h: Handles): Device
  {
    var pos := h.position;
    var nrm := h.normal;
    var d1 := BindArrayBuffer(BindVertexArray(d, vao), vbo);
    var d2 := if pos >= 0 then EnableAttrib(d1, pos) else d1;
    var d3 := if nrm >= 0 then EnableAttrib(d2, nrm) else d2;
    var d4 := DrawArrays(d3, TriangleStrip, 0, SquareVertexCount);
    var d5 := if pos >= 0 then DisableAttrib(d4, pos) else d4;
    var d6 := if nrm >= 0 then DisableAttrib(d5, nrm) else d5;
    BindVertexArray(BindArrayBuffer(d6, 0), 0)
  }

  /** The base traversal: the children drawn one after another, in list order, with the same state. */
  function DrawChildren(cs: seq<Node>, s: Frame, d: Device): (r: (Frame, Device))
    ensures Restores(s, r.0) && Extends(d, r.1)
    decreases cs
  {
    if |cs| == 0 then (s, d)
    else
      var r := DrawChildren(cs[..|cs| - 1], s, d);
      Draw(cs[|cs| - 1], r.0, r.1)
  }

  /** Drawing one child is drawing that child. */
  lemma DrawOneChild(c: Node, s: Frame, d: Device)
    ensures DrawChildren([c], s, d) == Draw(c, s, d)
  {
    assert [c][..0] == [];
  }

  /** Drawing the children `cs + [c]` is drawing `cs`, then `c` in the state they leave. */
  lemma DrawChildrenSnoc(cs: seq<Node>, c: Node, s: Frame, d: Device)
    ensures var r := DrawChildren(cs, s, d);
            DrawChildren(cs + [c], s, d) == Draw(c, r.0, r.1)
  {
    assert (cs + [c])[..|cs|] == cs;
  }

  /**
   * The in-place traversal: the virtual `draw` call, dispatched to the
   * override of each node kind, each of which updates the scene state
   * object and the device in place.
   */
  method Render(n: Node, s: SceneState, ghost d: Device) returns (ghost d': Device)
    modifies s
    ensures (s.Value(), d') == Draw(n, old(s.Value()), d)
    decreases n, 2
  {
    match n
    case Group(cs) =>
      d' := RenderChildren(cs, s, d);
    case Transform(m, cs) =>
      d' := RenderTransform(m, cs, s, d);
    case ColorBlending(c, blending, cs) =>
      d' := RenderColor(c, blending, cs, s, d);
    case NGonShader(p, orthoLoc, colorLoc, positionLoc, cs) =>
      d' := RenderNGonShader(p, orthoLoc, colorLoc, positionLoc, cs, s, d);
    case PointShader(p, orthoLoc, positionLoc, cs) =>
      d' := RenderPointShader(p, orthoLoc, positionLoc, cs, s, d);
    case LightingShader(p, h, cs) =>
      d' := RenderLightingShader(p, h, cs, s, d);
    case PointSet(count, vao) =>
      d' := RenderPointSet(count, vao, s, d);
    case DragLine(visible, width, vao) =>
      d' := RenderDragLine(visible, width, vao, s, d);
    case NGon(numVerts, vao) =>
      d' := RenderNGon(numVerts, vao, s, d);
    case UnitSquare(vao, vbo, cs) =>
      d' := RenderUnitSquare(vao, vbo, cs, s, d);
  }

  /** The transform node's override: push, compose, publish, draw the children, pop. */
  method RenderTransform(m: Matrix, cs: seq<Node>, s: SceneState, ghost d: Device) returns (ghost d': Device)
    modifies s
    ensures (s.Value(), d') == Draw(Transform(m, cs), old(s.Value()), d)
    decreases cs, 1
  {
    s.PushTransforms();
    s.modelMatrix := Mul(s.modelMatrix, m);
    d' := UploadMatrices(s, d);
    d' := RenderChildren(cs, s, d');
    s.PopTransforms();
  }

  /** The colour node's override: blending on if asked, colour upload, the children, blending off if asked. */
  method RenderColor(c: Color4, blending: bool, cs: seq<Node>, s: SceneState, ghost d: Device) returns (ghost d': Device)
    modifies s
    ensures (s.Value(), d') == Draw(ColorBlending(c, blending, cs), old(s.Value()), d)
    decreases cs, 1
  {
    d' := d;
    if blending {
      d' := SetBlendFunc(d', SrcAlpha, OneMinusSrcAlpha);
      d' := EnableBlend(d');
    }
    d' := SetUniform(d', s.colorLoc, Vec4(c));
    d' := RenderChildren(cs, s, d');
    if blending { d' := DisableBlend(d'); }
  }

  /** The n-gon shader's override: use the program, publish three handles, upload the ortho matrix, the children. */
  method RenderNGonShader(p: int, orthoLoc: int, colorLoc: int, positionLoc: int, cs: seq<Node>,
                          s: SceneState, ghost d: Device) returns (ghost d': Device)
    modifies s
    ensures (s.Value(), d') == Draw(NGonShader(p, orthoLoc, colorLoc, positionLoc, cs), old(s.Value()), d)
    decreases cs, 1
  {
    d' := UseProgram(d, p);
    s.orthoMatrixLoc := orthoLoc;
    s.colorLoc := colorLoc;
    s.positionLoc := positionLoc;
    d' := SetUniform(d', orthoLoc, Mat4(s.orthoMatrix));
    d' := RenderChildren(cs, s, d');
  }

  /** The point shader's override: as the n-gon shader's, without the colour handle. */
  method RenderPointShader(p: int, orthoLoc: int, positionLoc: int, cs: seq<Node>,
                           s: SceneState, ghost d: Device) returns (ghost d': Device)
    modifies s
    ensures (s.Value(), d') == Draw(PointShader(p, orthoLoc, positionLoc, cs), old(s.Value()), d)
    decreases cs, 1
  {
    d' := UseProgram(d, p);
    s.orthoMatrixLoc := orthoLoc;
    s.positionLoc := positionLoc;
    d' := SetUniform(d', orthoLoc, Mat4(s.orthoMatrix));
    d' := RenderChildren(cs, s, d');
  }

  /** The lighting shader's override: use the program, publish its whole handle table, the children. */
  method RenderLightingShader(p: int, h: Handles, cs: seq<Node>, s: SceneState, ghost d: Device) returns (ghost d': Device)
    modifies s
    ensures (s.Value(), d') == Draw(LightingShader(p, h, cs), old(s.Value()), d)
    decreases cs, 1
  {
    d' := UseProgram(d, p);
    s.SetLocations(h);
    d' := RenderChildren(cs, s, d');
  }

  /** The point node's override: one point draw when it holds points. */
  method RenderPointSet(count: int, vao: nat, s: SceneState, ghost d: Device) returns (ghost d': Device)
    ensures d' == Draw(PointSet(count, vao), s.Value(), d).1
  {
    d' := d;
    if count > 0 {
      d' := BindVertexArray(d', vao);
      d' := DrawArrays(d', Points, 0, count);
      d' := BindVertexArray(d', 0);
    }
  }

  /** The drag line's override: one line draw at its width when its draw flag is set. */
  method RenderDragLine(visible: bool, width: real, vao: nat, s: SceneState, ghost d: Device) returns (ghost d': Device)
    ensures d' == Draw(DragLine(visible, width, vao), s.Value(), d).1
  {
    d' := d;
    if visible {
      d' := LineWidth(d', width);
      d' := BindVertexArray(d', vao);
      d' := DrawArrays(d', Lines, 0, 2);
      d' := BindVertexArray(d', 0);
    }
  }

  /** The n-gon's override: one triangle-fan draw of all its vertices. */
  method RenderNGon(numVerts: int, vao: nat, s: SceneState, ghost d: Device) returns (ghost d': Device)
    ensures d' == Draw(NGon(numVerts, vao), s.Value(), d).1
  {
    d' := BindVertexArray(d, vao);
    d' := DrawArrays(d', TriangleFan, 0, numVerts);
    d' := BindVertexArray(d', 0);
  }

  /** The unit square's override: its own strip, then the children. */
  method RenderUnitSquare(vao: nat, vbo: nat, cs: seq<Node>, s: SceneState, ghost d: Device) returns (ghost d': Device)
    modifies s
    ensures (s.Value(), d') == Draw(UnitSquare(vao, vbo, cs), old(s.Value()), d)
    decreases cs, 1
  {
    d' := RenderSquare(vao, vbo, s, d);
    d' := RenderChildren(cs, s, d');
  }

  /** The transform node's uploads, from the scene state's current model matrix and handles. */
  method UploadMatrices(s: SceneState, ghost d: Device) returns (ghost d': Device)
    ensures d' == PublishMatrices(d, s.Value())
  {
    var normalMatrix := s.modelMatrix;
    var pvmMatrix := Mul(s.pv, s.modelMatrix);
    d' := d;
    if s.modelMatrixLoc >= 0 { d' := SetUniform(d', s.modelMatrixLoc, Mat4(s.modelMatrix)); }
    if s.normalMatrixLoc >= 0 { d' := SetUniform(d', s.normalMatrixLoc, Mat4(normalMatrix)); }
    if s.pvmMatrixLoc >= 0 { d' := SetUniform(d', s.pvmMatrixLoc, Mat4(pvmMatrix)); }
  }

  /** The unit square's own drawing, with the attribute handles of the scene state. */
  method RenderSquare(vao: nat, vbo: nat, s: SceneState, ghost d: Device) returns (ghost d': Device)
    ensures d' == DrawSquare(d, vao, vbo, s.Value().locs)
  {
    d' := BindVertexArray(d, vao);
    d' := BindArrayBuffer(d', vbo);
    if s.positionLoc >= 0 { d' := EnableAttrib(d', s.positionLoc); }
    if s.normalLoc >= 0 { d' := EnableAttrib(d', s.normalLoc); }
    d' := DrawArrays(d', TriangleStrip, 0, SquareVertexCount);
    if s.positionLoc >= 0 { d' := DisableAttrib(d', s.positionLoc); }
    if s.normalLoc >= 0 { d' := DisableAttrib(d', s.normalLoc); }
    d' := BindArrayBuffer(d', 0);
    d' := BindVertexArray(d', 0);
  }

  /** The base traversal in place: a loop over the children in list order. */
  method RenderChildren(cs: seq<Node>, s: SceneState, ghost d: Device) returns (ghost d': Device)
    modifies s
    ensures (s.Value(), d') == DrawChildren(cs, old(s.Value()), d)
    decreases cs, 0
  {
    d' := d;
    for i := 0 to |cs|
      invariant (s.Value(), d') == DrawChildren(cs[..i], old(s.Value()), d)
    {
      assert cs[..i + 1][..i] == cs[..i];
      d' := Render(cs[i], s, d');
    }
    assert cs[..|cs|] == cs;
  }
}
