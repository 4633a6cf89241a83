/** What drawing each geometry node submits to the device. */
module GeometryDrawProps {
  import opened Matrices
  import opened Gl
  import opened Scene
  import opened Traversal

  /** The draw call a node would submit in device state `d` after binding `vao`. */
  function CallIn(d: Device, mode: Primitive, count: int, vao: nat): DrawCall
  {
    DrawCall(mode, 0, count, vao, d.blend, d.issued, Enabled(d, vao), d.lineWidth, d.program)
  }

  /**
   * A point set submits exactly one point draw of its current count when
   * the count is positive, and touches nothing at all otherwise; it never
   * draws children and changes no scene state.
   */
  lemma PointSetDraw(count: int, vao: nat, s: Frame, d: Device)
    ensures var r := Draw(PointSet(count, vao), s, d);
            r.0 == s &&
            (count > 0 ==> r.1.draws == d.draws + [CallIn(d, Points, count, vao)] && r.1.vao == 0) &&
            (count <= 0 ==> r.1 == d)
  {
  }

  /**
   * A draggable line submits exactly one two-vertex line draw at its own
   * width when its draw flag is set, and touches nothing otherwise.
   */
  lemma DragLineDraw(visible: bool, width: real, vao: nat, s: Frame, d: Device)
    ensures var r := Draw(DragLine(visible, width, vao), s, d);
            r.0 == s &&
            (visible ==> r.1.draws == d.draws + [CallIn(d.(lineWidth := width), Lines, 2, vao)] &&
                         r.1.lineWidth == width && r.1.vao == 0) &&
            (!visible ==> r.1 == d)
  {
  }

  /** An n-gon always submits one triangle-fan draw of all its buffered vertices. */
  lemma NGonDraw(numVerts: int, vao: nat, s: Frame, d: Device)
    ensures var r := Draw(NGon(numVerts, vao), s, d);
            r.0 == s && r.1.draws == d.draws + [CallIn(d, TriangleFan, numVerts, vao)] && r.1.vao == 0
  {
  }

  /** The valid attribute handles among the position and normal handles of `h`. */
  function ValidAttribs(h: Handles): set<int>
  {
    (if h.position >= 0 then {h.position} else {}) + (if h.normal >= 0 then {h.normal} else {})
  }

  /**
   * The unit square's own drawing: one triangle strip of four vertices,
   * issued with exactly the valid position and normal attributes added to
   * those already enabled in its vertex array; afterwards those attributes
   * are disabled again, no other vertex array is affected, and the buffer
   * and vertex array bindings are both 0.
   */
  lemma SquareDraw(d: Device, vao: nat, vbo: nat, h: Handles)
    ensures var d' := DrawSquare(d, vao, vbo, h);
            && d'.draws == d.draws + [DrawCall(TriangleStrip, 0, 4, vao, d.blend, d.issued,
                                               Enabled(d, vao) + ValidAttribs(h), d.lineWidth, d.program)]
            && Enabled(d', vao) == Enabled(d, vao) - ValidAttribs(h)
            && (forall v | v != vao :: Enabled(d', v) == Enabled(d, v))
            && d'.vao == 0 && d'.arrayBuffer == 0
            && d'.issued == d.issued && d'.blend == d.blend && d'.program == d.program
  {
    var pos := h.position;
    var nrm := h.normal;
    var d1 := BindArrayBuffer(BindVertexArray(d, vao), vbo);
    var d2 := if pos >= 0 then EnableAttrib(d1, pos) else d1;
    var d3 := if nrm >= 0 then EnableAttrib(d2, nrm) else d2;
    assert Enabled(d3, vao) == Enabled(d, vao) + ValidAttribs(h);
    var d4 := DrawArrays(d3, TriangleStrip, 0, SquareVertexCount);
    var d5 := if pos >= 0 then DisableAttrib(d4, pos) else d4;
    var d6 := if nrm >= 0 then DisableAttrib(d5, nrm) else d5;
    assert Enabled(d6, vao) == Enabled(d, vao) - ValidAttribs(h);
    forall v | v != vao ensures Enabled(DrawSquare(d, vao, vbo, h), v) == Enabled(d, v) {
      assert Enabled(d6, v) == Enabled(d, v);
    }
  }

  /**
   * Drawn without children, the unit square leaves its vertex array's
   * enabled attributes as they were on entry exactly when neither valid
   * handle was enabled there before.
   */
  lemma SquareRestoresAttribs(vao: nat, vbo: nat, s: Frame, d: Device)
    ensures var r := Draw(UnitSquare(vao, vbo, []), s, d);
            Enabled(r.1, vao) == Enabled(d, vao) <==> Enabled(d, vao) * ValidAttribs(s.locs) == {}
  {
    SquareDraw(d, vao, vbo, s.locs);
  }

  /** The unit square draws its own strip before any of its children draw. */
  lemma SquareDrawsBeforeChildren(vao: nat, vbo: nat, cs: seq<Node>, s: Frame, d: Device)
    ensures var r := Draw(UnitSquare(vao, vbo, cs), s, d);
            |r.1.draws| > |d.draws| && r.1.draws[|d.draws|].mode == TriangleStrip &&
            r.1.draws[|d.draws|].count == 4 && r.1.draws[|d.draws|].vao == vao
  {
    SquareDraw(d, vao, vbo, s.locs);
  }

  /**
   * The number of draw calls a tree submits, read off the tree alone: one
   * per unit square and per n-gon, one per point set holding points, one
   * per visible drag line; grouping, transform, colour and shader nodes
   * submit none of their own.
   */
  function DrawCount(n: Node): nat
    decreases n
  {
    match n
    case PointSet(count, _) => if count > 0 then 1 else 0
    case DragLine(visible, _, _) => if visible then 1 else 0
    case NGon(_, _) => 1
    case UnitSquare(_, _, cs) => 1 + DrawCountChildren(cs)
    case _ => DrawCountChildren(n.children)
  }

  function DrawCountChildren(cs: seq<Node>): nat
    decreases cs
  {
    if |cs| == 0 then 0 else DrawCountChildren(cs[..|cs| - 1]) + DrawCount(cs[|cs| - 1])
  }

  /** Drawing any tree appends exactly `DrawCount` draw calls to the device's log. */
  lemma {:induction false} DrawsAppended(n: Node, s: Frame, d: Device)
    ensures |Draw(n, s, d).1.draws| == |d.draws| + DrawCount(n)
    decreases n
  {
    match n
    case Group(cs) => DrawsAppendedChildren(cs, s, d);
    case Transform(m, cs) =>
      var s1 := Push(s).(model := Mul(s.model, m));
      DrawsAppendedChildren(cs, s1, PublishMatrices(d, s1));
    case ColorBlending(c, blending, cs) =>
      var d1 := if blending then BlendOn(d) else d;
      DrawsAppendedChildren(cs, s, SetUniform(d1, s.locs.color, Vec4(c)));
    case NGonShader(p, orthoLoc, colorLoc, positionLoc, cs) =>
      var s1 := s.(locs := s.locs.(ortho := orthoLoc, color := colorLoc, position := positionLoc));
      DrawsAppendedChildren(cs, s1, SetUniform(UseProgram(d, p), orthoLoc, Mat4(s1.ortho)));
    case PointShader(p, orthoLoc, positionLoc, cs) =>
      var s1 := s.(locs := s.locs.(ortho := orthoLoc, position := positionLoc));
      DrawsAppendedChildren(cs, s1, SetUniform(UseProgram(d, p), orthoLoc, Mat4(s1.ortho)));
    case LightingShader(p, h, cs) =>
      DrawsAppendedChildren(cs, s.(locs := h), UseProgram(d, p));
    case UnitSquare(vao, vbo, cs) =>
      SquareDraw(d, vao, vbo, s.locs);
      DrawsAppendedChildren(cs, s, DrawSquare(d, vao, vbo, s.locs));
    case PointSet(_, _) =>
    case DragLine(_, _, _) =>
    case NGon(_, _) =>
  }

  lemma {:induction false} DrawsAppendedChildren(cs: seq<Node>, s: Frame, d: Device)
    ensures |DrawChildren(cs, s, d).1.draws| == |d.draws| + DrawCountChildren(cs)
    decreases cs
  {
    if |cs| > 0 {
      var r := DrawChildren(cs[..|cs| - 1], s, d);
      DrawsAppendedChildren(cs[..|cs| - 1], s, d);
      DrawsAppended(cs[|cs| - 1], r.0, r.1);
    }
  }

  /** `n` holds no shader, and its only geometry is unit squares drawn from vertex array `vao`. */
  ghost predicate SquaresOnly(n: Node, vao: nat)
    decreases n
  {
    match n
    case UnitSquare(v, _, cs) => v == vao && forall i | 0 <= i < |cs| :: SquaresOnly(cs[i], vao)
    case PointSet(_, _) => false
    case DragLine(_, _, _) => false
    case NGon(_, _) => false
    case NGonShader(_, _, _, _, _) => false
    case PointShader(_, _, _, _) => false
    case LightingShader(_, _, _) => false
    case _ => forall i | 0 <= i < |n.children| :: SquaresOnly(n.children[i], vao)
  }

  /** A unit square's strip, drawn from `vao` with program `p`. */
  ghost predicate Strip(c: DrawCall, vao: nat, p: int)
  {
    c.mode == TriangleStrip && c.first == 0 && c.count == 4 && c.vao == vao && c.program == p
  }

  /** Every draw call between the two logs is a unit square's strip drawn with program `p`. */
  ghost predicate StripsSince(d: Device, d': Device, vao: nat, p: int)
  {
    forall k | |d.draws| <= k < |d'.draws| :: Strip(d'.draws[k], vao, p)
  }

  /** Drawing a tree of unit squares keeps the program and submits only their strips. */
  lemma {:induction false} OnlyStrips(n: Node, vao: nat, s: Frame, d: Device)
    requires SquaresOnly(n, vao)
    ensures var r := Draw(n, s, d).1;
            r.program == d.program && StripsSince(d, r, vao, d.program)
    decreases n
  {
    match n
    case Group(cs) => OnlyStripsChildren(cs, vao, s, d);
    case Transform(m, cs) =>
      var s1 := Push(s).(model := Mul(s.model, m));
      OnlyStripsChildren(cs, vao, s1, PublishMatrices(d, s1));
    case ColorBlending(c, blending, cs) =>
      var d1 := if blending then BlendOn(d) else d;
      OnlyStripsChildren(cs, vao, s, SetUniform(d1, s.locs.color, Vec4(c)));
    case UnitSquare(v, vbo, cs) =>
      var d1 := DrawSquare(d, v, vbo, s.locs);
      SquareDraw(d, v, vbo, s.locs);
      OnlyStripsChildren(cs, vao, s, d1);
      var r := DrawChildren(cs, s, d1).1;
      assert r.draws[|d.draws|] == d1.draws[|d.draws|];
  }

  lemma {:induction false} OnlyStripsChildren(cs: seq<Node>, vao: nat, s: Frame, d: Device)
    requires forall i | 0 <= i < |cs| :: SquaresOnly(cs[i], vao)
    ensures var r := DrawChildren(cs, s, d).1;
            r.program == d.program && StripsSince(d, r, vao, d.program)
    decreases cs
  {
    if |cs| > 0 {
      var r := DrawChildren(cs[..|cs| - 1], s, d);
      OnlyStripsChildren(cs[..|cs| - 1], vao, s, d);
      OnlyStrips(cs[|cs| - 1], vao, r.0, r.1);
    }
  }
}
