/**
 * Properties of the traversal: what each kind of node leaves behind in the
 * scene state and on the device, for trees of any depth and fan-out.
 */
module TraversalProps {
  import opened Matrices
  import opened Geometry
  import opened Gl
  import opened Scene
  import opened Traversal

  /** `n` contains no shader node, so nothing in it republishes the handle table. */
  ghost predicate NoShaders(n: Node)
    decreases n
  {
    match n
    case NGonShader(_, _, _, _, _) => false
    case PointShader(_, _, _, _) => false
    case LightingShader(_, _, _) => false
    case PointSet(_, _) => true
    case DragLine(_, _, _) => true
    case NGon(_, _) => true
    case _ => forall i | 0 <= i < |n.children| :: NoShaders(n.children[i])
  }

  /** `n` contains no colour node that switches blending on. */
  ghost predicate NoBlending(n: Node)
    decreases n
  {
    match n
    case ColorBlending(_, blending, cs) => !blending && forall i | 0 <= i < |cs| :: NoBlending(cs[i])
    case PointSet(_, _) => true
    case DragLine(_, _, _) => true
    case NGon(_, _) => true
    case _ => forall i | 0 <= i < |n.children| :: NoBlending(n.children[i])
  }

  /**
   * Nothing in `n` uploads to location `loc` when drawn under handle table
   * `h`: no shader node, no transform node if `loc` is one of the three
   * matrix locations, no colour node if `loc` is the colour location.
   */
  ghost predicate Quiet(n: Node, loc: int, h: Handles)
    decreases n
  {
    match n
    case NGonShader(_, _, _, _, _) => false
    case PointShader(_, _, _, _) => false
    case LightingShader(_, _, _) => false
    case Transform(_, cs) =>
      loc != h.model && loc != h.normalMatrix && loc != h.pvm &&
      forall i | 0 <= i < |cs| :: Quiet(cs[i], loc, h)
    case ColorBlending(_, _, cs) =>
      loc != h.color && forall i | 0 <= i < |cs| :: Quiet(cs[i], loc, h)
    case PointSet(_, _) => true
    case DragLine(_, _, _) => true
    case NGon(_, _) => true
    case _ => forall i | 0 <= i < |n.children| :: Quiet(n.children[i], loc, h)
  }

  /** The draw call was issued while `loc` of its own program held `u`. */
  ghost predicate Sees(c: DrawCall, loc: int, u: Uniform)
  {
    (c.program, loc) in c.uniforms && c.uniforms[(c.program, loc)] == u
  }

  /** Location `loc` of the program in use holds `u`. */
  ghost predicate Holds(d: Device, loc: int, u: Uniform)
  {
    (d.program, loc) in d.issued && d.issued[(d.program, loc)] == u
  }

  /** Every draw call appended between device `d` and device `d'` was issued while `loc` held `u`. */
  ghost predicate AllSee(d: Device, d': Device, loc: int, u: Uniform)
  {
    forall i | |d.draws| <= i < |d'.draws| :: Sees(d'.draws[i], loc, u)
  }

  // ---------------------------------------------------------------------
  // Handle table: published by shader nodes, never restored.
  // ---------------------------------------------------------------------

  /** A subtree without shader nodes leaves the whole scene state as it found it. */
  lemma {:induction false} NoShadersKeepFrame(n: Node, s: Frame, d: Device)
    requires NoShaders(n)
    ensures Draw(n, s, d).0 == s
    decreases n
  {
    match n
    case Group(cs) => NoShadersKeepFrameChildren(cs, s, d);
    case Transform(m, cs) =>
      var s1 := Push(s).(model := Mul(s.model, m));
      NoShadersKeepFrameChildren(cs, s1, PublishMatrices(d, s1));
      PopUndoesPush(s, s1.model);
    case ColorBlending(c, blending, cs) =>
      var d1 := if blending then BlendOn(d) else d;
      NoShadersKeepFrameChildren(cs, s, SetUniform(d1, s.locs.color, Vec4(c)));
    case UnitSquare(vao, vbo, cs) =>
      NoShadersKeepFrameChildren(cs, s, DrawSquare(d, vao, vbo, s.locs));
    case PointSet(_, _) =>
    case DragLine(_, _, _) =>
    case NGon(_, _) =>
  }

  lemma {:induction false} NoShadersKeepFrameChildren(cs: seq<Node>, s: Frame, d: Device)
    requires forall i | 0 <= i < |cs| :: NoShaders(cs[i])
    ensures DrawChildren(cs, s, d).0 == s
    decreases cs
  {
    if |cs| > 0 {
      var r := DrawChildren(cs[..|cs| - 1], s, d);
      NoShadersKeepFrameChildren(cs[..|cs| - 1], s, d);
      NoShadersKeepFrame(cs[|cs| - 1], r.0, r.1);
    }
  }

  /**
   * An n-gon shader publishes its three handles and does not restore the
   * previous ones: when its children hold no other shader, its handles are
   * still the published ones after it returns.
   */
  lemma NGonShaderPublishes(p: int, orthoLoc: int, colorLoc: int, positionLoc: int, cs: seq<Node>, s: Frame, d: Device)
    requires forall i | 0 <= i < |cs| :: NoShaders(cs[i])
    ensures Draw(NGonShader(p, orthoLoc, colorLoc, positionLoc, cs), s, d).0
            == s.(locs := s.locs.(ortho := orthoLoc, color := colorLoc, position := positionLoc))
  {
    var s1 := s.(locs := s.locs.(ortho := orthoLoc, color := colorLoc, position := positionLoc));
    NoShadersKeepFrameChildren(cs, s1, SetUniform(UseProgram(d, p), orthoLoc, Mat4(s1.ortho)));
  }

  /**
   * A point shader publishes the ortho and position handles only: the colour
   * handle stays whatever the shader entered before it published.
   */
  lemma PointShaderPublishes(p: int, orthoLoc: int, positionLoc: int, cs: seq<Node>, s: Frame, d: Device)
    requires forall i | 0 <= i < |cs| :: NoShaders(cs[i])
    ensures var r := Draw(PointShader(p, orthoLoc, positionLoc, cs), s, d).0;
            r.locs.ortho == orthoLoc && r.locs.position == positionLoc && r.locs.color == s.locs.color &&
            r == s.(locs := s.locs.(ortho := orthoLoc, position := positionLoc))
  {
    var s1 := s.(locs := s.locs.(ortho := orthoLoc, position := positionLoc));
    NoShadersKeepFrameChildren(cs, s1, SetUniform(UseProgram(d, p), orthoLoc, Mat4(s1.ortho)));
  }

  /** The handle table a shader node publishes over `h`. */
  function Published(n: Node, h: Handles): Handles
    requires n.NGonShader? || n.PointShader? || n.LightingShader?
  {
    match n
    case NGonShader(_, orthoLoc, colorLoc, positionLoc, _) => h.(ortho := orthoLoc, color := colorLoc, position := positionLoc)
    case PointShader(_, orthoLoc, positionLoc, _) => h.(ortho := orthoLoc, position := positionLoc)
    case LightingShader(_, handles, _) => handles
  }

  /**
   * A shader node makes its program current and uploads the orthographic
   * matrix to its own ortho handle, unguarded, before any child draws.
   */
  lemma ShaderUploadsOrtho(n: Node, s: Frame, d: Device)
    requires n.NGonShader? || n.PointShader?
    requires forall i | 0 <= i < |n.children| :: Quiet(n.children[i], n.orthoLoc, Published(n, s.locs))
    ensures var r := Draw(n, s, d);
            r.1.program == n.program && AllSee(d, r.1, n.orthoLoc, Mat4(s.ortho))
  {
    var s1 := s.(locs := Published(n, s.locs));
    var d1 := SetUniform(UseProgram(d, n.program), n.orthoLoc, Mat4(s1.ortho));
    UniformHeldChildren(n.children, s1, d1, n.orthoLoc, Mat4(s.ortho));
    QuietHasNoShaders(n.children, n.orthoLoc, s1.locs);
    NoProgramChangeChildren(n.children, s1, d1);
  }

  /** A quiet subtree holds no shader node. */
  lemma {:induction false} QuietHasNoShaders(cs: seq<Node>, loc: int, h: Handles)
    requires forall i | 0 <= i < |cs| :: Quiet(cs[i], loc, h)
    ensures forall i | 0 <= i < |cs| :: NoShaders(cs[i])
    decreases cs
  {
    forall i | 0 <= i < |cs| ensures NoShaders(cs[i]) {
      var n := cs[i];
      match n
      case Group(ccs) => QuietHasNoShaders(ccs, loc, h);
      case Transform(_, ccs) => QuietHasNoShaders(ccs, loc, h);
      case ColorBlending(_, _, ccs) => QuietHasNoShaders(ccs, loc, h);
      case UnitSquare(_, _, ccs) => QuietHasNoShaders(ccs, loc, h);
      case PointSet(_, _) =>
      case DragLine(_, _, _) =>
      case NGon(_, _) =>
    }
  }

  // ---------------------------------------------------------------------
  // Uniforms: a value stays visible until something uploads over it.
  // ---------------------------------------------------------------------

  /**
   * If nothing in `n` uploads to `loc`, the value `loc` held on entry is
   * still there on exit, and every draw call `n` issues sees it.
   */
  lemma {:induction false} UniformHeld(n: Node, s: Frame, d: Device, loc: int, u: Uniform)
    requires Quiet(n, loc, s.locs)
    requires Holds(d, loc, u)
    ensures var r := Draw(n, s, d);
            r.0.locs == s.locs && Holds(r.1, loc, u) && AllSee(d, r.1, loc, u)
    decreases n
  {
    match n
    case Group(cs) => UniformHeldChildren(cs, s, d, loc, u);
    case Transform(m, cs) =>
      var s1 := Push(s).(model := Mul(s.model, m));
      UniformHeldChildren(cs, s1, PublishMatrices(d, s1), loc, u);
    case ColorBlending(c, blending, cs) =>
      var d1 := if blending then BlendOn(d) else d;
      UniformHeldChildren(cs, s, SetUniform(d1, s.locs.color, Vec4(c)), loc, u);
    case UnitSquare(vao, vbo, cs) =>
      UniformHeldChildren(cs, s, DrawSquare(d, vao, vbo, s.locs), loc, u);
    case PointSet(_, _) =>
    case DragLine(_, _, _) =>
    case NGon(_, _) =>
  }

  lemma {:induction false} UniformHeldChildren(cs: seq<Node>, s: Frame, d: Device, loc: int, u: Uniform)
    requires forall i | 0 <= i < |cs| :: Quiet(cs[i], loc, s.locs)
    requires Holds(d, loc, u)
    ensures var r := DrawChildren(cs, s, d);
            r.0.locs == s.locs && Holds(r.1, loc, u) && AllSee(d, r.1, loc, u)
    decreases cs
  {
    if |cs| > 0 {
      var r := DrawChildren(cs[..|cs| - 1], s, d);
      UniformHeldChildren(cs[..|cs| - 1], s, d, loc, u);
      UniformHeld(cs[|cs| - 1], r.0, r.1, loc, u);
    }
  }

  /** No node but a shader node changes the program in use. */
  lemma {:induction false} NoProgramChange(n: Node, s: Frame, d: Device)
    requires NoShaders(n)
    ensures Draw(n, s, d).1.program == d.program
    ensures forall i | |d.draws| <= i < |Draw(n, s, d).1.draws| :: Draw(n, s, d).1.draws[i].program == d.program
    decreases n
  {
    match n
    case Group(cs) => NoProgramChangeChildren(cs, s, d);
    case Transform(m, cs) =>
      var s1 := Push(s).(model := Mul(s.model, m));
      NoProgramChangeChildren(cs, s1, PublishMatrices(d, s1));
    case ColorBlending(c, blending, cs) =>
      var d1 := if blending then BlendOn(d) else d;
      NoProgramChangeChildren(cs, s, SetUniform(d1, s.locs.color, Vec4(c)));
    case UnitSquare(vao, vbo, cs) =>
      NoProgramChangeChildren(cs, s, DrawSquare(d, vao, vbo, s.locs));
    case PointSet(_, _) =>
    case DragLine(_, _, _) =>
    case NGon(_, _) =>
  }

  lemma {:induction false} NoProgramChangeChildren(cs: seq<Node>, s: Frame, d: Device)
    requires forall i | 0 <= i < |cs| :: NoShaders(cs[i])
    ensures DrawChildren(cs, s, d).1.program == d.program
    ensures forall i | |d.draws| <= i < |DrawChildren(cs, s, d).1.draws| :: DrawChildren(cs, s, d).1.draws[i].program == d.program
    decreases cs
  {
    if |cs| > 0 {
      var r := DrawChildren(cs[..|cs| - 1], s, d);
      NoProgramChangeChildren(cs[..|cs| - 1], s, d);
      NoShadersKeepFrameChildren(cs[..|cs| - 1], s, d);
      NoProgramChange(cs[|cs| - 1], r.0, r.1);
    }
  }

  // ---------------------------------------------------------------------
  // Transform nodes: what they publish while their children draw.
  // ---------------------------------------------------------------------

  /**
   * While the children of a transform node draw, the model matrix uniform
   * holds the entry model matrix times the node's composite transform, the
   * normal matrix uniform holds that same matrix (not its inverse
   * transpose), and the pvm uniform holds `pv` times it. Each holds only if
   * its handle is valid and no later upload of the node overwrote it.
   */
  lemma TransformPublishes(m: Matrix, cs: seq<Node>, s: Frame, d: Device)
    requires s.locs.model >= 0 ==> forall i | 0 <= i < |cs| :: Quiet(cs[i], s.locs.model, s.locs)
    requires s.locs.normalMatrix >= 0 ==> forall i | 0 <= i < |cs| :: Quiet(cs[i], s.locs.normalMatrix, s.locs)
    requires s.locs.pvm >= 0 ==> forall i | 0 <= i < |cs| :: Quiet(cs[i], s.locs.pvm, s.locs)
    ensures var r := Draw(Transform(m, cs), s, d);
            var model := Mul(s.model, m);
            && (s.locs.model >= 0 && s.locs.model != s.locs.pvm ==> AllSee(d, r.1, s.locs.model, Mat4(model)))
            && (s.locs.normalMatrix >= 0 && s.locs.normalMatrix != s.locs.pvm ==> AllSee(d, r.1, s.locs.normalMatrix, Mat4(model)))
            && (s.locs.pvm >= 0 ==> AllSee(d, r.1, s.locs.pvm, Mat4(Mul(s.pv, model))))
  {
    var s1 := Push(s).(model := Mul(s.model, m));
    var d3 := PublishMatrices(d, s1);
    if s.locs.model >= 0 && s.locs.model != s.locs.pvm {
      UniformHeldChildren(cs, s1, d3, s.locs.model, Mat4(s1.model));
    }
    if s.locs.normalMatrix >= 0 && s.locs.normalMatrix != s.locs.pvm {
      UniformHeldChildren(cs, s1, d3, s.locs.normalMatrix, Mat4(s1.model));
    }
    if s.locs.pvm >= 0 {
      UniformHeldChildren(cs, s1, d3, s.locs.pvm, Mat4(Mul(s1.pv, s1.model)));
    }
  }

  /** A transform node never uploads to a negative location: such an upload is skipped, not attempted. */
  lemma TransformSkipsNegativeHandles(m: Matrix, s: Frame, d: Device, loc: int)
    requires loc < 0
    ensures var r := Draw(Transform(m, []), s, d);
            var k := (d.program, loc);
            r.1.program == d.program && (k in r.1.issued <==> k in d.issued) && (k in d.issued ==> r.1.issued[k] == d.issued[k])
  {
  }

  /** A transform node with no children and no valid matrix handle leaves the scene state and the device exactly as they were. */
  lemma TransformWithoutChildren(m: Matrix, s: Frame, d: Device)
    requires s.locs.model < 0 && s.locs.normalMatrix < 0 && s.locs.pvm < 0
    ensures Draw(Transform(m, []), s, d) == (s, d)
  {
    PopUndoesPush(s, Mul(s.model, m));
  }

  /**
   * The pop restores the scene state's model matrix but uploads nothing: a
   * geometry node drawn after a nested transform node, under the same
   * parent, is drawn with the nested node's model matrix still in the
   * uniform, while the scene state holds the parent's.
   */
  lemma StaleModelUniformAfterNestedTransform(a: Matrix, b: Matrix, numVerts: int, vao: nat, s: Frame, d: Device)
    requires s.locs.model >= 0 && s.locs.model != s.locs.normalMatrix && s.locs.model != s.locs.pvm
    ensures var r := Draw(Transform(a, [Transform(b, []), NGon(numVerts, vao)]), s, d);
            |r.1.draws| == |d.draws| + 1 &&
            Sees(r.1.draws[|d.draws|], s.locs.model, Mat4(Mul(Mul(s.model, a), b)))
  {
    var s1 := Push(s).(model := Mul(s.model, a));
    var d3 := PublishMatrices(d, s1);
    var s2 := Push(s1).(model := Mul(s1.model, b));
    var e := PublishMatrices(d3, s2);
    PopUndoesPush(s1, s2.model);
    assert Holds(e, s.locs.model, Mat4(s2.model));
    assert Draw(Transform(b, []), s1, d3) == (s1, e);
    DrawOneChild(Transform(b, []), s1, d3);
    DrawChildrenSnoc([Transform(b, [])], NGon(numVerts, vao), s1, d3);
    assert [Transform(b, [])] + [NGon(numVerts, vao)] == [Transform(b, []), NGon(numVerts, vao)];
    assert DrawChildren([Transform(b, []), NGon(numVerts, vao)], s1, d3) == Draw(NGon(numVerts, vao), s1, e);
  }

  // ---------------------------------------------------------------------
  // Colour and blending.
  // ---------------------------------------------------------------------

  /** Every draw call under a colour node whose subtree uploads nothing to the colour handle sees that node's colour. */
  lemma ColorSeenByChildren(c: Color4, blending: bool, cs: seq<Node>, s: Frame, d: Device)
    requires forall i | 0 <= i < |cs| :: Quiet(cs[i], s.locs.color, s.locs)
    ensures AllSee(d, Draw(ColorBlending(c, blending, cs), s, d).1, s.locs.color, Vec4(c))
  {
    var d1 := if blending then BlendOn(d) else d;
    UniformHeldChildren(cs, s, SetUniform(d1, s.locs.color, Vec4(c)), s.locs.color, Vec4(c));
  }

  /**
   * Three sibling colour nodes without blending, each over one n-gon, under
   * one shader: each n-gon is drawn with its own parent's colour in the
   * colour uniform, never a sibling's.
   */
  lemma SiblingColors(p: int, orthoLoc: int, colorLoc: int, positionLoc: int,
                      c1: Color4, c2: Color4, c3: Color4, g1: Node, g2: Node, g3: Node, s: Frame, d: Device)
    requires g1.NGon? && g2.NGon? && g3.NGon?
    ensures var r := Draw(NGonShader(p, orthoLoc, colorLoc, positionLoc,
                                     [ColorBlending(c1, false, [g1]), ColorBlending(c2, false, [g2]), ColorBlending(c3, false, [g3])]), s, d);
            var k := |d.draws|;
            |r.1.draws| == k + 3 &&
            Sees(r.1.draws[k], colorLoc, Vec4(c1)) &&
            Sees(r.1.draws[k + 1], colorLoc, Vec4(c2)) &&
            Sees(r.1.draws[k + 2], colorLoc, Vec4(c3))
  {
    var x1, x2, x3 := ColorBlending(c1, false, [g1]), ColorBlending(c2, false, [g2]), ColorBlending(c3, false, [g3]);
    var s1 := s.(locs := s.locs.(ortho := orthoLoc, color := colorLoc, position := positionLoc));
    var d1 := SetUniform(UseProgram(d, p), orthoLoc, Mat4(s1.ortho));
    DrawOneChild(g1, s1, SetUniform(d1, colorLoc, Vec4(c1)));
    DrawOneChild(x1, s1, d1);
    var r1 := Draw(x1, s1, d1);
    DrawOneChild(g2, s1, SetUniform(r1.1, colorLoc, Vec4(c2)));
    DrawChildrenSnoc([x1], x2, s1, d1);
    var r2 := Draw(x2, r1.0, r1.1);
    DrawOneChild(g3, s1, SetUniform(r2.1, colorLoc, Vec4(c3)));
    DrawChildrenSnoc([x1, x2], x3, s1, d1);
    assert [x1] + [x2] == [x1, x2] && [x1, x2] + [x3] == [x1, x2, x3];
  }

  /** A subtree with no blending colour node leaves the blend switch and the blend function as it found them. */
  lemma {:induction false} BlendKept(n: Node, s: Frame, d: Device)
    requires NoBlending(n)
    ensures var r := Draw(n, s, d);
            r.1.blend == d.blend && r.1.blendFunc == d.blendFunc
    decreases n
  {
    match n
    case Group(cs) => BlendKeptChildren(cs, s, d);
    case Transform(m, cs) =>
      var s1 := Push(s).(model := Mul(s.model, m));
      BlendKeptChildren(cs, s1, PublishMatrices(d, s1));
    case ColorBlending(c, blending, cs) =>
      BlendKeptChildren(cs, s, SetUniform(d, s.locs.color, Vec4(c)));
    case NGonShader(p, orthoLoc, colorLoc, positionLoc, cs) =>
      var s1 := s.(locs := s.locs.(ortho := orthoLoc, color := colorLoc, position := positionLoc));
      BlendKeptChildren(cs, s1, SetUniform(UseProgram(d, p), orthoLoc, Mat4(s1.ortho)));
    case PointShader(p, orthoLoc, positionLoc, cs) =>
      var s1 := s.(locs := s.locs.(ortho := orthoLoc, position := positionLoc));
      BlendKeptChildren(cs, s1, SetUniform(UseProgram(d, p), orthoLoc, Mat4(s1.ortho)));
    case LightingShader(p, h, cs) =>
      BlendKeptChildren(cs, s.(locs := h), UseProgram(d, p));
    case UnitSquare(vao, vbo, cs) =>
      BlendKeptChildren(cs, s, DrawSquare(d, vao, vbo, s.locs));
    case PointSet(_, _) =>
    case DragLine(_, _, _) =>
    case NGon(_, _) =>
  }

  lemma {:induction false} BlendKeptChildren(cs: seq<Node>, s: Frame, d: Device)
    requires forall i | 0 <= i < |cs| :: NoBlending(cs[i])
    ensures var r := DrawChildren(cs, s, d);
            r.1.blend == d.blend && r.1.blendFunc == d.blendFunc
    decreases cs
  {
    if |cs| > 0 {
      var r := DrawChildren(cs[..|cs| - 1], s, d);
      BlendKeptChildren(cs[..|cs| - 1], s, d);
      BlendKept(cs[|cs| - 1], r.0, r.1);
    }
  }

  /** Every draw call of a subtree with no blending colour node is issued with the blend switch it found. */
  lemma {:induction false} DrawsKeepBlend(n: Node, s: Frame, d: Device)
    requires NoBlending(n)
    ensures forall i | |d.draws| <= i < |Draw(n, s, d).1.draws| :: Draw(n, s, d).1.draws[i].blend == d.blend
    decreases n
  {
    match n
    case Group(cs) => DrawsKeepBlendChildren(cs, s, d);
    case Transform(m, cs) =>
      var s1 := Push(s).(model := Mul(s.model, m));
      DrawsKeepBlendChildren(cs, s1, PublishMatrices(d, s1));
    case ColorBlending(c, blending, cs) =>
      DrawsKeepBlendChildren(cs, s, SetUniform(d, s.locs.color, Vec4(c)));
    case NGonShader(p, orthoLoc, colorLoc, positionLoc, cs) =>
      var s1 := s.(locs := s.locs.(ortho := orthoLoc, color := colorLoc, position := positionLoc));
      DrawsKeepBlendChildren(cs, s1, SetUniform(UseProgram(d, p), orthoLoc, Mat4(s1.ortho)));
    case PointShader(p, orthoLoc, positionLoc, cs) =>
      var s1 := s.(locs := s.locs.(ortho := orthoLoc, position := positionLoc));
      DrawsKeepBlendChildren(cs, s1, SetUniform(UseProgram(d, p), orthoLoc, Mat4(s1.ortho)));
    case LightingShader(p, h, cs) =>
      DrawsKeepBlendChildren(cs, s.(locs := h), UseProgram(d, p));
    case UnitSquare(vao, vbo, cs) =>
      DrawsKeepBlendChildren(cs, s, DrawSquare(d, vao, vbo, s.locs));
    case PointSet(_, _) =>
    case DragLine(_, _, _) =>
    case NGon(_, _) =>
  }

  lemma {:induction false} DrawsKeepBlendChildren(cs: seq<Node>, s: Frame, d: Device)
    requires forall i | 0 <= i < |cs| :: NoBlending(cs[i])
    ensures forall i | |d.draws| <= i < |DrawChildren(cs, s, d).1.draws| :: DrawChildren(cs, s, d).1.draws[i].blend == d.blend
    decreases cs
  {
    if |cs| > 0 {
      var r := DrawChildren(cs[..|cs| - 1], s, d);
      DrawsKeepBlendChildren(cs[..|cs| - 1], s, d);
      BlendKeptChildren(cs[..|cs| - 1], s, d);
      DrawsKeepBlend(cs[|cs| - 1], r.0, r.1);
    }
  }

  /** The blend function every blending colour node sets. */
  const AlphaBlend := (SrcAlpha, OneMinusSrcAlpha)

  /**
   * Once the blend function is source alpha over one minus source alpha, no
   * subtree changes it: the only nodes that set it, blending colour nodes at
   * any depth, set that same function.
   */
  lemma {:induction false} AlphaBlendKept(n: Node, s: Frame, d: Device)
    requires d.blendFunc == AlphaBlend
    ensures Draw(n, s, d).1.blendFunc == AlphaBlend
    decreases n
  {
    match n
    case Group(cs) => AlphaBlendKeptChildren(cs, s, d);
    case Transform(m, cs) =>
      var s1 := Push(s).(model := Mul(s.model, m));
      AlphaBlendKeptChildren(cs, s1, PublishMatrices(d, s1));
    case ColorBlending(c, blending, cs) =>
      var d1 := if blending then BlendOn(d) else d;
      AlphaBlendKeptChildren(cs, s, SetUniform(d1, s.locs.color, Vec4(c)));
    case NGonShader(p, orthoLoc, colorLoc, positionLoc, cs) =>
      var s1 := s.(locs := s.locs.(ortho := orthoLoc, color := colorLoc, position := positionLoc));
      AlphaBlendKeptChildren(cs, s1, SetUniform(UseProgram(d, p), orthoLoc, Mat4(s1.ortho)));
    case PointShader(p, orthoLoc, positionLoc, cs) =>
      var s1 := s.(locs := s.locs.(ortho := orthoLoc, position := positionLoc));
      AlphaBlendKeptChildren(cs, s1, SetUniform(UseProgram(d, p), orthoLoc, Mat4(s1.ortho)));
    case LightingShader(p, h, cs) =>
      AlphaBlendKeptChildren(cs, s.(locs := h), UseProgram(d, p));
    case UnitSquare(vao, vbo, cs) =>
      AlphaBlendKeptChildren(cs, s, DrawSquare(d, vao, vbo, s.locs));
    case PointSet(_, _) =>
    case DragLine(_, _, _) =>
    case NGon(_, _) =>
  }

  lemma {:induction false} AlphaBlendKeptChildren(cs: seq<Node>, s: Frame, d: Device)
    requires d.blendFunc == AlphaBlend
    ensures DrawChildren(cs, s, d).1.blendFunc == AlphaBlend
    decreases cs
  {
    if |cs| > 0 {
      var r := DrawChildren(cs[..|cs| - 1], s, d);
      AlphaBlendKeptChildren(cs[..|cs| - 1], s, d);
      AlphaBlendKept(cs[|cs| - 1], r.0, r.1);
    }
  }

  /**
   * A blending colour node sets the blend function to (source alpha, one
   * minus source alpha) and leaves blending off, whatever its state on entry
   * and whatever its subtree holds, nested blending nodes included. When no
   * descendant blends, every call of the subtree is drawn with blending on.
   */
  lemma BlendingScopedToChildren(c: Color4, cs: seq<Node>, s: Frame, d: Device)
    ensures var r := Draw(ColorBlending(c, true, cs), s, d);
            !r.1.blend && r.1.blendFunc == AlphaBlend &&
            ((forall i | 0 <= i < |cs| :: NoBlending(cs[i])) ==>
               forall i | |d.draws| <= i < |r.1.draws| :: r.1.draws[i].blend)
  {
    var d1 := SetUniform(BlendOn(d), s.locs.color, Vec4(c));
    AlphaBlendKeptChildren(cs, s, d1);
    if forall i | 0 <= i < |cs| :: NoBlending(cs[i]) {
      DrawsKeepBlendChildren(cs, s, d1);
    }
  }

  /** A non-blending colour node leaves the blend switch alone. */
  lemma NonBlendingColorKeepsBlend(c: Color4, cs: seq<Node>, s: Frame, d: Device)
    requires forall i | 0 <= i < |cs| :: NoBlending(cs[i])
    ensures Draw(ColorBlending(c, false, cs), s, d).1.blend == d.blend
  {
    BlendKeptChildren(cs, s, SetUniform(d, s.locs.color, Vec4(c)));
  }

  /**
   * Blending is reset, not restored: a blending colour node nested in
   * another switches blending off for the later children of the outer one.
   */
  lemma NestedBlendingResets(c: Color4, inner: Color4, count: int, vao: nat, s: Frame, d: Device)
    requires count > 0
    ensures var r := Draw(ColorBlending(c, true, [ColorBlending(inner, true, []), PointSet(count, vao)]), s, d);
            |r.1.draws| == |d.draws| + 1 && !r.1.draws[|d.draws|].blend
  {
    var x := ColorBlending(inner, true, []);
    var d1 := SetUniform(BlendOn(d), s.locs.color, Vec4(c));
    DrawOneChild(x, s, d1);
    DrawChildrenSnoc([x], PointSet(count, vao), s, d1);
    assert [x] + [PointSet(count, vao)] == [x, PointSet(count, vao)];
  }

  // ---------------------------------------------------------------------
  // Uniform values belong to the program object.
  // ---------------------------------------------------------------------

  /**
   * A colour one shader's subtree uploads is not seen by a draw under a
   * second program: a point set drawn under a point shader whose program has
   * received nothing before sees only that shader's ortho upload.
   */
  lemma UniformsStayWithProgram(p1: int, p2: int, orthoLoc1: int, colorLoc: int, positionLoc1: int,
                                orthoLoc2: int, positionLoc2: int, c: Color4, count: int, vao: nat, s: Frame, d: Device)
    requires p1 != p2 && count > 0
    requires forall k | k in d.issued :: k.0 != p2
    ensures var r := Draw(Group([NGonShader(p1, orthoLoc1, colorLoc, positionLoc1, [ColorBlending(c, false, [])]),
                                 PointShader(p2, orthoLoc2, positionLoc2, [PointSet(count, vao)])]), s, d);
            |r.1.draws| == |d.draws| + 1 &&
            r.1.draws[|d.draws|].program == p2 &&
            (forall loc | (p2, loc) in r.1.draws[|d.draws|].uniforms :: loc == orthoLoc2) &&
            Sees(r.1.draws[|d.draws|], orthoLoc2, Mat4(s.ortho)) &&
            (colorLoc != orthoLoc2 ==> !Sees(r.1.draws[|d.draws|], colorLoc, Vec4(c)))
  {
    var x := NGonShader(p1, orthoLoc1, colorLoc, positionLoc1, [ColorBlending(c, false, [])]);
    var y := PointShader(p2, orthoLoc2, positionLoc2, [PointSet(count, vao)]);
    DrawOneChild(x, s, d);
    var s1 := s.(locs := s.locs.(ortho := orthoLoc1, color := colorLoc, position := positionLoc1));
    var d1 := SetUniform(UseProgram(d, p1), orthoLoc1, Mat4(s1.ortho));
    DrawOneChild(ColorBlending(c, false, []), s1, d1);
    var r1 := Draw(x, s, d);
    assert r1 == (s1, SetUniform(d1, colorLoc, Vec4(c)));
    var s2 := r1.0.(locs := r1.0.locs.(ortho := orthoLoc2, position := positionLoc2));
    DrawOneChild(PointSet(count, vao), s2, SetUniform(UseProgram(r1.1, p2), orthoLoc2, Mat4(s2.ortho)));
    DrawChildrenSnoc([x], y, s, d);
    assert [x] + [y] == [x, y];
  }
}
