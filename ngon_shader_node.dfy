/**
 * The n-gon shader node: looks up its three handles once, and on each
 * draw makes its program current and publishes those handles.
 */
module NGonShaderNodes {
  import opened Scene
  import opened Gl
  import Traversal

  /** The name of the lookup that was made: a uniform or an attribute of the program. */
  datatype Lookup = UniformLookup(name: string) | AttribLookup(name: string)

  class NGonShaderNode {
    var program: int
    var orthoMatrixLoc: int
    var colorLoc: int
    var positionLoc: int

    /**
     * Looks the handles up in order, storing each one, and stops at the
     * first negative result. `uniformLoc` and `attribLoc` stand for the
     * program's uniform and attribute location queries; `made` lists the
     * lookups made.
     */
    method GetLocations(uniformLoc: string -> int, attribLoc: string -> int) returns (ok: bool, ghost made: seq<Lookup>)
      modifies this
      ensures ok <==> uniformLoc("ortho") >= 0 && uniformLoc("color") >= 0 && attribLoc("vtx_position") >= 0
      ensures program == old(program) && orthoMatrixLoc == uniformLoc("ortho")
      ensures made == if uniformLoc("ortho") < 0 then [UniformLookup("ortho")]
                      else if uniformLoc("color") < 0 then [UniformLookup("ortho"), UniformLookup("color")]
                      else [UniformLookup("ortho"), UniformLookup("color"), AttribLookup("vtx_position")]
      ensures colorLoc == if uniformLoc("ortho") < 0 then old(colorLoc) else uniformLoc("color")
      ensures positionLoc == if uniformLoc("ortho") < 0 || uniformLoc("color") < 0 then old(positionLoc)
                             else attribLoc("vtx_position")
    {
      orthoMatrixLoc := uniformLoc("ortho");
      made := [UniformLookup("ortho")];
      if orthoMatrixLoc < 0 {
        return false, made;
      }
      colorLoc := uniformLoc("color");
      made := made + [UniformLookup("color")];
      if colorLoc < 0 {
        return false, made;
      }
      positionLoc := attribLoc("vtx_position");
      made := made + [AttribLookup("vtx_position")];
      if positionLoc < 0 {
        return false, made;
      }
      return true, made;
    }

    method GetPositionLoc() returns (loc: int)
      ensures loc == positionLoc
    {
      return positionLoc;
    }

    function View(cs: seq<Traversal.Node>): (n: Traversal.Node)
      reads this
      ensures n.NGonShader? && n.children == cs
    {
      Traversal.NGonShader(program, orthoMatrixLoc, colorLoc, positionLoc, cs)
    }

    /** The draw override, on the scene state object in place. */
    method Draw(cs: seq<Traversal.Node>, s: SceneState, ghost d: Device) returns (ghost d': Device)
      modifies s
      ensures (s.Value(), d') == Traversal.Draw(View(cs), old(s.Value()), d)
    {
      d' := Traversal.RenderNGonShader(program, orthoMatrixLoc, colorLoc, positionLoc, cs, s, d);
    }
  }
}
