/**
 * The point shader node: looks up its two handles once, and on each draw
 * makes its program current and publishes those two handles.
 */
module PointShaderNodes {
  import opened Scene
  import opened Gl
  import opened NGonShaderNodes
  import Traversal

  class PointShaderNode {
    var program: int
    var orthoMatrixLoc: int
    var positionLoc: int

    /**
     * Looks the two handles up in order, storing each one, and stops at
     * the first negative result; `made` lists the lookups made.
     */
    method GetLocations(uniformLoc: string -> int, attribLoc: string -> int) returns (ok: bool, ghost made: seq<Lookup>)
      modifies this
      ensures ok <==> uniformLoc("ortho") >= 0 && attribLoc("vtx_position") >= 0
      ensures program == old(program) && orthoMatrixLoc == uniformLoc("ortho")
      ensures made == if uniformLoc("ortho") < 0 then [UniformLookup("ortho")]
                      else [UniformLookup("ortho"), AttribLookup("vtx_position")]
      ensures positionLoc == if uniformLoc("ortho") < 0 then old(positionLoc) else attribLoc("vtx_position")
    {
      orthoMatrixLoc := uniformLoc("ortho");
      made := [UniformLookup("ortho")];
      if orthoMatrixLoc < 0 {
        return false, made;
      }
      positionLoc := attribLoc("vtx_position");
      made := made + [AttribLookup("vtx_position")];
      if positionLoc < 0 {
        return false, made;
      }
      return true, made;
    }

    method GetPositionLoc() returns (loc: int)
      ensures loc == positionLoc
    {
      return positionLoc;
    }

    function View(cs: seq<Traversal.Node>): (n: Traversal.Node)
      reads this
      ensures n.PointShader? && n.children == cs
    {
      Traversal.PointShader(program, orthoMatrixLoc, positionLoc, cs)
    }

    /** The draw override, on the scene state object in place. */
    method Draw(cs: seq<Traversal.Node>, s: SceneState, ghost d: Device) returns (ghost d': Device)
      modifies s
      ensures (s.Value(), d') == Traversal.Draw(View(cs), old(s.Value()), d)
    {
      d' := Traversal.RenderPointShader(program, orthoMatrixLoc, positionLoc, cs, s, d);
    }
  }
}
