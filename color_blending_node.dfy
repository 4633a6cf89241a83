/** The colour node: uploads its colour for its subtree, optionally with alpha blending around it. */
module ColorBlendingNodes {
  import opened Geometry
  import opened Scene
  import opened Gl
  import Traversal

  class ColorBlendingNode {
    var blending: bool
    var color: Color4

    /** The constructor stores the colour and the blending flag as given. */
    constructor (c: Color4, b: bool)
      ensures color == c && blending == b
    {
      color := c;
      blending := b;
    }

    function View(cs: seq<Traversal.Node>): (n: Traversal.Node)
      reads this
      ensures n.ColorBlending? && n.children == cs
    {
      Traversal.ColorBlending(color, blending, cs)
    }

    /** The draw override, on the scene state object in place. */
    method Draw(cs: seq<Traversal.Node>, s: SceneState, ghost d: Device) returns (ghost d': Device)
      modifies s
      ensures (s.Value(), d') == Traversal.Draw(View(cs), old(s.Value()), d)
    {
      d' := Traversal.RenderColor(color, blending, cs, s, d);
    }
  }
}
