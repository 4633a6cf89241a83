# Scene-graph traversal of Graphics Module 4, in Dafny

This project models the scene-graph engine of the Graphics Module 3/4
programs. A frame is drawn by one depth-first traversal of a graph of nodes.
Each node kind overrides `draw(SceneState&)`. It changes the shared scene
state or the graphics device, draws its children in list order, and then
undoes its change or leaves it, depending on the kind:

- transform nodes push and compose the model matrix, publish the model,
  normal and pvm matrices, and pop again;
- colour-blending nodes upload a colour, with blending switched on for
  their subtree and off afterwards;
- n-gon and point shader nodes make their program current and publish
  their handles into the scene state, without restoring the old ones;
- geometry nodes submit draw calls: point sets, a draggable line, an
  n-gon fan and the lit unit square.

The model also covers the small state machines inside the geometry nodes,
and the Module 4 program that builds the room scene, keeps a square
viewport on resize, and displays the graph.

How the model is built:

- `Traversal.Draw` is a functional specification of one frame. It maps a
  node, the scene state's value (`Scene.Frame`) and the device state
  (`Gl.Device`) to the new values of both.
- `Traversal.Render` is the in-place traversal. It dispatches on the node
  kind to one override method per kind. These methods update a
  `Scene.SceneState` object field by field and thread the device through
  as a ghost value.
- Each override is proved equal to `Draw`.
- Each node class of the program (`TransformNode`, `ColorBlendingNode`,
  `NGonShaderNode`, `PointShaderNode`, `PointNode`, `DragLineNode`,
  `NGonNode`, `UnitSquareNode`) is a Dafny class with the program's fields.
  Its `View` gives the node value that the traversal draws.
- Matrices are words of elementary operations (`Matrices.Op`). Their
  product is concatenation and the identity is the empty word. This keeps
  everything the traversal decides: which matrix is composed, pushed,
  popped and uploaded, and in which order.
- The device records the program in use, blending, the last value issued
  to each uniform location of each program object, and the enabled
  attributes of each vertex array. Uniform values belong to the program
  they were issued under, as in OpenGL, so a value uploaded under one
  shader is not seen by draws under another. The device also keeps two
  append-only logs, one of draw calls and one of released handles. Each
  draw call records the state it was issued in, including its program, and
  reads only that program's uniforms.

In these places the code does not do what its comments or the usual
pattern suggest, and the model follows the code:

- The normal matrix uploaded is the composed model matrix itself, not its
  inverse transpose.
- A blending colour node switches blending off on exit. It does not
  restore the state it found, so a nested blending node turns blending
  off for the later siblings of its parent.
- Neither the colour uniform nor the shader handle table is restored on
  exit.
- `PointNode.update` has no capacity check, so the model states the
  capacity as a precondition.
- The drag line's draw flag becomes true whenever the end point is
  replaced, even if the start point was not set since the last clear.
- One unit square is shared by all eleven colour nodes of the room, so the
  graph is a DAG. Here the shared square is the same node value at each
  place.

## Model

| member | source | states |
|---|---|---|
| Scene.PopUndoesPush | scene/transform_node.cpp:52-83 | popping after a push restores the scene state exactly, whatever the model matrix became in between |
| Scene.SceneState.PushTransforms | scene/transform_node.cpp:52 | the current model matrix is saved on top of the transform stack; nothing else changes |
| Scene.SceneState.PopTransforms | scene/transform_node.cpp:83 | the model matrix is restored from the top of the stack and the top is removed |
| Traversal.Draw | scene/transform_node.cpp:52-83 | for every node kind and tree shape, drawing leaves the model matrix, the transform stack, pv and ortho as on entry, only appends to the draw log and releases nothing |
| Traversal.DrawChildren | scene/transform_node.cpp:80 | the base traversal draws the children in list order, each in the state the previous one left, with the same balance |
| Traversal.Render | Module4/main.cpp:76-77 | the in-place virtual draw of any node changes the scene state object and the device exactly as the specification does |
| Traversal.RenderChildren | scene/transform_node.cpp:80 | the loop over the children in order computes the specification of the base traversal |
| Traversal.RenderTransform | scene/transform_node.cpp:49-84 | push, in-place composition, uploads, children, pop give exactly the transform node's specification |
| Traversal.UploadMatrices | scene/transform_node.cpp:59-76 | uploads the model, normal (= model) and pv*model matrices, each only to a valid handle |
| Traversal.RenderColor | Module3/color_blending_node.cpp:12-27 | blend set-up when blending, unguarded colour upload, children, blending off when blending: exactly the colour node's specification |
| Traversal.RenderNGonShader | Module3/ngon_shader_node.cpp:31-46 | program use, three handles written into the scene state, ortho upload, children: exactly the n-gon shader's specification |
| Traversal.RenderPointShader | Module3/point_shader_node.cpp:25-39 | as the n-gon shader, with only the ortho and position handles written |
| Traversal.RenderPointSet | Module3/point_node.cpp:45-54 | the point node's drawing matches its specification and leaves the scene state alone |
| Traversal.RenderDragLine | Module3/drag_line_node.cpp:73-87 | the drag line's drawing matches its specification and leaves the scene state alone |
| Traversal.RenderNGon | Module3/ngon_node.cpp:56-63 | the n-gon's drawing matches its specification and leaves the scene state alone |
| Traversal.RenderUnitSquare | Module4/unit_square_node.cpp:124-180 | the square's own strip and then its children: exactly the unit square's specification |
| Traversal.RenderSquare | Module4/unit_square_node.cpp:138-172 | binding, guarded enables, strip draw, guarded disables and unbinding, under the scene state's attribute handles |
| TraversalProps.NoShadersKeepFrame | scene/transform_node.cpp:52-83 | a subtree without shader nodes leaves the whole scene state, handle table included, exactly as on entry |
| TraversalProps.NoShadersKeepFrameChildren | scene/transform_node.cpp:80 | the same for a list of children |
| TraversalProps.NGonShaderPublishes | Module3/ngon_shader_node.cpp:37-46 | after an n-gon shader whose subtree has no shader, the scene state holds its three handles: they are published and not restored |
| TraversalProps.PointShaderPublishes | Module3/point_shader_node.cpp:31-39 | a point shader publishes ortho and position, leaves the colour handle as the previous shader set it, and does not restore |
| TraversalProps.ShaderUploadsOrtho | Module3/ngon_shader_node.cpp:34-45 | a shader node's program is current afterwards and every draw in its subtree sees the ortho matrix at its ortho handle, if the subtree does not overwrite it |
| TraversalProps.UniformHeld | scene/transform_node.cpp:80 | a subtree that uploads nothing to a location keeps the handle table, keeps the value at that location, and all its draws see that value |
| TraversalProps.UniformHeldChildren | scene/transform_node.cpp:80 | the same for a list of children |
| TraversalProps.NoProgramChange | Module3/ngon_shader_node.cpp:34 | only shader nodes change the program: a shader-free subtree keeps it and every one of its draws uses it |
| TraversalProps.TransformPublishes | scene/transform_node.cpp:55-80 | while the children draw, the model uniform holds model*composite, the normal uniform that same matrix (not the inverse transpose), and the pvm uniform pv*model*composite |
| TraversalProps.TransformSkipsNegativeHandles | scene/transform_node.cpp:69-76 | an upload to a negative handle is skipped: the uniform state at any negative location is untouched |
| TraversalProps.TransformWithoutChildren | scene/transform_node.cpp:49-84 | with no children and no valid matrix handle, a transform node changes neither the scene state nor the device |
| TraversalProps.StaleModelUniformAfterNestedTransform | scene/transform_node.cpp:69-83 | the pop does not re-upload: a geometry sibling after a nested transform is drawn with the nested model matrix in the uniform |
| TraversalProps.ColorSeenByChildren | Module3/color_blending_node.cpp:22-23 | every draw under a colour node sees its colour at the colour handle, if the subtree does not overwrite it |
| TraversalProps.SiblingColors | Module3/color_blending_node.cpp:22-23 | three non-blending sibling colour nodes under one shader: each n-gon is drawn with its own parent's colour, never a sibling's |
| TraversalProps.BlendKept | Module3/color_blending_node.cpp:15-26 | a subtree with no blending colour node leaves the blend switch and the blend function as it found them |
| TraversalProps.BlendKeptChildren | Module3/color_blending_node.cpp:15-26 | the same for a list of children |
| TraversalProps.DrawsKeepBlend | Module3/color_blending_node.cpp:15-26 | every draw call of a subtree with no blending colour node is issued with the blend switch found on entry |
| TraversalProps.DrawsKeepBlendChildren | Module3/color_blending_node.cpp:15-26 | the same for a list of children |
| TraversalProps.AlphaBlendKept | Module3/color_blending_node.cpp:17 | once the blend function is (source alpha, one minus source alpha), no subtree changes it, nested blending nodes included, because every blending node sets that same function |
| TraversalProps.AlphaBlendKeptChildren | Module3/color_blending_node.cpp:17 | the same for a list of children |
| TraversalProps.BlendingScopedToChildren | Module3/color_blending_node.cpp:15-26 | for every subtree, nested blending nodes included, a blending colour node leaves the blend function at (source alpha, one minus source alpha) and blending off, whatever it was before; when no descendant blends, every draw of the subtree is issued with blending on |
| TraversalProps.NonBlendingColorKeepsBlend | Module3/color_blending_node.cpp:15-26 | a non-blending colour node leaves the blend switch as it found it |
| TraversalProps.UniformsStayWithProgram | Module3/point_shader_node.cpp:25-39 | a colour uploaded under one shader's program is not seen by a later point set drawn under a second program: that draw sees only its own shader's ortho upload |
| TraversalProps.NestedBlendingResets | Module3/color_blending_node.cpp:26 | a nested blending node switches blending off for the later siblings inside the outer blending node: reset, not restore |
| GeometryDrawProps.PointSetDraw | Module3/point_node.cpp:47-53 | one point draw of the count when the count is positive; otherwise the device is untouched; never any children or scene-state change |
| GeometryDrawProps.DragLineDraw | Module3/drag_line_node.cpp:75-86 | one two-vertex line draw at the node's width when the flag is set; otherwise the device is untouched |
| GeometryDrawProps.NGonDraw | Module3/ngon_node.cpp:59-61 | always exactly one triangle-fan draw of all buffered vertices |
| GeometryDrawProps.SquareDraw | Module4/unit_square_node.cpp:138-172 | one 4-vertex strip, issued with the valid position and normal attributes added; those are disabled again afterwards; other vertex arrays are untouched; both bindings end at 0 |
| GeometryDrawProps.SquareRestoresAttribs | Module4/unit_square_node.cpp:141-168 | the square leaves its vertex array's enabled attributes as on entry if and only if neither valid handle was enabled there on entry |
| GeometryDrawProps.SquareDrawsBeforeChildren | Module4/unit_square_node.cpp:162-179 | the square's own strip is submitted before any draw of its children |
| GeometryDrawProps.DrawsAppended | scene/transform_node.cpp:80 | any tree appends exactly as many draw calls as a count read off the tree alone |
| GeometryDrawProps.DrawsAppendedChildren | scene/transform_node.cpp:80 | the same for a list of children |
| GeometryDrawProps.OnlyStrips | Module4/unit_square_node.cpp:162 | a shader-free tree whose only geometry is unit squares keeps the program and submits only their 4-vertex strips |
| GeometryDrawProps.OnlyStripsChildren | Module4/unit_square_node.cpp:162 | the same for a list of children |
| TransformNodes.TransformNode.constructor | scene/transform_node.cpp:6-10 | a new transform node holds the identity |
| TransformNodes.TransformNode.LoadIdentity | scene/transform_node.cpp:14-17 | the composite is reset to the identity |
| TransformNodes.TransformNode.Translate | scene/transform_node.cpp:19-22 | the composite is post-multiplied by the translation; nothing else changes |
| TransformNodes.TransformNode.Rotate | scene/transform_node.cpp:24-27 | the composite is post-multiplied by the axis rotation |
| TransformNodes.TransformNode.RotateX | scene/transform_node.cpp:29-32 | the composite is post-multiplied by the x rotation |
| TransformNodes.TransformNode.RotateY | scene/transform_node.cpp:34-37 | the composite is post-multiplied by the y rotation |
| TransformNodes.TransformNode.RotateZ | scene/transform_node.cpp:39-42 | the composite is post-multiplied by the z rotation |
| TransformNodes.TransformNode.Scale | scene/transform_node.cpp:44-47 | the composite is post-multiplied by the scaling |
| TransformNodes.TransformNode.Update | scene/transform_node.cpp:86 | the update changes neither the node nor the scene state |
| TransformNodes.TransformNode.Draw | scene/transform_node.cpp:49-84 | the override with the node's own composite is the transform specification |
| ColorBlendingNodes.ColorBlendingNode.constructor | Module3/color_blending_node.cpp:6-10 | the colour and the blending flag are stored as given |
| ColorBlendingNodes.ColorBlendingNode.Draw | Module3/color_blending_node.cpp:12-27 | the override with the node's fields is the colour specification |
| NGonShaderNodes.NGonShaderNode.GetLocations | Module3/ngon_shader_node.cpp:8-29 | true if and only if the ortho, color and vtx_position lookups are all non-negative; stops at the first negative lookup, leaving later handles unchanged and not looked up |
| NGonShaderNodes.NGonShaderNode.GetPositionLoc | Module3/ngon_shader_node.cpp:48 | returns the stored position handle |
| NGonShaderNodes.NGonShaderNode.Draw | Module3/ngon_shader_node.cpp:31-46 | the override with the node's program and handles is the n-gon shader specification |
| PointShaderNodes.PointShaderNode.GetLocations | Module3/point_shader_node.cpp:8-23 | true if and only if the ortho and vtx_position lookups are both non-negative; a negative ortho lookup stops before the position lookup |
| PointShaderNodes.PointShaderNode.GetPositionLoc | Module3/point_shader_node.cpp:41 | returns the stored position handle |
| PointShaderNodes.PointShaderNode.Draw | Module3/point_shader_node.cpp:25-39 | the override with the node's program and handles is the point shader specification |
| PointNodes.PointNode.constructor | Module3/point_node.cpp:6-23 | a buffer of `capacity` points at the origin and a count of 0 |
| PointNodes.PointNode.Update | Module3/point_node.cpp:31-41 | slots [0, \|v\|) now hold v, the other slots are untouched, the count is \|v\|; the count never exceeds the capacity; a non-empty list leaves the node's buffer bound, an empty one leaves the device as it was |
| PointNodes.PointNode.Clear | Module3/point_node.cpp:43 | the count is 0 and the buffer keeps its contents |
| PointNodes.PointNode.Draw | Module3/point_node.cpp:45-54 | the override with the node's count and vertex array is the point set specification |
| PointNodes.PointNode.Destroy | Module3/point_node.cpp:25-29 | the buffer and then the vertex array are released, once each |
| PointNodes.UpdateThenClear | Module3/point_node.cpp:31-54 | after a non-empty update the next draw submits exactly those points and the node's buffer stays bound; after a clear it submits nothing |
| DragLineNodes.DragLineNode.constructor | Module3/drag_line_node.cpp:11-46 | capacity 2, the two colours and the width as given, a buffer of four vertices, drawing off (corrected, see Findings) |
| DragLineNodes.DragLineNode.AsWritten | Module3/drag_line_node.cpp:11-46 | the constructor as written: the same, with the draw flag holding whatever its storage held |
| DragLineNodes.DragLineNode.SetWidth | Module3/drag_line_node.cpp:48 | only the width changes |
| DragLineNodes.DragLineNode.Clear | Module3/drag_line_node.cpp:50 | drawing is off and nothing else changes |
| DragLineNodes.DragLineNode.ReplacePoint0 | Module3/drag_line_node.cpp:52-59 | the start position is replaced, buffer slot 0 is rewritten with the start vertex, the line's buffer is left bound, drawing is off; the colours never change |
| DragLineNodes.DragLineNode.ReplacePoint1 | Module3/drag_line_node.cpp:61-71 | the end position is replaced, buffer slot 1 is rewritten with the end vertex, the line's buffer is left bound, drawing is on; the colours never change |
| DragLineNodes.DragLineNode.Draw | Module3/drag_line_node.cpp:73-87 | the override with the node's flag, width and vertex array is the drag line specification |
| DragLineNodes.Drag | Module3/drag_line_node.cpp:52-87 | after replacing point 0 then point 1, the buffer starts with (p, colour 1), (q, colour 2) and the next draw submits the line at the node's width |
| DragLineNodes.FirstDrawAsWritten | Module3/drag_line_node.cpp:11-46 | as written, a draw before any point was placed can submit a line |
| DragLineNodes.FirstDrawCorrected | Module3/drag_line_node.cpp:11-46 | with the flag cleared at construction, a draw before any point was placed submits nothing |
| NGonNodes.Ring | Module3/ngon_node.cpp:19-23 | one ring point per side, point i being the i-th circle point; none for a non-positive side count |
| NGonNodes.BuildVertexList | Module3/ngon_node.cpp:16-26 | the list is the centre, then the ring points in order, then the closing point (centre.x + radius, centre.y): side count + 2 vertices |
| NGonNodes.BuildIsFan | Module3/ngon_node.cpp:16-26 | a list of that shape is exactly the fan |
| NGonNodes.NGonNode.constructor | Module3/ngon_node.cpp:11-48 | the buffer holds the fan, the vertex count is side count + 2, and the kept list is only the ring points |
| NGonNodes.NGonNode.GetVertexList | Module3/ngon_node.cpp:65 | returns the buffered fan without its centre and its closing point |
| NGonNodes.NGonNode.Draw | Module3/ngon_node.cpp:56-63 | the override with the node's vertex count and vertex array is the n-gon specification |
| NGonNodes.NGonNode.Destroy | Module3/ngon_node.cpp:50-54 | the buffer and then the vertex array are released, once each |
| NGonNodes.NoSides | Module3/ngon_node.cpp:19-35 | with no sides the fan is the centre and the closing point and the kept list is empty |
| UnitSquareNodes.SquareVertices | Module4/unit_square_node.cpp:39-52 | the four vertices in strip order |
| UnitSquareNodes.SquareIsUnit | Module4/unit_square_node.cpp:36-52 | the vertices are the four distinct corners (±0.5, ±0.5, 0), all with normal (0, 0, 1) |
| UnitSquareNodes.UnitSquareNode.constructor | Module4/unit_square_node.cpp:10-14 | handles start at 0; the vertices are created; the vertex array handle is taken, and the buffer handle only if the vertex array handle is not 0 |
| UnitSquareNodes.UnitSquareNode.CreateVertices | Module4/unit_square_node.cpp:25-53 | the four slots hold the corners in strip order |
| UnitSquareNodes.UnitSquareNode.SetupGeometry | Module4/unit_square_node.cpp:77-122 | early exit at a 0 vertex array handle (device untouched) or a 0 buffer handle (vertex array left bound); otherwise upload and unbind both |
| UnitSquareNodes.UnitSquareNode.Draw | Module4/unit_square_node.cpp:124-180 | the override with the node's handles is the unit square specification |
| UnitSquareNodes.UnitSquareNode.Destroy | Module4/unit_square_node.cpp:16-23 | each handle is released only if it is not 0, the buffer before the vertex array; nothing else on the device changes |
| UnitSquareNodes.Lifecycle | Module4/unit_square_node.cpp:10-23 | a square releases exactly the handles it obtained, each once |
| RoomScene.Reshape | Module4/main.cpp:106-113 | the viewport is a square whose side is the smaller of the two window dimensions |
| RoomScene.ReshapeCentresSquare | Module4/main.cpp:106-113 | the viewport's side is min(width, height); the offsets are the halved margins, truncated; at least one offset is 0; the viewport fits in the window and is centred to within a pixel |
| RoomScene.ReshapeFitsInt32 | Module4/main.cpp:106-113 | for window sizes that fit in 32 bits, no intermediate value leaves that range |
| RoomScene.Box | Module4/main.cpp:235-306 | the box is its main transform over six purple faces, face 1 to face 6 in order |
| RoomScene.FloorSurface | Module4/main.cpp:177-184 | the floor is a transform scaled (100, 100, 1) over a colour node over the square |
| RoomScene.LeftWallSurface | Module4/main.cpp:188-196 | the left wall's transform applies translate, rotate y, scale in that order |
| RoomScene.RightWallSurface | Module4/main.cpp:200-208 | the right wall's transform applies translate, rotate y, scale in that order |
| RoomScene.BackWallSurface | Module4/main.cpp:212-220 | the back wall's transform applies translate, rotate x, scale in that order |
| RoomScene.CeilingSurface | Module4/main.cpp:224-231 | the ceiling's transform applies translate, scale in that order |
| RoomScene.BoxFace1 | Module4/main.cpp:243-249 | face 1's transform and purple colour node over the square |
| RoomScene.BoxFace2 | Module4/main.cpp:252-260 | face 2's transform and purple colour node over the square |
| RoomScene.BoxFace3 | Module4/main.cpp:263-270 | face 3's transform and purple colour node over the square |
| RoomScene.BoxFace4 | Module4/main.cpp:273-280 | face 4's transform and purple colour node over the square |
| RoomScene.BoxFace5 | Module4/main.cpp:283-289 | face 5's transform and purple colour node over the square |
| RoomScene.BoxFace6 | Module4/main.cpp:292-298 | face 6's transform and purple colour node over the square |
| RoomScene.BoxNode | Module4/main.cpp:235-306 | the box built from its main transform and the six faces is the box |
| RoomScene.ConstructScene | Module4/main.cpp:162-321 | no scene if and only if shader creation or location lookup fails; otherwise the lighting shader over floor, left, right and back walls, ceiling and box |
| RoomScene.Display | Module4/main.cpp:70-81 | the graph is drawn only when a root exists; otherwise nothing changes |
| RoomScene.SurfaceIsPlain | Module4/main.cpp:180-184 | a surface holds the square once, no shader and no blending |
| RoomScene.BoxIsPlain | Module4/main.cpp:240-306 | the box holds the square six times, once per face |
| RoomScene.RoomSharesOneSquare | Module4/main.cpp:173-317 | one square occurs eleven times in the room; the root has exactly six children, in order, with the box last |
| RoomScene.RoomDraw | Module4/main.cpp:162-321 | a frame of the room submits eleven 4-vertex strips of the shared square under the lighting program with blending unchanged; afterwards the model matrix and stack are restored and the handle table is the lighting shader's |

## Left out

- Matrix numerics: `Matrix4x4` and its float and trigonometric arithmetic are not shown. Matrices are words of operations, and only structural facts are proved: what is composed, saved, restored and uploaded.
- The normal matrix's inverse transpose is not computed, because the code uploads the model matrix itself.
- Float rounding: coordinates, colours and widths are reals.
- NGon ring coordinates: `cos`/`sin` of an accumulated angle become a function `ring` from side index to point, supplied by the caller.
- Byte layouts: `sizeof`/`offsetof` strides, buffer byte offsets, `glVertexAttribPointer` layouts, debug printing and `check_error` are left out. The drag line constructor uploads more bytes than its source vector holds; the model treats the buffer's initial contents as unknown.
- Constructors' device effects: buffer creation and initial uploads, and the attributes that the point, drag line and n-gon constructors enable in their own vertex arrays, are left out. Handles the context generates are constructor parameters.
- The unit square constructor's ghost device result is discarded.
- `SceneNode`, `SceneState`, `GeometryNode`, `ShaderNode` and `LightingShaderNode` are not shown in the source. The base child traversal is modelled as drawing the children in list order. The lighting shader is modelled as making its program current and publishing its whole handle table; `Traversal.RenderLightingShader` has no row for that reason.
- `LineShaderNode`, which the Module 3 program places over the drag line, is not shown; the drag line's draw is modelled on its own, under whatever program is current.
- `ColorNode` is not shown. It is modelled as a colour node with blending off.
- Shader creation, compilation and the location queries are parameters: boolean outcomes for the lighting shader, and lookup functions for the n-gon and point shaders.
- `PointNode.pos_loc_` is never assigned by the program and is not modelled.
- PointNodes.PointNode.Update: requires that the list fits the capacity. The program does not check it: an oversized `glBufferSubData` is rejected and leaves the buffer as it was, while the count still becomes |v|, so the next draw reads past the buffer's end; that case is not modelled.
- PointNodes.PointNode.constructor: takes a non-negative capacity; a negative 32-bit capacity, which the program would convert to a huge vector size, is not modelled.
- DragLineNodes.DragLineNode: the drag line has no destructor in the program, so its handles are never released; the model has none either.
- RoomScene.ReshapeCentresSquare: is stated over unbounded integers; 32-bit overflow of `width - size` for huge dimensions of opposite signs is not modelled; ReshapeFitsInt32 covers sizes a window can have.
- RoomScene.ConstructScene: the process exit on shader failure is modelled as the absence of a scene; the scene-graph printout and the error messages are left out.
- RoomScene.Display: clearing the colour and depth buffers and swapping the window's buffers are left out.
- Module 3's program (window, event loop, mouse dragging, clipping), Module 4's initialisation, timing and cleanup, the hard-coded projection and view matrices, logging and the shader sources are left out: they are I/O, windowing or float geometry.
- Aliasing of the shared unit square: the model's graph is a tree of values in which the shared square appears as eleven equal values; that they are one object is stated by `RoomSharesOneSquare`, not by pointer identity.

## Findings

| source | as written | input that shows it | evidently intended | confidence | as-written member | corrected member |
|---|---|---|---|---|---|---|
| Module3/drag_line_node.cpp:11-46 | the constructor never assigns `draw_`, so the first `draw` reads an indeterminate flag | a frame displayed before the first mouse press, with the flag's storage reading as true: a line is drawn from buffer contents that were never written | `draw_` starts false, as after `clear` | high that the flag is unassigned; not executed | DragLineNodes.FirstDrawAsWritten | DragLineNodes.FirstDrawCorrected |
