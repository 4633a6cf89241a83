/**
 * The graphics device, as the scene nodes see it.
 *
 * Every graphics-library call a node makes becomes a function from the device
 * state before the call to the device state after it. The state keeps exactly
 * what the nodes touch: the program in use, the blend switch and blend
 * function, the last value issued to each uniform location of each program
 * object (uniform values belong to the program, not to the device), the
 * enabled vertex attributes of each vertex array object, the bound vertex
 * array and array buffer, the line width, an append-only log of draw calls and
 * an append-only log of released handles.
 */
module Gl {
  import opened Matrices
  import opened Geometry

  datatype Primitive = Points | Lines | TriangleFan | TriangleStrip

  datatype BlendFactor = Zero | One | SrcAlpha | OneMinusSrcAlpha

  /** A value uploaded to a uniform: a 4x4 matrix or a four-component vector. */
  datatype Uniform = Mat4(m: Matrix) | Vec4(c: Color4)

  /** A device object name handed back to the device on release. */
  datatype Handle = Buffer(buffer: nat) | VertexArray(array: nat)

  /**
   * One draw submission, with the device state it was issued in: the blend
   * switch, the uniforms issued so far (the call reads those of its own
   * program), the attributes enabled in the bound vertex array, the line
   * width and the program in use.
   */
  datatype DrawCall = DrawCall(
    mode: Primitive,
    first: int,
    count: int,
    vao: nat,
    blend: bool,
    uniforms: map<(int, int), Uniform>,
    attribs: set<int>,
    lineWidth: real,
    program: int)

  datatype Device = Device(
    program: int,
    blend: bool,
    blendFunc: (BlendFactor, BlendFactor),
    /**
     * Last value issued to each location of each program object, keyed by
     * (program, location), whether or not the program accepts the location.
     */
    issued: map<(int, int), Uniform>,
    /** Enabled vertex attribute locations, per vertex array object. */
    attribs: map<nat, set<int>>,
    vao: nat,
    arrayBuffer: nat,
    lineWidth: real,
    draws: seq<DrawCall>,
    released: seq<Handle>)

  function Enabled(d: Device, vao: nat): set<int>
  {
    if vao in d.attribs then d.attribs[vao] else {}
  }

  function UseProgram(d: Device, program: int): Device
  {
    d.(program := program)
  }

  function SetBlendFunc(d: Device, src: BlendFactor, dst: BlendFactor): Device
  {
    d.(blendFunc := (src, dst))
  }

  function EnableBlend(d: Device): Device
  {
    d.(blend := true)
  }

  function DisableBlend(d: Device): Device
  {
    d.(blend := false)
  }

  /** Sets a uniform of the program in use; no other program's values change. */
  function SetUniform(d: Device, loc: int, u: Uniform): Device
  {
    d.(issued := d.issued[(d.program, loc) := u])
  }

  /** Enables an attribute in the bound vertex array. */
  function EnableAttrib(d: Device, loc: int): Device
  {
    d.(attribs := d.attribs[d.vao := Enabled(d, d.vao) + {loc}])
  }

  /** Disables an attribute in the bound vertex array. */
  function DisableAttrib(d: Device, loc: int): Device
  {
    d.(attribs := d.attribs[d.vao := Enabled(d, d.vao) - {loc}])
  }

  function BindVertexArray(d: Device, vao: nat): Device
  {
    d.(vao := vao)
  }

  function BindArrayBuffer(d: Device, buffer: nat): Device
  {
    d.(arrayBuffer := buffer)
  }

  function LineWidth(d: Device, width: real): Device
  {
    d.(lineWidth := width)
  }

  function DrawArrays(d: Device, mode: Primitive, first: int, count: int): Device
  {
    var call := DrawCall(mode, first, count, d.vao, d.blend, d.issued, Enabled(d, d.vao), d.lineWidth, d.program);
    d.(draws := d.draws + [call])
  }

  function DeleteBuffer(d: Device, buffer: nat): Device
  {
    d.(released := d.released + [Buffer(buffer)])
  }

  function DeleteVertexArray(d: Device, vao: nat): Device
  {
    d.(released := d.released + [VertexArray(vao)])
  }
}
