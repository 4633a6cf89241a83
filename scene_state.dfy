/**
 * The per-frame scene state that every node's draw receives by reference:
 * the current model matrix, the stack of saved model matrices, the
 * projection-view and orthographic matrices, and the handle table of the
 * shader that was entered last.
 */
module Scene {
  import opened Matrices

  /** Uniform and attribute locations published by the shader entered last; negative means unused. */
  datatype Handles = Handles(
    ortho: int,
    color: int,
    position: int,
    normal: int,
    model: int,
    normalMatrix: int,
    pvm: int)

  /** The value of a scene state. */
  datatype Frame = Frame(
    model: Matrix,
    stack: seq<Matrix>,
    pv: Matrix,
    ortho: Matrix,
    locs: Handles)

  /** Saves the model matrix on top of the stack. */
  function Push(f: Frame): (r: Frame)
  {
    f.(stack := f.stack + [f.model])
  }

  /** Restores the model matrix from the top of the stack and removes it. */
  function Pop(f: Frame): (r: Frame)
    requires |f.stack| > 0
  {
    f.(model := f.stack[|f.stack| - 1], stack := f.stack[..|f.stack| - 1])
  }

  /** Popping what was pushed gives back the state before the push, whatever happened to the model matrix meanwhile. */
  lemma PopUndoesPush(f: Frame, m: Matrix)
    ensures Pop(Push(f).(model := m)) == f
  {
    assert (f.stack + [f.model])[..|f.stack|] == f.stack;
  }

  class SceneState {
    var modelMatrix: Matrix
    var transforms: seq<Matrix>
    var pv: Matrix
    var orthoMatrix: Matrix
    var orthoMatrixLoc: int
    var colorLoc: int
    var positionLoc: int
    var normalLoc: int
    var modelMatrixLoc: int
    var normalMatrixLoc: int
    var pvmMatrixLoc: int

    function Value(): Frame
      reads this
    {
      Frame(modelMatrix, transforms, pv, orthoMatrix,
            Handles(orthoMatrixLoc, colorLoc, positionLoc, normalLoc, modelMatrixLoc, normalMatrixLoc, pvmMatrixLoc))
    }

    constructor (init: Frame)
      ensures Value() == init
    {
      modelMatrix, transforms, pv, orthoMatrix := init.model, init.stack, init.pv, init.ortho;
      orthoMatrixLoc, colorLoc, positionLoc := init.locs.ortho, init.locs.color, init.locs.position;
      normalLoc, modelMatrixLoc := init.locs.normal, init.locs.model;
      normalMatrixLoc, pvmMatrixLoc := init.locs.normalMatrix, init.locs.pvm;
    }

    method PushTransforms()
      modifies this
      ensures Value() == Push(old(Value()))
    {
      transforms := transforms + [modelMatrix];
    }

    method PopTransforms()
      requires |transforms| > 0
      modifies this
      ensures Value() == Pop(old(Value()))
    {
      modelMatrix := transforms[|transforms| - 1];
      transforms := transforms[..|transforms| - 1];
    }

    method SetLocations(h: Handles)
      modifies this
      ensures Value() == old(Value()).(locs := h)
    {
      orthoMatrixLoc, colorLoc, positionLoc := h.ortho, h.color, h.position;
      normalLoc, modelMatrixLoc := h.normal, h.model;
      normalMatrixLoc, pvmMatrixLoc := h.normalMatrix, h.pvm;
    }
  }
}
