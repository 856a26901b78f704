/** The frame state every render pass sees: the surface size and the two
    flags passes and the window share. */
module SharedState {

  /** A surface size in pixels (`PhysicalSize<u32>`). */
  datatype Size = Size(width: nat, height: nat)

  /** `ContextState`: the stored surface size, whether a new terrain is
      requested, and whether the cursor is captured. */
  class ContextState {
    var size: Size
    var newTerrain: bool
    var cursorCaptured: bool

    constructor (size: Size, newTerrain: bool, cursorCaptured: bool)
      ensures this.size == size && this.newTerrain == newTerrain
      ensures this.cursorCaptured == cursorCaptured
    {
      this.size := size;
      this.newTerrain := newTerrain;
      this.cursorCaptured := cursorCaptured;
    }
  }
}
