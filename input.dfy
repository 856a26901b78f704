/** The window-system input vocabulary the core reacts to (winit's key codes,
    element states, scroll deltas and window events), reduced to the cases
    the core distinguishes. */
module Input {

  datatype Option<T> = None | Some(value: T)

  /** Physical key codes. `OtherKey` stands for every code the core ignores. */
  datatype KeyCode =
    | KeyW | KeyA | KeyS | KeyD
    | ArrowUp | ArrowDown | ArrowLeft | ArrowRight
    | Space | ShiftLeft | Escape
    | OtherKey(id: nat)

  datatype ElementState = Pressed | Released

  /** A key event's physical key: a known code, or one the platform could not identify. */
  datatype PhysicalKey = Code(code: KeyCode) | Unidentified

  /** A scroll wheel step: in lines (`LineDelta`) or in pixels (`PixelDelta`). */
  datatype ScrollDelta = LineDelta(lx: real, ly: real) | PixelDelta(px: real, py: real)

  datatype MouseButton = LeftButton | RightButton | MiddleButton

  /** Window events delivered to the frame orchestrator. */
  datatype WindowEvent =
    | KeyboardInput(state: ElementState, physicalKey: PhysicalKey)
    | MouseInput(buttonState: ElementState, button: MouseButton)
    | CursorMoved(cx: real, cy: real)
    | Resized(width: nat, height: nat)
    | RedrawRequested
    | OtherEvent
}
