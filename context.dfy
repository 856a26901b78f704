/** The frame orchestrator of `src/context.rs`: the shared frame state, the
    live camera and the ordered list of render passes, with the window's
    resize, input and per-frame update routed through them. */
module Orchestrator {
  import opened Vectors
  import opened Input
  import opened SharedState
  import opened TerrainMesh
  import opened Perlin
  import opened RenderCamera

  /** The widest surface the context configures. */
  const MAX_WIDTH: nat := 1280
  /** The tallest surface the context configures. */
  const MAX_HEIGHT: nat := 720

  function Min(a: nat, b: nat): nat {
    if a < b then a else b
  }

  function Max(a: nat, b: nat): nat {
    if a < b then b else a
  }

  // ---------------------------------------------------------------------------
  // Render passes

  /** A registered render pass: the sky and the water handle no input and
      have nothing to update; the terrain pass owns its buffers and its
      regeneration flag. */
  datatype Pass = SkyPass | WaterPass | TerrainPass(terrain: PerlinPass)

  /** Which pass `add_render_pass` is asked to create. */
  datatype PassKind = Sky | Water | Terrain

  function KindOf(p: Pass): PassKind {
    match p
    case SkyPass => Sky
    case WaterPass => Water
    case TerrainPass(_) => Terrain
  }

  /** The terrain pass objects among `passes`. */
  function Terrains(passes: seq<Pass>): set<PerlinPass> {
    set i | 0 <= i < |passes| && passes[i].TerrainPass? :: passes[i].terrain
  }

  /** No terrain pass comes before position `k`. */
  predicate NoTerrainBefore(passes: seq<Pass>, k: nat) {
    forall j :: 0 <= j < k && j < |passes| ==> !passes[j].TerrainPass?
  }

  /** Whether the pass at position `i` regenerates its terrain in a frame
      that starts with the regeneration request `request`: it is a terrain
      pass, the request is set, and no terrain pass came before it to clear
      the request (the condition `UpdatePasses` states for each pass). */
  predicate RegeneratesAt(passes: seq<Pass>, request: bool, i: nat) {
    request && i < |passes| && passes[i].TerrainPass? && NoTerrainBefore(passes, i)
  }

  /** A request regenerates exactly one terrain pass, the first one: some
      pass regenerates if and only if the request is set and the list holds
      a terrain pass, and no two positions both regenerate. */
  lemma {:induction false} RequestRegeneratesFirstTerrainOnly(passes: seq<Pass>, request: bool)
    ensures (exists i: nat :: RegeneratesAt(passes, request, i)) ==
      (request && exists j :: 0 <= j < |passes| && passes[j].TerrainPass?)
    ensures forall i: nat, k: nat :: RegeneratesAt(passes, request, i) && RegeneratesAt(passes, request, k) ==> i == k
  {
    if request && exists j :: 0 <= j < |passes| && passes[j].TerrainPass? {
      var j :| 0 <= j < |passes| && passes[j].TerrainPass?;
      var i := FirstTerrain(passes, j);
      assert RegeneratesAt(passes, request, i);
    }
    forall i: nat, k: nat | i < k && RegeneratesAt(passes, request, i)
      ensures !RegeneratesAt(passes, request, k)
    {
      assert passes[i].TerrainPass?;
    }
  }

  /** A terrain pass at or before `j` with none before it. */
  lemma {:induction false} FirstTerrain(passes: seq<Pass>, j: nat) returns (i: nat)
    requires j < |passes| && passes[j].TerrainPass?
    ensures i <= j && passes[i].TerrainPass? && NoTerrainBefore(passes, i)
    decreases j
  {
    if NoTerrainBefore(passes, j) {
      i := j;
    } else {
      var j' :| 0 <= j' < j && passes[j'].TerrainPass?;
      i := FirstTerrain(passes, j');
    }
  }

  lemma NoTerrainBeforeNext(passes: seq<Pass>, i: nat)
    requires i < |passes|
    ensures NoTerrainBefore(passes, i + 1) == (NoTerrainBefore(passes, i) && !passes[i].TerrainPass?)
  {
  }

  // ---------------------------------------------------------------------------
  // Surface size

  /** The size `resize` settles on: the requested size, or the current one
      when none is given, capped to `MAX_WIDTH` by `MAX_HEIGHT`. */
  function CappedSize(current: Size, request: Option<Size>): (r: Size)
    ensures r.width <= MAX_WIDTH && r.height <= MAX_HEIGHT
    ensures request.Some? ==> r.width == Min(request.value.width, MAX_WIDTH)
    ensures request.Some? ==> r.height == Min(request.value.height, MAX_HEIGHT)
    ensures request.None? ==> r.width == Min(current.width, MAX_WIDTH)
    ensures request.None? ==> r.height == Min(current.height, MAX_HEIGHT)
  {
    var size := match request
      case Some(s) => s
      case None => current;
    Size(Min(size.width, MAX_WIDTH), Min(size.height, MAX_HEIGHT))
  }

  /** The capped size is applied only when both its sides are positive. */
  predicate Applies(current: Size, request: Option<Size>) {
    var s := CappedSize(current, request);
    s.width > 0 && s.height > 0
  }

  /** The stored size after `resize`: the capped size when it applies, the
      current size otherwise. A stored size with positive sides keeps them
      positive, and an applied size fits the cap. */
  function ResizedSize(current: Size, request: Option<Size>): (r: Size)
    ensures Applies(current, request) ==> r == CappedSize(current, request)
    ensures !Applies(current, request) ==> r == current
    ensures current.width >= 1 && current.height >= 1 ==> r.width >= 1 && r.height >= 1
    ensures r != current ==> 1 <= r.width <= MAX_WIDTH && 1 <= r.height <= MAX_HEIGHT
  {
    if Applies(current, request) then CappedSize(current, request) else current
  }

  /** The stored size after each request in turn. */
  function ResizeRun(current: Size, requests: seq<Option<Size>>): Size
    decreases |requests|
  {
    if requests == [] then current else ResizeRun(ResizedSize(current, requests[0]), requests[1..])
  }

  /** Starting from the size `new` stores, both sides stay at least 1 over
      any sequence of resizes. */
  lemma {:induction false} ResizeRunPositive(windowSize: Size, requests: seq<Option<Size>>)
    ensures var s := ResizeRun(InitialSize(windowSize), requests);
      s.width >= 1 && s.height >= 1
  {
    ResizeRunKeepsPositive(InitialSize(windowSize), requests);
  }

  lemma {:induction false} ResizeRunKeepsPositive(current: Size, requests: seq<Option<Size>>)
    requires current.width >= 1 && current.height >= 1
    ensures ResizeRun(current, requests).width >= 1 && ResizeRun(current, requests).height >= 1
    decreases |requests|
  {
    if requests != [] {
      ResizeRunKeepsPositive(ResizedSize(current, requests[0]), requests[1..]);
    }
  }

  /** Resizing to no new size re-applies the current one, capped: once the
      stored size fits the cap this changes nothing. */
  lemma ResizeNoneIdempotent(current: Size)
    requires 1 <= current.width <= MAX_WIDTH && 1 <= current.height <= MAX_HEIGHT
    ensures ResizedSize(current, None) == current
  {
  }

  /** The size `new` stores: the window's inner size with each side raised
      to at least 1. */
  function InitialSize(windowSize: Size): (r: Size)
    ensures r.width >= 1 && r.height >= 1
    ensures windowSize.width >= 1 ==> r.width == windowSize.width
    ensures windowSize.height >= 1 ==> r.height == windowSize.height
  {
    Size(Max(windowSize.width, 1), Max(windowSize.height, 1))
  }

  /** The camera's aspect ratio is the surface's width over its height. */
  predicate AspectMatches(aspect: real, size: Size) {
    aspect * (size.height as real) == size.width as real
  }

  // ---------------------------------------------------------------------------
  // Input routing

  /** Only a key press with a physical key code reaches the camera. */
  function CameraKey(event: WindowEvent): Option<KeyCode> {
    match event
    case KeyboardInput(Pressed, Code(code)) => Some(code)
    case _ => None
  }

  /** What `input` reports: the camera's verdict on a pressed key, or-ed
      with every pass's; no pass handles an event. */
  function InputHandled(camera: CameraState, event: WindowEvent): (handled: bool)
    ensures handled <==> CameraKey(event).Some? && CameraKey(event).value in {KeyW, KeyS, KeyA, KeyD}
  {
    match CameraKey(event)
    case Some(code) =>
      KeyStepSpec(camera, code);
      KeyStep(camera, code).1
    case None => false
  }

  /** The camera after `input`. */
  function InputCamera(camera: CameraState, event: WindowEvent): (r: CameraState)
    ensures CameraKey(event).None? ==> r == camera
    ensures r == camera.(movement := r.movement)
  {
    match CameraKey(event)
    case Some(code) =>
      KeyStepSpec(camera, code);
      KeyStep(camera, code).0
    case None => camera
  }

  /** A released key, a mouse button, a cursor move or any other event
      never moves the camera, whatever the passes do. */
  lemma OnlyPressesReachCamera(camera: CameraState, event: WindowEvent)
    requires !(event.KeyboardInput? && event.state == Pressed && event.physicalKey.Code?)
    ensures InputCamera(camera, event) == camera && !InputHandled(camera, event)
  {
  }

  // ---------------------------------------------------------------------------
  // Cursor capture

  /** `toggle_cursor_capture` flips the flag. */
  function Toggled(captured: bool): (r: bool)
    ensures r != captured
  {
    !captured
  }

  /** Two toggles restore the original capture state. */
  lemma ToggleTwice(captured: bool)
    ensures Toggled(Toggled(captured)) == captured
  {
  }

  // ---------------------------------------------------------------------------
  // The context object

  class Context {
    const state: ContextState
    const camera: Camera
    var pipelines: seq<Pass>

    /** The stored size has positive sides and the camera's aspect ratio
        matches it; the terrain passes are distinct objects with their
        buffers intact. */
    ghost predicate Valid()
      reads this, state, camera, Terrains(pipelines)
    {
      state.size.width >= 1 && state.size.height >= 1 &&
      AspectMatches(camera.aspect, state.size) &&
      (forall i, j :: 0 <= i < j < |pipelines| && pipelines[i].TerrainPass? && pipelines[j].TerrainPass? ==>
         pipelines[i].terrain != pipelines[j].terrain) &&
      (forall i :: 0 <= i < |pipelines| && pipelines[i].TerrainPass? ==> pipelines[i].terrain.Valid())
    }

    /** `Context::new`, for a window of inner size `windowSize`. */
    constructor (windowSize: Size)
      ensures Valid()
      ensures state.size == InitialSize(windowSize)
      ensures state.newTerrain && !state.cursorCaptured
      ensures pipelines == []
      ensures camera.State() == NewCamera(state.size.width, state.size.height)
      ensures fresh(state) && fresh(camera)
    {
      var width := Max(windowSize.width, 1);
      var height := Max(windowSize.height, 1);
      state := new ContextState(Size(width, height), true, false);
      camera := new Camera(width, height);
      pipelines := [];
    }

    /** `resize`: cap the requested (or current) size and apply it, to the
        stored size and the camera, only when both sides are positive. */
    method Resize(newSize: Option<Size>)
      requires Valid()
      modifies state, camera
      ensures Valid()
      ensures state.size == ResizedSize(old(state.size), newSize)
      ensures state.newTerrain == old(state.newTerrain) && state.cursorCaptured == old(state.cursorCaptured)
      ensures Applies(old(state.size), newSize) ==>
        camera.State() == ResizeStep(old(camera.State()), state.size.width, state.size.height)
      ensures !Applies(old(state.size), newSize) ==> camera.State() == old(camera.State())
    {
      var size := match newSize
        case Some(s) => s
        case None => state.size;
      size := Size(Min(size.width, MAX_WIDTH), Min(size.height, MAX_HEIGHT));
      if size.width > 0 && size.height > 0 {
        state.size := size;
        camera.Resize(size.width, size.height);
      }
    }

    /** The pass's own `input`. */
    method PassInput(pass: Pass, event: WindowEvent) returns (handled: bool)
      ensures !handled
    {
      match pass {
        case SkyPass =>
          handled := false;
        case WaterPass =>
          handled := false;
        case TerrainPass(terrain) =>
          handled := terrain.Input(event, state);
      }
    }

    /** `input`: offer a pressed key to the camera, then the event to every
        pass in order, even once one has handled it; report whether any
        did. `polled` lists the passes asked, in order. */
    method Input(event: WindowEvent) returns (handled: bool, ghost polled: seq<nat>)
      requires Valid()
      modifies camera
      ensures Valid()
      ensures handled == InputHandled(old(camera.State()), event)
      ensures camera.State() == InputCamera(old(camera.State()), event)
      ensures polled == seq(|pipelines|, i => i)
    {
      handled := false;
      if event.KeyboardInput? && event.state == Pressed && event.physicalKey.Code? {
        ghost var before := camera.State();
        handled := camera.ProcessKey(event.physicalKey.code);
        KeyStepSpec(before, event.physicalKey.code);
      }
      polled := [];
      var i := 0;
      while i < |pipelines|
        invariant 0 <= i <= |pipelines|
        invariant Valid()
        invariant camera.State() == InputCamera(old(camera.State()), event)
        invariant handled == InputHandled(old(camera.State()), event)
        invariant polled == seq(i, j => j)
      {
        var passHandled := PassInput(pipelines[i], event);
        handled := handled || passHandled;
        polled := polled + [i];
        i := i + 1;
      }
    }

    /** The buffers of `terrain` hold the strip and vertices of the terrain
        `noise` describes. */
    ghost predicate Regenerated(terrain: PerlinPass, noise: (real, real) -> real)
      reads terrain
    {
      2 <= terrain.size &&
      terrain.indexBuffer == StripIndices(terrain.size) &&
      terrain.vertexBuffer == GridVertices(Heightmap(terrain.size, noise), terrain.size)
    }

    /** `update`: the camera first, then every pass in registration order.
        A pending terrain request reaches only the first terrain pass, which
        regenerates and clears it; it stays pending when there is none. */
    method Update(dt: real, num: Numerics, noise: (real, real) -> real) returns (ghost visited: seq<nat>)
      requires Valid()
      modifies camera, state, Terrains(pipelines)
      ensures Valid()
      ensures camera.State() == UpdateStep(old(camera.State()), dt, num)
      ensures state.size == old(state.size) && state.cursorCaptured == old(state.cursorCaptured)
      ensures visited == seq(|pipelines|, i => i)
      ensures state.newTerrain == (old(state.newTerrain) && NoTerrainBefore(pipelines, |pipelines|))
      ensures forall i :: 0 <= i < |pipelines| && pipelines[i].TerrainPass? ==>
        var t := pipelines[i].terrain;
        t.newTerrain == (old(state.newTerrain) && NoTerrainBefore(pipelines, i)) &&
        (t.newTerrain ==> Regenerated(t, noise)) &&
        (!t.newTerrain ==> t.indexBuffer == old(t.indexBuffer) && t.vertexBuffer == old(t.vertexBuffer))
    {
      UpdateCamera(dt, num);
      visited := UpdatePasses(noise);
    }

    /** The camera's half of `update`. */
    method UpdateCamera(dt: real, num: Numerics)
      requires Valid()
      modifies camera
      ensures Valid()
      ensures camera.State() == UpdateStep(old(camera.State()), dt, num)
    {
      ghost var before := camera.State();
      camera.Update(dt, num);
      UpdateKeepsAspect(before, dt, num);
    }

    /** The passes' half of `update`: every pass in registration order. */
    method UpdatePasses(noise: (real, real) -> real) returns (ghost visited: seq<nat>)
      requires Valid()
      modifies state, Terrains(pipelines)
      ensures Valid()
      ensures state.size == old(state.size) && state.cursorCaptured == old(state.cursorCaptured)
      ensures visited == seq(|pipelines|, i => i)
      ensures state.newTerrain == (old(state.newTerrain) && NoTerrainBefore(pipelines, |pipelines|))
      ensures forall i :: 0 <= i < |pipelines| && pipelines[i].TerrainPass? ==>
        var t := pipelines[i].terrain;
        t.newTerrain == (old(state.newTerrain) && NoTerrainBefore(pipelines, i)) &&
        (t.newTerrain ==> Regenerated(t, noise)) &&
        (!t.newTerrain ==> t.indexBuffer == old(t.indexBuffer) && t.vertexBuffer == old(t.vertexBuffer))
    {
      ghost var request := state.newTerrain;
      visited := [];
      var i := 0;
      while i < |pipelines|
        invariant 0 <= i <= |pipelines|
        invariant visited == seq(i, j => j)
        invariant Valid()
        invariant state.size == old(state.size) && state.cursorCaptured == old(state.cursorCaptured)
        invariant state.newTerrain == (request && NoTerrainBefore(pipelines, i))
        invariant forall j :: 0 <= j < i && pipelines[j].TerrainPass? ==>
          var t := pipelines[j].terrain;
          t.newTerrain == (request && NoTerrainBefore(pipelines, j)) &&
          (t.newTerrain ==> Regenerated(t, noise)) &&
          (!t.newTerrain ==> t.indexBuffer == old(t.indexBuffer) && t.vertexBuffer == old(t.vertexBuffer))
        invariant forall j :: i <= j < |pipelines| && pipelines[j].TerrainPass? ==>
          var t := pipelines[j].terrain;
          t.indexBuffer == old(t.indexBuffer) && t.vertexBuffer == old(t.vertexBuffer)
      {
        NoTerrainBeforeNext(pipelines, i);
        if pipelines[i].TerrainPass? {
          UpdateTerrainAt(i, noise);
        }
        visited := visited + [i];
        i := i + 1;
      }
    }

    /** One terrain pass's `update`, seen from the context: only that pass
        and the shared state change. */
    method UpdateTerrainAt(i: nat, noise: (real, real) -> real)
      requires Valid() && i < |pipelines| && pipelines[i].TerrainPass?
      modifies state, pipelines[i].terrain
      ensures Valid()
      ensures state.size == old(state.size) && state.cursorCaptured == old(state.cursorCaptured)
      ensures !state.newTerrain
      ensures var t := pipelines[i].terrain;
        t.newTerrain == old(state.newTerrain) &&
        (t.newTerrain ==> Regenerated(t, noise)) &&
        (!t.newTerrain ==> t.indexBuffer == old(t.indexBuffer) && t.vertexBuffer == old(t.vertexBuffer))
      ensures forall j :: 0 <= j < |pipelines| && j != i && pipelines[j].TerrainPass? ==>
        var t := pipelines[j].terrain;
        t.newTerrain == old(t.newTerrain) && t.indexBuffer == old(t.indexBuffer) && t.vertexBuffer == old(t.vertexBuffer)
    {
      pipelines[i].terrain.Update(state, noise);
    }

    /** `add_render_pass`: create a pass of `kind` and append it, so passes
        run in the order they were registered. */
    method AddRenderPass(kind: PassKind)
      requires Valid()
      modifies this
      ensures Valid()
      ensures |pipelines| == |old(pipelines)| + 1
      ensures pipelines[..|old(pipelines)|] == old(pipelines)
      ensures KindOf(pipelines[|old(pipelines)|]) == kind
      ensures kind == Terrain ==> fresh(pipelines[|old(pipelines)|].terrain)
      ensures kind == Terrain ==>
        var t := pipelines[|old(pipelines)|].terrain;
        t.size == SIZE && t.newTerrain && t.uploads == [] &&
        t.indexBuffer == seq(IndexBufferLength(SIZE), _ => 0) &&
        t.vertexBuffer == seq(VertexBufferLength(SIZE), _ => 0.0)
    {
      var pass: Pass;
      match kind {
        case Sky =>
          pass := SkyPass;
        case Water =>
          pass := WaterPass;
        case Terrain =>
          var terrain := new PerlinPass();
          pass := TerrainPass(terrain);
      }
      pipelines := pipelines + [pass];
    }

    /** `toggle_cursor_capture`: flip the capture flag; always handled. */
    method ToggleCursorCapture() returns (handled: bool)
      modifies state
      ensures state.cursorCaptured == Toggled(old(state.cursorCaptured))
      ensures state.size == old(state.size) && state.newTerrain == old(state.newTerrain)
      ensures handled
    {
      state.cursorCaptured := !state.cursorCaptured;
      handled := true;
    }

    /** `is_cursor_captured`. */
    method IsCursorCaptured() returns (captured: bool)
      ensures captured == state.cursorCaptured
    {
      captured := state.cursorCaptured;
    }
  }
}
