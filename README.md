# Terrain renderer core, modelled in Dafny

A model of the sequential logic of a wgpu/winit terrain renderer (Rust), with
proofs about it. Four pieces are modelled:

- **Terrain tessellation and regeneration** (`src/render/perlin.rs`,
  modules `TerrainMesh` and `Perlin`).
  - The heightmap is filled row by row from a noise function and normalised
    from [-1, 1] to [0, 1].
  - The `n x n` grid becomes a flat vertex list and one triangle strip that
    snakes across the rows. Rows are separated by the `u32::MAX`
    primitive-restart sentinel.
  - `PerlinPass` regenerates and uploads its buffers only when the shared
    `new_terrain` flag is set, and always clears the flag.
  - Index and vertex lists are specified in closed form, as `StripIndices(n)`
    and `GridVertices(h, n)`, for every grid size `2 <= n` that fits `u32`.
    The imperative loops are proved equal to them.
- **The legacy camera controller** (`src/camera.rs`, module `LegacyCamera`).
  - Held keys set per-axis amounts, mouse motion replaces the pending
    rotation, and the scroll wheel is normalised.
  - `update_camera` moves and turns a `Camera` and clamps its pitch to
    `±(pi/2 - 0.0001)`.
  - `Projection::resize` sets the aspect ratio.
  - Each class method is proved against a pure transition function. The
    properties are lemmas about those functions.
- **The live camera** (`src/render/camera.rs`, module `RenderCamera`).
  - Key presses accumulate in `movement`, and mouse motion replaces
    `rotation`.
  - `update` turns the camera, clamps the pitch to the inclusive range
    `[-pi/2, pi/2]`, moves the eye in the front/right basis and clears the
    input.
  - `resize` sets the aspect ratio.
- **The frame orchestrator** (`src/context.rs`, modules `SharedState` and
  `Orchestrator`). It holds the shared `ContextState` (size, `new_terrain`,
  `cursor_captured`), the live camera and the ordered list of render passes.
  - `resize` caps the size to 1280 x 720 and applies it only when both sides
    are positive.
  - `input` offers a pressed key to the camera, then the event to every pass
    without short-circuiting.
  - `update` runs the camera, then every pass in registration order.
  - `add_render_pass` appends a pass.
  - Cursor capture is a flag that a toggle flips.

Module `Vectors` holds the small amount of vector algebra the cameras need,
over `real`. Module `Input` holds the window events and key codes the model
routes.

Modelling choices:

- `f32` values are `real` and `u32` values are `nat`.
- Sine, cosine and vector normalisation are parameters: a `Numerics` value
  of three functions.
- The fractal noise is a parameter `noise: (real, real) -> real`.
- Each GPU buffer is a sequence of the length it was created with. A
  `queue.write_buffer` at offset 0 overwrites its prefix, and a ghost
  `uploads` log records the writes.
- The three render passes are the cases of a datatype `Pass`. The terrain
  case carries its `PerlinPass` object.

## Model

| member | source | states |
|---|---|---|
| `Vectors.Clamp` | src/camera.rs:219 | the result lies in `[lo, hi]`; it is `x` when `x` is inside, `lo` below, `hi` above |
| `TerrainMesh.NormalizeSample` | src/render/perlin.rs:32 | a sample in `[-1, 1]` maps into `[0, 1]`, and `2h - 1` gives the sample back |
| `TerrainMesh.HeightmapAt` | src/render/perlin.rs:25-35 | the heightmap has `n * n` entries and entry `z * n + x` is the normalised noise at column `x`, row `z` |
| `TerrainMesh.HeightmapInUnitRange` | src/render/perlin.rs:28-33 | with noise in `[-1, 1]`, every height lies in `[0, 1]` |
| `TerrainMesh.Flatten` | src/render/perlin.rs:42-50 | flattening `m` points gives `3m` numbers |
| `TerrainMesh.FlattenAt` | src/render/perlin.rs:46-48 | point `k`'s x, y, z sit at positions `3k`, `3k + 1`, `3k + 2` |
| `TerrainMesh.GridPointAt` | src/render/perlin.rs:45-48 | grid point `(i, j)` is `(i - n/2, h * SCALE - SHIFT, j - n/2)` |
| `TerrainMesh.GridVerticesLength` | src/render/perlin.rs:42 | the vertex list has `3 n^2` entries, the vertex buffer's length |
| `TerrainMesh.GridVertexAt` | src/render/perlin.rs:43-49 | entries `3k .. 3k + 2` for `k = i n + j` are the centred row, the scaled and shifted height, and the centred column |
| `TerrainMesh.StripIndicesLength` | src/render/perlin.rs:52 | the index list has exactly `2n(n - 1) + (n - 2)` entries, which is the preallocated capacity, the index buffer's length and the draw count |
| `TerrainMesh.StripIndicesEvenRow` | src/render/perlin.rs:54-61 | in an even row, step `j` emits `(i + 1) n + j`, then `i n + j` |
| `TerrainMesh.StripIndicesOddRow` | src/render/perlin.rs:62-70 | in an odd row, columns descend, and column `j` emits `i n + j`, then `(i + 1) n + j` |
| `TerrainMesh.StripIndicesRowEnd` | src/render/perlin.rs:72-75 | every row before row `n - 2` ends with the restart sentinel |
| `TerrainMesh.StripIndicesBound` | src/render/perlin.rs:53-70 | every index other than the sentinel is below `n * n`, so it names an existing vertex |
| `TerrainMesh.StripIndicesSentinelAt` | src/render/perlin.rs:72-75 | an entry is the sentinel exactly when it closes row `i < n - 2`; the last entry is not one |
| `TerrainMesh.SentinelOnlyAtRowEnd` | src/render/perlin.rs:72-75 | a sentinel occurs only at the end of a row before row `n - 2` |
| `TerrainMesh.LastIsNotSentinel` | src/render/perlin.rs:73-75 | no sentinel follows the last row |
| `TerrainMesh.RowHasNoSentinel` | src/render/perlin.rs:53-70 | the `2n` entries of a row's strip contain no sentinel |
| `TerrainMesh.StripIndicesSentinelCount` | src/render/perlin.rs:72-75 | the index list holds exactly `n - 2` sentinels |
| `TerrainMesh.RowStartIsProduct` | src/render/perlin.rs:53-75 | row `i`'s strip begins at offset `i (2n + 1)` |
| `Perlin.SizeIsValid` | src/render/perlin.rs:10 | the grid size 512 is at least 2 and its square fits `u32` |
| `Perlin.GenerateHeightmap` | src/render/perlin.rs:18-38 | the nested row/column loops fill exactly the heightmap `Heightmap(n, noise)` |
| `Perlin.HeightAtCell` | src/render/perlin.rs:28-33 | cell `(z, x)` holds `(noise(x * 10 / n, z * 10 / n) + 1) / 2` |
| `Perlin.GenerateVertices` | src/render/perlin.rs:42-50 | the vertex loops produce exactly `GridVertices(h, n)` |
| `Perlin.PushRowVertices` | src/render/perlin.rs:44-49 | one inner pass appends row `i`'s three numbers per point, extending the flattened prefix by one row |
| `Perlin.GenerateIndices` | src/render/perlin.rs:52-76 | the index loops produce exactly `StripIndices(n)` |
| `Perlin.PushEvenRow` | src/render/perlin.rs:54-61 | an even row's pairs extend a prefix of the strip by `2n` entries |
| `Perlin.PushOddRow` | src/render/perlin.rs:62-70 | an odd row's pairs, columns descending, extend a prefix of the strip by `2n` entries |
| `Perlin.Tessellation` | src/render/perlin.rs:40-79 | returns exactly `GridVertices(h, n)` and `StripIndices(n)` |
| `Perlin.WriteAtStart` | src/render/perlin.rs:98-107 | a write at offset 0 replaces the buffer's prefix with the data and keeps its length and the rest |
| `Perlin.PerlinPass.constructor` | src/render/perlin.rs:112-190 | buffers sized for a 512 grid, zero-filled, and a terrain requested |
| `Perlin.PerlinPass.Input` | src/render/perlin.rs:89-91 | the terrain pass handles no event |
| `Perlin.PerlinPass.Update` | src/render/perlin.rs:93-110 | the pass copies the incoming flag and always clears the shared flag; with the flag set, both buffers hold the regenerated terrain and exactly two uploads (indices, then vertices) are logged; otherwise nothing changes or is uploaded |
| `Perlin.PerlinPass.Render` | src/render/perlin.rs:192-202 | the draw count equals the index list's and the index buffer's length |
| `SharedState.ContextState.constructor` | src/context.rs:9-13 | the shared state holds the given size and flags |
| `LegacyCamera.Camera.constructor` | src/camera.rs:26-36 | the camera starts at the given position, yaw and pitch |
| `LegacyCamera.Projection.constructor` | src/camera.rs:58-65 | the projection holds the given parameters |
| `LegacyCamera.Projection.Resize` | src/camera.rs:67-69 | aspect becomes `width / height` (so `aspect * height == width`); fovy, znear and zfar are unchanged |
| `LegacyCamera.KeyAmount` | src/camera.rs:109-113 | a press sets the amount 1, a release 0 |
| `LegacyCamera.WithAmount` | src/camera.rs:114-138 | only the chosen axis's amount changes |
| `LegacyCamera.ConsumedSpec` | src/camera.rs:210-223 | a frame zeroes the scroll and both rotations and keeps every amount, the speed and the sensitivity; a second frame with no input between changes nothing |
| `LegacyCamera.KeyboardStepSpec` | src/camera.rs:108-141 | a key is handled iff it is bound; a bound key sets its axis to the press amount and leaves the other axes alone; an unbound key changes nothing |
| `LegacyCamera.Bindings` | src/camera.rs:114-139 | W/ArrowUp forward, S/ArrowDown backward, A/ArrowLeft left, D/ArrowRight right, Space up, ShiftLeft down, every other key unbound |
| `LegacyCamera.KeyboardIdempotent` | src/camera.rs:108-141 | repeating a key event changes nothing more |
| `LegacyCamera.MouseLastWins` | src/camera.rs:143-146 | of two mouse motions only the last counts |
| `LegacyCamera.ScrollAmountSpec` | src/camera.rs:148-154 | a line delta scrolls `-100` times its lines and a pixel delta scrolls minus its pixels, so an upward wheel scrolls negatively |
| `LegacyCamera.AmountsStayBinary` | src/camera.rs:92-141 | from `new`, every amount stays 0 or 1 under any sequence of key, mouse, wheel and frame events |
| `LegacyCamera.RunKeepsBinary` | src/camera.rs:108-141 | binary amounts stay binary under any event sequence |
| `LegacyCamera.StrafeAsWrittenNotSquare` | src/camera.rs:174-179 | the written strafe vector's dot product with the heading is `-2 cos(pitch) sin(yaw) cos(yaw)`; at yaw `pi/4` and level pitch it points straight backwards |
| `LegacyCamera.Strafe` | src/camera.rs:171-179 | the corrected strafe vector has no vertical part (its squareness to the heading is `StrafeSquareToHeading`) |
| `LegacyCamera.StrafeSquareToHeading` | src/camera.rs:171-179 | the corrected strafe vector is square to the heading at every angle, and the heading crossed with the world up is it scaled by `cos pitch` |
| `LegacyCamera.TurnedPitch` | src/camera.rs:216-219 | the new pitch is the old one turned by `-rotate_vertical * sensitivity * dt`, clamped to `[-SAFE_FRAC_PI_2, SAFE_FRAC_PI_2]`, with each case of the clamp spelled out |
| `LegacyCamera.UpAsWrittenInverted` | src/camera.rs:171-182 | the local up axis `right x forward` before normalising, for the written and for the corrected strafe vector: their vertical parts are `cos(pitch)(sin^2 yaw - cos^2 yaw)` and `cos(pitch)(cos^2 yaw + sin^2 yaw)`; at yaw 0 and level pitch the written one is `(0, -1, 0)` and the corrected one `(0, 1, 0)` |
| `LegacyCamera.CameraStepPitchBounded` | src/camera.rs:216-219 | after any frame, as written or corrected, the pitch lies strictly between `-pi/2` and `pi/2` |
| `LegacyCamera.StepsAgreeWithoutSideKeys` | src/camera.rs:171-212 | with the left, right, up and down keys released the frame as written and the corrected frame give the same pose, so the strafe vector is the only difference |
| `LegacyCamera.SameFrontSameStep` | src/camera.rs:185-224 | a frame without side or vertical keys depends on the basis only through its forward axis |
| `LegacyCamera.TravelAtRest` | src/camera.rs:185-205 | with no key held the travel direction is zero |
| `LegacyCamera.MovedAtRest` | src/camera.rs:185-212 | with no key held and no scroll the position is unchanged |
| `LegacyCamera.OppositeKeysCancel` | src/camera.rs:188-205 | forward and backward held together cancel |
| `LegacyCamera.MovedForwardOnly` | src/camera.rs:185-212 | holding only forward moves `speed * dt` along the normalised front axis |
| `LegacyCamera.CameraStepAtRest` | src/camera.rs:156-224 | a frame with no key held and no scroll leaves the position unchanged, as written and corrected |
| `LegacyCamera.CameraController.constructor` | src/camera.rs:92-106 | every amount, rotation and the scroll start at 0; the amounts are binary |
| `LegacyCamera.CameraController.ProcessKeyboard` | src/camera.rs:108-141 | the fields and the result are those of `KeyboardStep`; binary amounts stay binary |
| `LegacyCamera.CameraController.ProcessMouse` | src/camera.rs:143-146 | the rotation is replaced by the motion |
| `LegacyCamera.CameraController.ProcessScroll` | src/camera.rs:148-154 | only the scroll changes, to `ScrollAmount(delta)` |
| `LegacyCamera.CameraController.TravelDirection` | src/camera.rs:185-205 | the guarded sums and the normalisation give `Travel` |
| `LegacyCamera.CameraController.UpdateCamera` | src/camera.rs:156-224 | the camera's new pose is `CameraStepAsWritten` of the old pose and controller, built on the strafe vector `(-sin yaw, 0, -cos yaw)` as the code computes it; the controller becomes `Consumed` of its old state |
| `RenderCamera.NewCamera` | src/render/camera.rs:95-110 | eye `(0, 10, 0)`, yaw `-pi/2`, pitch 0, aspect `width / height`, fovy `pi/4`, znear 0.1, zfar 100000, speed 8, sensitivity 1, no movement or rotation |
| `RenderCamera.ResizeStep` | src/render/camera.rs:140-142 | `aspect * height == width` and nothing else changes |
| `RenderCamera.Pitched` | src/render/camera.rs:176-177 | the pitch turned by `-rotation.y * sensitivity * dt`, clamped to the inclusive `[-pi/2, pi/2]` |
| `RenderCamera.KeyStepSpec` | src/render/camera.rs:145-165 | handled iff W, S, A or D; each adds 1 to its own movement component; nothing else changes |
| `RenderCamera.KeyRunCounts` | src/render/camera.rs:145-162 | after any key sequence each movement component has grown by the number of presses of its key |
| `RenderCamera.MouseLastWins` | src/render/camera.rs:168-170 | a motion replaces the rotation, so the last one wins |
| `RenderCamera.UpdateStepSpec` | src/render/camera.rs:173-185 | yaw grows by `rotation.x * sensitivity * dt`; pitch stays in `[-pi/2, pi/2]`; movement and rotation are cleared; projection, speed and sensitivity are kept |
| `RenderCamera.UpdateKeepsAspect` | src/render/camera.rs:173-185 | a frame keeps the aspect ratio |
| `RenderCamera.DisplacementFormula` | src/render/camera.rs:178-183 | the eye moves `front * v * (W - S) + right * v * (D - A)` with `v = speed * dt` |
| `RenderCamera.OppositePressesCancel` | src/render/camera.rs:178-183 | equal presses of opposite keys leave the eye in place |
| `RenderCamera.UpdateAtRest` | src/render/camera.rs:178-183 | with no movement the eye stays put |
| `RenderCamera.UpdateStill` | src/render/camera.rs:175-177 | with no rotation and an in-range pitch the angles stay put |
| `RenderCamera.UpdateIdempotent` | src/render/camera.rs:173-185 | a second frame with no input in between changes nothing |
| `RenderCamera.Camera.constructor` | src/render/camera.rs:95-110 | the fields are `NewCamera(width, height)` |
| `RenderCamera.Camera.Resize` | src/render/camera.rs:140-142 | the fields become `ResizeStep` of the old ones |
| `RenderCamera.Camera.ProcessKey` | src/render/camera.rs:145-165 | fields and result are `KeyStep` of the old fields |
| `RenderCamera.Camera.ProcessMouse` | src/render/camera.rs:168-170 | the fields become `MouseStep` of the old ones |
| `RenderCamera.Camera.TurnBy` | src/render/camera.rs:175-177 | the yaw turns by `rotation.x * sensitivity * dt`, the pitch becomes `Pitched` of the old one, and no other field changes |
| `RenderCamera.Camera.Update` | src/render/camera.rs:173-185 | the fields become `UpdateStep` of the old ones |
| `Orchestrator.InitialSize` | src/context.rs:48-50 | both sides of the stored size are at least 1 and equal the window's where it is positive |
| `Orchestrator.CappedSize` | src/context.rs:125-131 | the requested size, or the current one for `None`, with width capped at 1280 and height at 720 |
| `Orchestrator.ResizedSize` | src/context.rs:124-141 | the capped size is stored when both sides are positive, the current one otherwise; positive sides stay positive |
| `Orchestrator.ResizeRunPositive` | src/context.rs:47-141 | from the size `new` stores, both sides stay at least 1 over any sequence of resizes |
| `Orchestrator.ResizeRunKeepsPositive` | src/context.rs:132-139 | positive sides stay positive over any sequence of resizes |
| `Orchestrator.ResizeNoneIdempotent` | src/context.rs:125-139 | resizing to `None` keeps a size that already fits the cap |
| `Orchestrator.InputHandled` | src/context.rs:143-160 | the event is handled iff it is a press of W, S, A or D with a physical code, since no pass handles an event |
| `Orchestrator.InputCamera` | src/context.rs:144-155 | only a pressed key with a physical code changes the camera, and only its movement |
| `Orchestrator.OnlyPressesReachCamera` | src/context.rs:144-155 | any other event leaves the camera unchanged and is not handled |
| `Orchestrator.RequestRegeneratesFirstTerrainOnly` | src/context.rs:162-167 | in a frame some pass regenerates its terrain if and only if the request is set and the list holds a terrain pass, and no two positions regenerate: only the first terrain pass does |
| `Orchestrator.Toggled` | src/context.rs:223-224 | toggling changes the capture flag |
| `Orchestrator.ToggleTwice` | src/context.rs:223-242 | two toggles restore the original capture flag |
| `Orchestrator.Context.constructor` | src/context.rs:47-117 | stored size `InitialSize` of the window, terrain requested, cursor free, no passes, camera `NewCamera` of the stored size |
| `Orchestrator.Context.Resize` | src/context.rs:124-141 | the stored size becomes `ResizedSize`; the camera is resized to it exactly when it applies; the flags are unchanged |
| `Orchestrator.Context.PassInput` | src/context.rs:156-158 | no pass handles an event |
| `Orchestrator.Context.Input` | src/context.rs:143-160 | result `InputHandled`, camera `InputCamera`; the loop visits every pass index in order with no short-circuit, and no pass handles the event |
| `Orchestrator.Context.Update` | src/context.rs:162-167 | the camera takes one `UpdateStep`. Then every pass runs in order, and a pending terrain request reaches exactly the first terrain pass. That pass regenerates its buffers, and every other terrain pass keeps its buffers. The request stays pending only if there is no terrain pass |
| `Orchestrator.Context.UpdateCamera` | src/context.rs:163 | the camera takes one `UpdateStep` and the context stays consistent |
| `Orchestrator.Context.UpdatePasses` | src/context.rs:164-166 | the pass loop, as for `Update` |
| `Orchestrator.Context.UpdateTerrainAt` | src/context.rs:165 | one terrain pass's update changes only that pass and the shared state |
| `Orchestrator.Context.AddRenderPass` | src/context.rs:214-217 | the new pass of the requested kind is appended after the existing ones, which are kept in order; a new terrain pass is fresh and in the state `PerlinPass::new` gives it: size 512, zero-filled buffers, terrain requested, nothing uploaded |
| `Orchestrator.Context.ToggleCursorCapture` | src/context.rs:223-242 | the capture flag flips, the rest of the state is kept, and the call reports handled |
| `Orchestrator.Context.IsCursorCaptured` | src/context.rs:244-246 | returns the capture flag |

## Left out

- GPU and window plumbing is not modelled: device, surface, adapter, pipelines, bind groups, depth textures, render-pass encoding, `present`. Buffers are sequences, and an upload is a ghost log entry.
- `calc_matrix`, `perspective`, `update_uniform`, `OPENGL_TO_WGPU_MATRIX` and the uniform upload of both cameras are not modelled. They are floating-point matrix work.
- Sine, cosine and `normalize` are parameters of type `Numerics`, so nothing is proved about unit lengths. `Vectors.Cross` is exact over `real`.
- The fractal noise (`Fbm<Perlin>`) and its random seed are not modelled; the noise is a parameter. The `f64` to `f32` narrowing of samples is not modelled either.
- `f32` rounding, infinities and NaN are not modelled. Angles, positions and amounts are `real`.
- `LegacyCamera.Projection.Resize`, `RenderCamera.ResizeStep`, `RenderCamera.NewCamera` and `RenderCamera.Camera.Resize` require a positive height. In the source a zero height makes the aspect ratio infinite, or NaN when the width is 0 too. The context only ever passes heights of at least 1.
- `Perlin.Tessellation` requires `2 <= n` and `n * n <= u32::MAX`. Below that the source's `SIZE - 2` underflows, and above it the `as u32` casts wrap. The source's grid size of 512 meets both bounds (`Perlin.SizeIsValid`).
- The `Renderable` trait becomes the datatype `Orchestrator.Pass`. Its cases are `SkyPass`, `WaterPass` and `TerrainPass`. The sky and water passes handle no input and have no update (`src/render/sky.rs`, `src/render/water.rs`), so their geometry and pipeline setup are not part of this model. `render` is not modelled beyond the terrain pass's draw count.
- `src/lib.rs`, the event loop, canvas lookup and logging are not part of this model. Pass registration there, sky then terrain, is a pair of `AddRenderPass` calls.
- `toggle_cursor_capture` only flips the flag in this model. Cursor grab mode and visibility are platform calls and are not modelled.
- The `Duration` argument of both updates is a `real` number of seconds.
- The legacy `src/camera.rs` is not declared as a module of the crate. `UpdateCamera` is modelled as written, strafe vector included; the corrected frame `CameraStep` sits beside it (see Findings).
- Both cameras follow the code's pitch bounds. The legacy controller clamps to `±(pi/2 - 0.0001)`, so its pitch stays strictly inside a right angle. The live camera clamps to the inclusive `[-FRAC_PI_2, FRAC_PI_2]` (src/render/camera.rs:177), so its pitch can reach a right angle exactly, while the legacy one clamps to `SAFE_FRAC_PI_2` (src/camera.rs:16, 219) and never does.

## Findings

| source | as written | input that shows it | evidently intended | confidence | as-written member | corrected member |
|---|---|---|---|---|---|---|
| src/camera.rs:174-182 | the strafe vector is `(-sin yaw, 0, -cos yaw)`, which is square to the heading only when `sin(2 yaw) = 0`; the up axis `right x forward` built on it is inverted or tilted too | yaw `pi/4`, pitch 0: the heading is `(c, 0, c)` and the strafe vector `(-c, 0, -c)`, so strafing right walks backwards; yaw 0, pitch 0: the up axis is `(0, -1, 0)`, so the up key moves the camera down | `(-sin yaw, 0, cos yaw)`, the heading crossed with world up as the comment says (and as the live camera computes it) | high, not executed | `LegacyCamera.StrafeAsWrittenNotSquare`, `LegacyCamera.UpAsWrittenInverted` | `LegacyCamera.StrafeSquareToHeading` |
