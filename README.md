# spout2-dx-prototype in Dafny

A model of the core of a small Direct3D 11 renderer written in Rust. It
draws animated image items into an off-screen render target and publishes
that texture to other processes through a Spout2 sender, holding 30
frames a second.

The model covers:

- `ComPtr<T>` (src/com.rs), the hand-written reference-counted handle.
  The native reference counts live in `Com.Runtime`. A ghost ledger says
  who holds each reference: a live handle, or a raw pointer outside any
  handle. The ledger is *balanced* when every count equals the number of
  references held. Every operation keeps it balanced.
- The GPU buffers of src/dx/buffer.rs (constant, index and vertex). Their
  descriptors are pure functions. Creation goes through a nondeterministic
  `CreateBuffer`. The map / write / unmap protocol is a method over the
  buffer's contents and the set of mapped buffers.
- The textures, render target and blend state of src/dx/texture.rs.
- The screen-space conversion and the per-item animation parameters of
  src/main.rs, over `real`.
- The construction of the rendering context, the one-time binding and
  the drawing of a frame in src/app.rs.
- `main`'s item loop and frame loop.

The native side is `Native.Gpu`:

- Every Direct3D call is a method that may fail nondeterministically.
  It creates an object in the runtime or changes a buffer's bytes.
- Every call is appended to `Gpu.log`, which stands for the device
  context.
- Ordering properties, such as "clear, then for each item update, upload,
  select the sampler, draw", are equalities between the log and a
  function that spells the expected calls out.
- The item layer (`ItemRenderContext`, `RenderItemDefinition`) and the
  Spout sender are collaborators whose code is not part of this model.
  Their operations are logged calls that may fail.

Panics that a debug build raises are errors of the model (`Hr.Error`):

- `ComPtr::new` on a null pointer;
- the 16-byte assertion of `ConstantBuffer::create`;
- the `u32` overflow of `width * 4`.

Behaviours of the code that the model keeps as written:

- A failing load, item creation, update or upload aborts `main` with the
  error; no item or asset is skipped.
- `upcast` reinterprets a borrowed pointer without `AddRef`, so the model
  treats it as a borrow.
- `main` loads its two items once, before the frame loop; no decoded
  image reaches the render loop after that.
- `SpoutSender::send_texture` hands the library a clone of the texture
  that is never released, so every frame leaks one reference to the
  render target's texture (`Com.Leaked`, `Program.RunFrames`).

## Model

| member | source | states |
|---|---|---|
| Com.New | src/com.rs:11-23 | a null pointer is refused with `NullPointer`; any other pointer is wrapped unchanged |
| Com.Dangling | src/com.rs:31-33 | the placeholder designates no object, so no runtime counts it as owned and neither `Drop` nor `Borrow` (which require ownership) can be applied to it |
| Com.Created | src/dx/buffer.rs:173-174 | a successful creation adds an object with count 1 whose one reference sits in the out-pointer |
| Com.Adopted | src/com.rs:18-23 | wrapping a pointer moves its reference from the raw pointer to a handle, count unchanged |
| Com.AddedRef | src/com.rs:84-92 | clone raises the count by one and adds one owner |
| Com.Released | src/com.rs:76-82 | drop lowers the count by one and removes one owner |
| Com.Forgotten | src/com.rs:113-119 | converting into `*mut T` moves the reference from the handle to the raw pointer, count unchanged |
| Com.CreatedBalanced | src/dx/buffer.rs:173-174 | creation keeps the ledger balanced |
| Com.AdoptedBalanced | src/com.rs:18-23 | adoption keeps the ledger balanced |
| Com.AddedRefBalanced | src/com.rs:84-92 | clone keeps the ledger balanced |
| Com.ReleasedBalanced | src/com.rs:76-82 | drop by an owner keeps the ledger balanced; an owner never finds a count of zero |
| Com.ForgottenBalanced | src/com.rs:113-119 | `mem::forget` conversion keeps the ledger balanced |
| Com.CloneThenDropIsNoOp | src/com.rs:76-92 | clone followed by dropping either copy leaves the ledger exactly as it was |
| Com.CreatedThenReleasedIsDestroyed | src/com.rs:76-82 | an object created, adopted and dropped ends with count 0, and every other reference is unchanged |
| Com.LastReleaseDestroys | src/com.rs:76-82 | no double release: when the last owner drops an object nothing else refers to, its count reaches 0 and no holder is left |
| Com.OwnedIsAlive | src/com.rs:100-111 | a handle that is still owned designates a live object (count above 0): no use after release |
| Com.Leaked | src/dx/buffer.rs:209-214 | k leaked clones (`clone`, then the clone converted into a raw pointer) raise the count and the raw references by k and leave the owners unchanged |
| Com.LeakedBalanced | src/dx/buffer.rs:209-214 | leaked clones keep the ledger balanced |
| Com.LeakedAgain | src/spout/mod.rs:60-66 | j leaks followed by k more are j + k leaks, so one leak per frame adds up over the frames |
| Com.Runtime.Allocate | src/dx/buffer.rs:173-174 | a fresh id never issued before, with the ledger of a creation |
| Com.Runtime.AllocateOwned | src/dx/texture.rs:49-51 | a windows-crate creation whose `Option` out-parameter already owns the new object |
| Com.Runtime.Adopt | src/com.rs:11-23 | `From<*mut T>`: the result is `New(p)`; a null pointer changes nothing, otherwise the handle takes over the reference |
| Com.Runtime.Clone | src/com.rs:84-92 | the copy is the same pointer, owned, and the count rises by exactly one |
| Com.Runtime.Drop | src/com.rs:76-82 | only an owner may drop; the count falls by exactly one |
| Com.Runtime.IntoRaw | src/com.rs:113-119 | returns the same address; no `Release`, so the count stays and the caller now holds the reference raw |
| Com.Runtime.QueryInterface | src/com.rs:35-46 | `Some` exactly when the out-pointer is non-null; the result is the queried object, wrapped without a further `AddRef` |
| Com.Runtime.Borrow | src/com.rs:48-69 | the accessors and `deref` reach the live object the handle designates and change no count |
| Screen.ToScreenSpace | src/main.rs:28-32 | the result is the point relative to the screen, scaled to [-1,1]: (x+1)·w = 2·px and (1-y)·h = 2·py, so y is flipped |
| Screen.ScreenSpaceRoundTrip | src/main.rs:28-32 | the conversion and its inverse undo each other in both directions |
| Screen.ScreenSpaceReferencePoints | src/main.rs:28-32 | (0,0) goes to (-1,1), the screen size to (1,-1), half the size to (0,0) |
| Screen.ScreenSpaceInRange | src/main.rs:28-32 | a point on the screen lands in [-1,1] x [-1,1] |
| Screen.ScreenSpaceMonotonic | src/main.rs:28-32 | x grows with the pixel x; y falls as the pixel y grows (both directions of each) |
| Screen.FractionToScreenSpace | src/main.rs:75-81 | a screen fraction scaled to pixels and converted is (2f.x-1, 1-2f.y) for every screen size |
| Screen.DeriveItemData | src/main.rs:68-86 | the normalised texture size times the screen size is the texture size; start (-1,1), end (0,0), spin 5000, duration 1000, the definition's scale, no elapsed time |
| Native.Gpu.CreateDeviceAndContext | src/dx/device.rs:13-35 | either nothing is created and the error is an empty out-parameter, or a device and a distinct context, both objects not seen before, each with count 1 and held by one handle |
| Native.Gpu.CreateBuffer | src/dx/buffer.rs:58-59 | the call is logged; on success a new buffer object holding the first `ByteWidth` bytes of the initial data |
| Native.Gpu.CreateTexture2D | src/dx/texture.rs:168-170 | the call is logged with its descriptor and initial data; on success a new texture object |
| Native.Gpu.CreateRenderTargetView | src/dx/texture.rs:53-54 | the call is logged; on success a new view object over that texture |
| Native.Gpu.CreateBlendState | src/dx/texture.rs:101-102 | the call is logged; on success a new blend state object |
| Native.Gpu.Map | src/dx/buffer.rs:95-101 | write-discard: on failure nothing changes; on success the buffer is mapped and its bytes are unspecified |
| Native.Gpu.Write | src/dx/buffer.rs:104-105 | a write through the mapped pointer replaces the buffer's bytes |
| Native.Gpu.Unmap | src/dx/buffer.rs:107 | the buffer is no longer mapped; its bytes stay |
| Buffer.AsU32 | src/dx/buffer.rs:44 | `as u32` keeps values below 2^32 and never enlarges |
| Buffer.FlattenLength | src/dx/buffer.rs:194-206 | `size_of_val` of a slice is element count times element size |
| Buffer.FlattenElement | src/dx/buffer.rs:194-206 | element k of the slice occupies bytes k*n to (k+1)*n |
| Buffer.CreationResult | src/dx/buffer.rs:58-65 | ok exactly when the call succeeded; a failing HRESULT is `CallFailed(hr)`, a null result is `NullPointer` |
| Buffer.CreateWrapped | src/dx/buffer.rs:58-65 | one `CreateBuffer` call with the descriptor; on failure no reference is held; on success a fresh owned buffer holding the data |
| Buffer.ConstantBufferDesc | src/dx/buffer.rs:43-50 | `ByteWidth` is `size_of::<T>()` as `u32`, dynamic usage, constant-buffer binding, CPU write |
| Buffer.CreateConstant | src/dx/buffer.rs:36-66 | a size not a multiple of 16 is refused before any call; otherwise one creation call whose failure is the error, and on success the buffer holds the initial value |
| Buffer.CreateDefaultConstant | src/dx/buffer.rs:29-34 | `create` with the default value |
| Buffer.MapWith | src/dx/buffer.rs:86-110 | a failing `Map` is the error, the action never runs and there is no `Unmap`; on success exactly Map, one write of the action's result, one Unmap; the buffer ends unmapped either way |
| Buffer.Replace | src/dx/buffer.rs:69-76 | after success the buffer holds exactly the new value; after failure it holds what it held |
| Buffer.BindConstant | src/dx/buffer.rs:78-82 | the buffer goes to vertex-shader slot 0 with no count change |
| Buffer.StaticBufferDesc | src/dx/buffer.rs:158-165 | the given width, default usage, the one bind flag, no CPU access |
| Buffer.CreateIndex | src/dx/buffer.rs:151-184 | one creation call; a failing HRESULT is the error and creates nothing; on success format and offset are as given |
| Buffer.CreateIndexFromArray | src/dx/buffer.rs:120-137 | `ByteWidth` is count times element size, the format passes through, offset 0, and the buffer holds the slice's bytes |
| Buffer.BindIndex | src/dx/buffer.rs:139-143 | the buffer with its format and offset, no count change |
| Buffer.UnbindIndex | src/dx/buffer.rs:145-149 | no buffer, unknown format, offset 0 |
| Buffer.CreateVertex | src/dx/buffer.rs:222-255 | one creation call; a failing HRESULT is the error and creates nothing; on success stride and offset are as given |
| Buffer.CreateVertexFromArray | src/dx/buffer.rs:194-207 | `ByteWidth` is count times element size, stride is the element size, offset 0, and the buffer holds the slice's bytes |
| Buffer.BindVertex | src/dx/buffer.rs:209-214 | as written: the clone's reference is forgotten into a raw pointer, so every bind leaves the count one higher |
| Buffer.LeakyBindsNeverFree | src/dx/buffer.rs:209-214 | after k > 0 binds the count exceeds the owners by at least k, so dropping every owner can never destroy the buffer |
| Buffer.BindVertexBorrowed | src/dx/buffer.rs:209-214 | as intended: the same call with the pointer borrowed, and the counts unchanged |
| Buffer.UnbindVertex | src/dx/buffer.rs:216-220 | zero vertex buffers |
| Texture.WindowsResult | src/dx/texture.rs:50-51 | ok exactly when the call succeeded; a failing HRESULT is `CallFailed(hr)`, an empty `Option` is `NothingReturned` |
| Texture.RenderTargetDesc | src/dx/texture.rs:32-47 | the given size, one mip and slice, BGRA8, one sample, render target plus shader resource, shared |
| Texture.CreateOwnedTexture | src/dx/texture.rs:49-51 | one `CreateTexture2D` with the descriptor; on success a fresh owned texture, on failure no reference held |
| Texture.CreateViewOrRelease | src/dx/texture.rs:53-55 | one view call over that texture; on failure the texture's reference is given back on the way out |
| Texture.CreateRenderTarget | src/dx/texture.rs:31-58 | the texture first; when it fails no view is asked for; the view is over that same texture; a failure carries the windows crate's error of the call that failed and leaves no reference held; success holds exactly the texture and the view |
| Texture.BindTarget | src/dx/texture.rs:60-64 | exactly one render target, this view; the temporary clone is dropped, so counts are unchanged |
| Texture.UnbindTarget | src/dx/texture.rs:66-70 | no render target |
| Texture.ClearTarget | src/dx/texture.rs:72-76 | clears this view with the colour |
| Texture.AlphaBlendTarget | src/dx/texture.rs:89-98 | blending on; colour SrcAlpha/InvSrcAlpha added; alpha One/Zero added; full write mask |
| Texture.AlphaBlendDesc | src/dx/texture.rs:86-99 | no alpha-to-coverage, no independent blending, 8 identical render-target entries |
| Texture.CreateAlphaBlendState | src/dx/texture.rs:85-105 | one creation call with that description; its failure or an empty result is the error |
| Texture.BindBlendState | src/dx/texture.rs:107-114 | this state, a zero blend factor, sample mask 0xffffffff |
| Texture.ImageTextureDesc | src/dx/texture.rs:146-160 | the image's size, one mip and slice, RGBA8, one sample, shader resource only |
| Texture.RowPitch | src/dx/texture.rs:162-166 | `width * 4` when it fits in `u32`, otherwise `Overflow` |
| Texture.RowsCoverImage | src/dx/texture.rs:162-166 | with that pitch, the rows of an RGBA8 image cover its bytes exactly |
| Texture.CreateFromData | src/dx/texture.rs:140-173 | one `CreateTexture2D` with the image descriptor and the pixels at pitch `width * 4`; an empty result is an error |
| Texture.LoadFromPath | src/dx/texture.rs:125-138 | an image that cannot be decoded is `DecodeFailed` and a width whose row pitch overflows is `Overflow`, both before any call; otherwise exactly one texture creation from the RGBA8 pixels with row pitch 4·width; it fails exactly when that call fails, with its error, and on success the texture has the image's size and one owned reference |
| Item.CreateItemContext | src/app.rs:32 | one logged call; its failure is `ItemFailed` |
| Item.PrepareRender | src/app.rs:83 | one logged call, nothing else changes |
| Item.BindConstants | src/app.rs:86 | one logged call, nothing else changes |
| Item.Update | src/app.rs:101 | one logged call that may fail; the item keeps its texture and flag |
| Item.SetCurrentData | src/app.rs:104 | uploads exactly the given data; may fail |
| Item.SetSampler | src/app.rs:107 | selects the sampler by the flag |
| Item.Draw | src/app.rs:110 | one logged draw of that item |
| Item.CreateRenderItem | src/main.rs:88 | on success the item holds the texture, the data and the definition's flag; on failure the texture is dropped |
| App.BindViewport | src/dx/device.rs:55-59 | exactly that one viewport |
| App.NewViewport | src/dx/device.rs:42-53 | the viewport covers exactly the pixels from (0,0) to the given size, with the given depth range |
| App.CreateWorld | src/app.rs:51-63 | viewport over the whole screen with depths 0 to 1, then the blend state; a failure returns the windows crate's error of that call |
| App.FailFastStopsAtFailure | src/app.rs:28-41 | in a construction, a failing step is the last call made and the construction fails |
| App.FailFastLength | src/app.rs:28-41 | at most one call per step; a successful construction makes exactly its five calls |
| App.RenderTargetSteps | src/app.rs:30 | the render target's calls are steps 1 and 2: both succeeded, or the construction stopped at the failing one |
| App.HeldUnwinding | src/app.rs:34-40 | the context holds exactly one reference to each of its five objects |
| App.Release | src/com.rs:76-82 | dropping one handle on an early return releases one reference of its object and nothing else |
| App.DropHandles | src/app.rs:29-32 | an early return drops every handle made so far, leaving held only what was held before |
| App.CreateTargetStep | src/app.rs:30 | the render target step: on failure the earlier handles are dropped and the failing call's error is returned; on success the texture and view join them |
| App.CreateAfterWorld | src/app.rs:32 | the item context step: on failure every earlier handle is dropped and the item layer's error is returned |
| App.CreateAfterTarget | src/app.rs:31-32 | the world then the item context, stopping at the first failure, returning its call's error and dropping what was made |
| App.CreateAfterDevice | src/app.rs:30-32 | render target, world, item context in order, stopping at the first failure, whose call's error is returned |
| App.CreateRenderContext | src/app.rs:28-41 | device/context, render target of the screen size, world, item context, in that order, stopping at the first failure; on failure the error is that of the failing call (`StepError`) and nothing stays held; on success one reference to each of the five objects |
| App.SetupRenderWorld | src/app.rs:68-87 | exactly render target, viewport, blend state, prepare, bind constants, in order; no count changes |
| App.FrameCallsLength | src/app.rs:99-111 | four calls per item |
| App.FrameCallsSnoc | src/app.rs:99-111 | handling one more item appends exactly its four calls |
| App.FrameCallsItem | src/app.rs:99-111 | item k's calls are the four at 4k: update, upload its data, its sampler, draw; items in list order |
| App.FrameCallsSucceed | src/app.rs:99-111 | every call of a completed item loop succeeded |
| App.ItemFailureStops | src/app.rs:101-104 | a failing update, or a failing upload after an update, is where the item stops |
| App.RenderItemAt | src/app.rs:100-110 | the four steps for one item; a failing update or upload ends it there; the item keeps its texture and flag |
| App.RenderNext | src/app.rs:99-111 | one turn of the loop changes only the item it handles |
| App.Render | src/app.rs:89-114 | clear to transparent black first, then the four steps per item in order; the first failing item is the error and later items are untouched; no item gains or loses its texture or flag |
| Program.CreateSender | src/main.rs:37-39 | one logged sender setup that may fail |
| Program.OpenDirectX11 | src/main.rs:43-44 | hands the owned device to the sender, no count change |
| Program.SendTexture | src/spout/mod.rs:60-66 | one logged send of that texture; the wrapper clones the texture and hands the clone away, so the texture's count and raw references rise by one and are never released |
| Program.HoldFps | src/main.rs:99 | holds the given frame rate; may fail |
| Program.CreateItemAt | src/main.rs:67-88 | load the image, derive the data from the texture size, make the item: on success exactly the texture creation then the item creation, both succeeded; on failure the calls up to and including the failing one (none for an undecodable image or an overflowing width) with that failure's error, and nothing new held |
| Program.AppendItem | src/main.rs:66-90 | one turn of the item loop: the new item's calls follow the earlier items' calls; on success the list grows by the item made from the next definition and image; on failure the log ends with that failure |
| Program.CreateItems | src/main.rs:59-91 | the log gains two calls per item made, in definition order; on success one item per definition, each made from its image, holding one reference per texture; on failure the items before it were made, then the failing item's calls and its error, and no later definition is loaded |
| Program.ItemsMadeLength | src/main.rs:66-90 | n items made take exactly 2n calls |
| Program.ItemsMadeAt | src/main.rs:66-90 | item i's calls are the two at 2i: its texture creation from image i, then its item creation |
| Program.Publish | src/main.rs:98-99 | send then hold; on success exactly those two calls; on failure `[send failed]` or `[send ok, hold failed]`, which stops the turn with the sender's error; either way the send leaks one reference of the texture |
| Program.PublishFailureStops | src/main.rs:98-99 | both failure shapes of the publishing step end at their failing call |
| Program.DrawFailure | src/main.rs:96 | a frame whose drawing failed stopped at that failure, and the error is the item layer's |
| Program.DrawnThenFailed | src/main.rs:96 | a turn whose drawing failed at an item is a failed turn that stops there with the item layer's error |
| Program.PublishFrame | src/main.rs:98-99 | after a complete drawing: on success the frame is complete; on failure a failed turn with the sender's error; one leaked reference either way |
| Program.FailedTurnStops | src/main.rs:96-99 | every failed turn stops at its failing call; the error is the item layer's when an item failed and the sender's otherwise |
| Program.RunFrame | src/main.rs:96-99 | a turn is render, send, hold: on success the whole frame; on failure the clear and the calls of the items before the failure then the failing item's calls, or the whole drawing then a failed send or a failed hold; the calls stop there with the matching error; the texture leaks one reference exactly when the send was reached |
| Program.FrameSucceeds | src/main.rs:95-100 | every call of a completed frame succeeded |
| Program.FrameLength | src/main.rs:95-100 | a frame of n items is 4n+3 calls |
| Program.FramesAppend | src/main.rs:95-100 | the frames of two histories are the frames of the two together |
| Program.FramesLength | src/main.rs:95-100 | k frames of n items are k(4n+3) calls |
| Program.FramesAt | src/main.rs:95-100 | frame f starts at call f(4n+3); each frame finishes before the next starts |
| Program.NextFrame | src/main.rs:95-100 | one more turn of the frame loop: a completed frame extends the history by one frame and one leak; a failed turn follows the completed frames |
| Program.RunFrames | src/main.rs:95-100 | the completed frames in order, each with the same items; on success `frames` of them; otherwise the first failed turn follows them with its error; the texture leaks one reference per send |
| Program.HandDevice | src/main.rs:43-44 | the clone of the device stays with `main`; the context's own device is handed to the sender with one logged call |
| Program.StartContext | src/main.rs:41-44 | the context for 1920 x 1080, then the device to the sender; a failed construction makes no sender call; on success the context's objects and the device clone are held |
| Program.Start | src/main.rs:35-44 | sender setup, then the context for 1920 x 1080, then the device to the sender; on failure the log holds exactly the calls up to and including the first failing one, with its error |
| Program.Present | src/main.rs:93-100 | the one-time binding of the world, then the frames, as `Presented` states them |
| Program.Serve | src/main.rs:59-100 | after the items' calls, either the failing item's calls end the log with its error, with no binding and no frame; or the binding once, then the frames, each with the items made from the definitions, ending as the frame loop ends |
| Program.Run | src/main.rs:34-101 | a failed start ends `main` with the calls up to its failure; otherwise sender setup, context, device hand-over, then the items, the binding and the frames as `Serve` states; success means a built context and `frames` complete frames |

## Left out

- `ComPtr::new_unchecked` (src/com.rs:25-29) is not modelled. On a null pointer it is undefined behaviour, not an error.
- The `fmt::Pointer` implementation (src/com.rs:94-98) is not modelled; it only formats output.
- The interface type `T` of `ComPtr<T>` is not modelled. It plays no part in reference counting, so `upcast` is a borrow like the other accessors.
- The Spout sender wrapper (src/spout/mod.rs) calls the C++ Spout library, whose code is not part of this model. Each wrapper call is one logged operation. `create`, `set_sender_name("VTFTK")` and `set_sender_format` together are one `CreateSender` call.
- Program.OpenDirectX11, Program.SendTexture and Program.HoldFps: the wrapper discards the library's results and always returns `Ok`. The model lets each call fail, so it admits failing runs that the code cannot produce. Every successful run of the code is still described exactly.
- Program.CreateSender: the model lets it fail for any reason. In the code only a null library handle (src/spout/mod.rs:25-27) or a sender name with an interior NUL makes it fail.
- Program.OpenDirectX11: the sender is modelled as borrowing the device. What the Spout library does with the pointer it is given is not modelled.
- Image decoding (`image::open`, `to_rgba8`) is foreign. Its outcome is the `decoded` parameter: an RGBA8 image, or `None` for a file that cannot be read or decoded.
- src/texture_loader.rs (asynchronous decoding) is not part of this model.
- src/dx/shader.rs and src/dx/sampler.rs are not part of this model. The item layer that uses them is uninterpreted.
- The item layer (`ItemRenderContext`, `ItemDefinition::create_render_item`, `RenderItemDefinition::update` and `render`) is not part of this model; src/item.rs holds an unrelated struct. Each of its operations is a logged call that may fail.
- Item.Update: the new animation data is left unconstrained, because the interpolation happens in code that is not part of this model.
- src/dx/mod.rs (`leak_copy_com`) is not part of this model.
- Native.Gpu.CreateDeviceAndContext: a failure is always reported as `NothingReturned`. The model does not tell a failing HRESULT from an empty out-parameter.
- Native.Gpu.CreateTexture2D: the pixels of a texture are not kept as object contents. The initial data is kept only in the logged call.
- `f32` arithmetic is modelled as exact `real` arithmetic: no rounding, infinities or NaN.
- Screen.ToScreenSpace: requires a non-zero screen size. In `f32`, a zero component gives infinities or NaN, which `real` cannot represent.
- Buffer.MapWith: the action is a function from the discarded bytes to the bytes written. Writes through the raw pointer beyond the mapped region are not modelled.
- Buffer.CreateConstant: models the debug build, where the 16-byte `debug_assert!` panics, as the error `Misaligned`. A release build skips the assertion.
- Texture.RowPitch: models the debug build, where `width * 4` overflowing `u32` panics, as the error `Overflow`. A release build wraps.
- Buffer.CreateIndex and Buffer.CreateVertex: the raw data pointer is a byte sequence at least `size` bytes long, which the unsafe functions demand of their callers.
- `main`'s endless frame loop is cut to a `frames` parameter.
- Program.Run: the drops when `main` returns are not modelled. This covers the context, the device clone and the items, on success and on every error path.
- Program.CreateItems: on error, it does not state what the items already made still hold. `main` returns at once and drops them.
- Program.Run: the reference counts, object contents and mapped buffers are not stated at this level. It states the whole call log on every path, the context and the items.
- Concurrency: there is none in the core. The renderer is one thread.

## Findings

| source | as written | input that shows it | evidently intended | confidence | as-written member | corrected member |
|---|---|---|---|---|---|---|
| src/dx/buffer.rs:209-214 | `VertexBuffer::bind` clones the buffer (`AddRef`) and converts the clone into a raw pointer with `.into()`, which calls `mem::forget`; nothing ever releases that reference (modelled by Buffer.BindVertex) | any vertex buffer bound k ≥ 1 times: its count is its owners plus k, so dropping every `VertexBuffer` leaves the count at k and the buffer is never destroyed | pass the pointer borrowed, through `as_ptr`, as `ConstantBuffer::bind` and `IndexBuffer::bind` do, leaving the count unchanged | not executed | Buffer.LeakyBindsNeverFree | Buffer.BindVertexBorrowed |
