/**
  The renderer's top level (src/app.rs): building the rendering context,
  the one-time binding of the world, and the drawing of one frame.  The
  device context is the call log of `Native.Gpu`; the properties below are
  statements about the order of the calls in it.
 */
module App {
  import opened Hr
  import opened Com
  import opened Screen
  import opened Native
  import opened Texture
  import opened Item

  /** `WorldRenderContext`: the screen size, a viewport over the whole
      screen, and the alpha blend state. */
  datatype WorldRenderContext = WorldRenderContext(screenSize: Vec2, viewport: Viewport, blendState: BlendState)

  /** `RenderContext`. */
  datatype RenderContext = RenderContext(
    device: ComPtr,
    ctx: ComPtr,
    rtv: RenderTargetTexture,
    world: WorldRenderContext,
    item: ItemRenderContext)

  /** `Viewport::new` (src/dx/device.rs): origin at the top-left corner,
      `size` wide and high, depths from `depth.x` to `depth.y`. */
  function NewViewport(size: Vec2, depth: Vec2): (r: Viewport)
    ensures forall p :: Covers(r, p) <==> 0.0 <= p.x <= size.x && 0.0 <= p.y <= size.y
    ensures r.minDepth == depth.x && r.maxDepth == depth.y
  {
    Viewport(0.0, 0.0, size.x, size.y, depth.x, depth.y)
  }

  /** The pixel position `p` lies in the viewport's rectangle. */
  predicate Covers(v: Viewport, p: Vec2) {
    v.topLeftX <= p.x <= v.topLeftX + v.width && v.topLeftY <= p.y <= v.topLeftY + v.height
  }

  /** `Viewport::bind` (src/dx/device.rs): exactly this one viewport. */
  method BindViewport(gpu: Gpu, viewport: Viewport)
    requires gpu.Valid()
    modifies gpu
    ensures gpu.Valid() && OnlyLogged(gpu)
    ensures gpu.log == old(gpu.log) + [Call.RSSetViewports([viewport])]
  {
    gpu.Record(Call.RSSetViewports([viewport]));
  }

  /** Dropping a handle on an early return. */
  method Release(gpu: Gpu, p: ComPtr)
    requires gpu.Valid() && gpu.com.Owns(p)
    modifies gpu.com
    ensures gpu.Valid() && gpu.com.raw == old(gpu.com.raw)
    ensures gpu.com.owned == old(gpu.com.owned) - multiset{p.ptr.id}
  {
    ghost var before := gpu.com.State();
    gpu.com.Drop(p);
    ReleasedHolders(before, p.ptr.id);
  }

  // ---------------------------------------------------------------- creation

  /** `WorldRenderContext::create`: a viewport over the whole screen with
      depths 0 to 1, then the alpha blend state, whose failure is the
      function's. */
  method CreateWorld(gpu: Gpu, screenSize: Vec2) returns (r: Result<WorldRenderContext>, ghost call: Call)
    requires gpu.Valid()
    modifies gpu, gpu.com
    ensures gpu.Valid() && gpu.mapped == old(gpu.mapped) && gpu.contents == old(gpu.contents) && gpu.com.raw == old(gpu.com.raw)
    ensures gpu.log == old(gpu.log) + [call] && call.CreateBlendState? && call.blendDesc == AlphaBlendDesc()
    ensures r.Ok? <==> Succeeded(call)
    ensures r.Err? ==> r.error == WindowsResult(call).error
    ensures r.Err? ==> gpu.com.owned == old(gpu.com.owned)
    ensures r.Ok? ==>
      && r.value.screenSize == screenSize
      && r.value.viewport == Viewport(0.0, 0.0, screenSize.x, screenSize.y, 0.0, 1.0)
      && var b := r.value.blendState.state;
      && b.ptr.At? && b.ptr.id !in old(gpu.com.counts) && gpu.com.Owns(b)
      && gpu.com.owned == old(gpu.com.owned) + multiset{b.ptr.id}
  {
    ghost var start := gpu.log;
    var viewport := NewViewport(screenSize, Vec2(0.0, 1.0));
    var blend := CreateAlphaBlendState(gpu);
    call := gpu.log[|start|];
    assert gpu.log == start + [call];
    if blend.Err? {
      r := Err(blend.error);
    } else {
      r := Ok(WorldRenderContext(screenSize, viewport, blend.value));
    }
  }

  /** The `i`-th native call `RenderContext::create` makes: the device and
      its context, the render-target texture of the screen's size and its
      view, the blend state of the world, and the item context. */
  ghost predicate CreationStep(i: nat, c: Call, width: U32, height: U32) {
    match i
    case 0 => c.CreateDeviceAndContext?
    case 1 => c.CreateTexture2D? && c.textureDesc == RenderTargetDesc(width, height) && c.init == None
    case 2 => c.CreateRenderTargetView?
    case 3 => c.CreateBlendState? && c.blendDesc == AlphaBlendDesc()
    case 4 => c.CreateItemContext?
    case _ => false
  }

  /** The error `RenderContext::create` returns when `c` is the call that
      failed: the item layer's for the item context, the windows crate's
      reading of the HRESULT and out-parameter for the texture, the view
      and the blend state, and an empty out-parameter for the device. */
  function StepError(c: Call): Error {
    if c.CreateItemContext? then ItemFailed
    else if WindowsCreation(c) && !Succeeded(c) then WindowsResult(c).error
    else NothingReturned
  }

  /** How far a construction got: its calls do not follow the steps, it
      is still under way with step `next` to come, or it has finished. */
  datatype Progress = Broken | Running(next: nat) | Finished(ok: bool)

  /** Replays the calls of a construction from step `from` on: each call
      must be the next step's; a failing call ends the construction in
      failure, a successful step 4 ends it in success, and a call after the
      end breaks it. */
  ghost function Walk(from: nat, calls: seq<Call>, width: U32, height: U32): Progress
    decreases |calls|
  {
    if |calls| == 0 then Running(from)
    else if !CreationStep(from, calls[0], width, height) then Broken
    else if !Succeeded(calls[0]) || from == 4 then (if |calls| == 1 then Finished(Succeeded(calls[0])) else Broken)
    else Walk(from + 1, calls[1..], width, height)
  }

  /** The calls of a construction from step `from` on that stopped at the
      first failure, or after the last step; `ok` says which. */
  ghost predicate FailFast(from: nat, calls: seq<Call>, width: U32, height: U32, ok: bool) {
    Walk(from, calls, width, height) == Finished(ok)
  }

  /** Calls of steps `from` onwards that all succeeded, the construction
      still under way. */
  ghost predicate Completed(from: nat, calls: seq<Call>, width: U32, height: U32) {
    Walk(from, calls, width, height) == Running(from + |calls|)
  }

  /** A step that fails ends the construction: no call of a later step is
      ever made after a failing one, and the construction fails. */
  lemma {:induction false} FailFastStopsAtFailure(from: nat, calls: seq<Call>, width: U32, height: U32, ok: bool, i: nat)
    requires FailFast(from, calls, width, height, ok)
    requires i < |calls| && !Succeeded(calls[i])
    ensures i == |calls| - 1 && !ok
    decreases |calls|
  {
    if i > 0 {
      FailFastStopsAtFailure(from + 1, calls[1..], width, height, ok, i - 1);
    }
  }

  /** At most one call per step: a construction from step `from` makes at
      most `5 - from` calls, and a successful one exactly that many. */
  lemma {:induction false} FailFastLength(from: nat, calls: seq<Call>, width: U32, height: U32, ok: bool)
    requires FailFast(from, calls, width, height, ok)
    ensures from + |calls| <= 5 && (ok ==> from + |calls| == 5)
    decreases |calls|
  {
    assert CreationStep(from, calls[0], width, height);
    if |calls| > 1 {
      FailFastLength(from + 1, calls[1..], width, height, ok);
    } else {
      assert Walk(from + 1, calls[1..], width, height) == Running(from + 1);
    }
  }

  /** Replaying steps that all succeeded, then more calls, is replaying the
      more calls from the step after them. */
  lemma {:induction false} WalkAppend(from: nat, done: seq<Call>, rest: seq<Call>, width: U32, height: U32)
    requires Completed(from, done, width, height)
    ensures Walk(from, done + rest, width, height) == Walk(from + |done|, rest, width, height)
    decreases |done|
  {
    if |done| > 0 {
      assert (done + rest)[1..] == done[1..] + rest;
      WalkAppend(from + 1, done[1..], rest, width, height);
    } else {
      assert done + rest == rest;
    }
  }

  /** The calls of `RenderTargetTexture::create` are steps 1 and 2 of the
      construction: both succeeded, or it stopped at the one that failed. */
  lemma RenderTargetSteps(calls: seq<Call>, width: U32, height: U32, ok: bool)
    requires 1 <= |calls| <= 2
    requires calls[0].CreateTexture2D? && calls[0].textureDesc == RenderTargetDesc(width, height) && calls[0].init == None
    requires |calls| == 2 <==> Succeeded(calls[0])
    requires |calls| == 1 ==> !ok
    requires |calls| == 2 ==> calls[1].CreateRenderTargetView? && (ok <==> Succeeded(calls[1]))
    ensures ok ==> |calls| == 2 && Completed(1, calls, width, height)
    ensures !ok ==> FailFast(1, calls, width, height, false)
  {
    if |calls| == 2 {
      var rest := calls[1..];
      assert rest[0] == calls[1] && rest[1..] == [];
      assert Walk(3, rest[1..], width, height) == Running(3);
      assert Walk(1, calls, width, height) == Walk(2, rest, width, height);
    }
  }

  /** The objects the handles `hs` hold a reference to, with multiplicity. */
  ghost function Held(hs: seq<ComPtr>): multiset<nat>
  {
    if |hs| == 0 then multiset{}
    else (if hs[0].ptr.At? then multiset{hs[0].ptr.id} else multiset{}) + Held(hs[1..])
  }

  /** The handles of a `RenderContext` in the order an early return in its
      construction would drop them: the world's blend state, the render
      target (its texture, then its view), the context, the device. */
  function Unwinding(rc: RenderContext): seq<ComPtr> {
    [rc.world.blendState.state] + ([rc.rtv.texture, rc.rtv.view] + [rc.ctx, rc.device])
  }

  /** A context whose five handles are real objects, whose world covers a
      screen `width` by `height` with depths 0 to 1. */
  ghost predicate Built(rc: RenderContext, width: U32, height: U32) {
    && rc.device.ptr.At? && rc.ctx.ptr.At? && rc.rtv.texture.ptr.At? && rc.rtv.view.ptr.At?
    && rc.world.blendState.state.ptr.At?
    && rc.world.screenSize == Vec2(width as real, height as real)
    && rc.world.viewport == Viewport(0.0, 0.0, width as real, height as real, 0.0, 1.0)
  }

  /** The handles of `a + b` are those of `a` and those of `b`. */
  lemma {:induction false} HeldConcat(a: seq<ComPtr>, b: seq<ComPtr>)
    ensures Held(a + b) == Held(a) + Held(b)
    decreases |a|
  {
    if |a| > 0 {
      assert (a + b)[1..] == a[1..] + b;
      HeldConcat(a[1..], b);
    } else {
      assert a + b == b;
    }
  }

  /** The context holds exactly one reference to each of its five objects:
      its blend state, its render target's texture and view, its context
      and its device. */
  lemma HeldUnwinding(rc: RenderContext)
    requires rc.device.ptr.At? && rc.ctx.ptr.At? && rc.rtv.texture.ptr.At? && rc.rtv.view.ptr.At?
    requires rc.world.blendState.state.ptr.At?
    ensures Held(Unwinding(rc)) ==
      multiset{rc.world.blendState.state.ptr.id} + (multiset{rc.rtv.texture.ptr.id, rc.rtv.view.ptr.id} + multiset{rc.ctx.ptr.id, rc.device.ptr.id})
  {
    var (b, t, v, c, d) := (rc.world.blendState.state, rc.rtv.texture, rc.rtv.view, rc.ctx, rc.device);
    HeldConcat([b], [t, v] + [c, d]);
    HeldConcat([t, v], [c, d]);
    HeldPair(t, v);
    HeldPair(c, d);
    assert [b][1..] == [];
  }

  /** One more handle held: it joins the front of the unwinding order. */
  lemma HeldCons(before: multiset<nat>, x: ComPtr, rest: seq<ComPtr>)
    requires x.ptr.At?
    ensures before + Held(rest) + multiset{x.ptr.id} == before + Held([x] + rest)
  {
    assert ([x] + rest)[1..] == rest;
  }

  /** Two more handles held, as a render target's texture and view. */
  lemma HeldPrepend(before: multiset<nat>, x: ComPtr, y: ComPtr, rest: seq<ComPtr>)
    requires x.ptr.At? && y.ptr.At?
    ensures before + Held(rest) + multiset{x.ptr.id, y.ptr.id} == before + Held([x, y] + rest)
  {
    HeldCons(before, y, rest);
    HeldCons(before, x, [y] + rest);
    assert [x] + ([y] + rest) == [x, y] + rest;
  }

  /** The two handles a device creation returns. */
  lemma HeldPair(x: ComPtr, y: ComPtr)
    requires x.ptr.At? && y.ptr.At?
    ensures Held([x, y]) == multiset{x.ptr.id, y.ptr.id}
  {
    assert [x, y][1..] == [y] && [y][1..] == [];
    assert Held([y]) == multiset{y.ptr.id} + Held([]);
  }

  /** Handing back the first of the handles held on top of `before`. */
  lemma DropFront(before: multiset<nat>, hs: seq<ComPtr>)
    requires |hs| > 0 && hs[0].ptr.At?
    ensures before + Held(hs) - multiset{hs[0].ptr.id} == before + Held(hs[1..])
  {
  }

  /** An early return drops the handles made so far, each of `hs` in turn,
      leaving held only what was held `before` them. */
  method DropHandles(gpu: Gpu, hs: seq<ComPtr>, ghost before: multiset<nat>)
    requires gpu.Valid() && (forall i :: 0 <= i < |hs| ==> hs[i].ptr.At?) && gpu.com.owned == before + Held(hs)
    modifies gpu.com
    ensures gpu.Valid() && gpu.com.raw == old(gpu.com.raw) && gpu.com.owned == before
    decreases |hs|
  {
    if |hs| > 0 {
      DropFront(before, hs);
      Release(gpu, hs[0]);
      DropHandles(gpu, hs[1..], before);
    }
  }

  /** Step 4 of `RenderContext::create`, once the device, its context, the
      render target and the world exist (the handles `held`, on top of
      what was held `before`; the steps so far `prior`): the item context.
      When it fails, the early return drops `held` in order. */
  method CreateAfterWorld(gpu: Gpu, held: seq<ComPtr>, ghost before: multiset<nat>, ghost prior: seq<Call>,
                          width: U32, height: U32)
    returns (r: Result<ItemRenderContext>, ghost calls: seq<Call>)
    requires gpu.Valid() && (forall i :: 0 <= i < |held| ==> held[i].ptr.At?) && gpu.com.owned == before + Held(held)
    requires |prior| == 4 && Completed(0, prior, width, height)
    modifies gpu, gpu.com
    ensures gpu.Valid() && gpu.com.raw == old(gpu.com.raw)
    ensures gpu.log == old(gpu.log) + calls && FailFast(0, prior + calls, width, height, r.Ok?)
    ensures r.Err? ==> gpu.com.owned == before
    ensures r.Err? ==> |calls| > 0 && r.error == StepError(calls[|calls| - 1])
    ensures r.Ok? ==> gpu.com.owned == old(gpu.com.owned)
  {
    r := Item.CreateItemContext(gpu);
    calls := [Call.CreateItemContext(r.Ok?)];
    WalkAppend(0, prior, calls, width, height);
    if r.Err? {
      DropHandles(gpu, held, before);
    }
  }

  /** Steps 3 and 4, once the device, its context and the render target
      exist: the world, then the item context.  When the world fails, the
      early return drops `held` in order. */
  method CreateAfterTarget(gpu: Gpu, held: seq<ComPtr>, ghost before: multiset<nat>, ghost prior: seq<Call>,
                           width: U32, height: U32)
    returns (r: Result<(WorldRenderContext, ItemRenderContext)>, ghost calls: seq<Call>)
    requires gpu.Valid() && (forall i :: 0 <= i < |held| ==> held[i].ptr.At?) && gpu.com.owned == before + Held(held)
    requires |prior| == 3 && Completed(0, prior, width, height)
    modifies gpu, gpu.com
    ensures gpu.Valid() && gpu.com.raw == old(gpu.com.raw)
    ensures gpu.log == old(gpu.log) + calls && FailFast(0, prior + calls, width, height, r.Ok?)
    ensures r.Err? ==> gpu.com.owned == before
    ensures r.Err? ==> |calls| > 0 && r.error == StepError(calls[|calls| - 1])
    ensures r.Ok? ==>
      && var world := r.value.0;
      && world.screenSize == Vec2(width as real, height as real)
      && world.viewport == Viewport(0.0, 0.0, width as real, height as real, 0.0, 1.0)
      && world.blendState.state.ptr.At? && gpu.com.owned == before + Held([world.blendState.state] + held)
  {
    var world, third := CreateWorld(gpu, Vec2(width as real, height as real));
    if world.Err? {
      calls := [third];
      WalkAppend(0, prior, calls, width, height);
      DropHandles(gpu, held, before);
      r := Err(world.error);
    } else {
      var b := world.value.blendState.state;
      HeldCons(before, b, held);
      WalkAppend(0, prior, [third], width, height);
      var item, itemCalls := CreateAfterWorld(gpu, [b] + held, before, prior + [third], width, height);
      calls := [third] + itemCalls;
      assert prior + [third] + itemCalls == prior + ([third] + itemCalls);
      assert old(gpu.log) + [third] + itemCalls == old(gpu.log) + ([third] + itemCalls);
      r := if item.Ok? then Ok((world.value, item.value)) else Err(item.error);
    }
  }

  /** Step 1 of `RenderContext::create`, the render target of the screen's
      size, made on top of the handles `held`.  When it fails, the early
      return drops `held` in order, leaving held only what was held
      `before`; otherwise the texture and its view join the handles held. */
  method CreateTargetStep(gpu: Gpu, held: seq<ComPtr>, ghost before: multiset<nat>, ghost prior: seq<Call>,
                          width: U32, height: U32)
    returns (r: Result<RenderTargetTexture>, ghost calls: seq<Call>)
    requires gpu.Valid() && (forall i :: 0 <= i < |held| ==> held[i].ptr.At?) && gpu.com.owned == before + Held(held)
    requires |prior| == 1 && Completed(0, prior, width, height)
    modifies gpu, gpu.com
    ensures gpu.Valid() && gpu.com.raw == old(gpu.com.raw)
    ensures gpu.log == old(gpu.log) + calls && |calls| <= 2
    ensures r.Err? ==> FailFast(0, prior + calls, width, height, false) && gpu.com.owned == before
    ensures r.Err? ==> |calls| > 0 && r.error == StepError(calls[|calls| - 1])
    ensures r.Ok? ==>
      && |calls| == 2 && Completed(0, prior + calls, width, height)
      && r.value.texture.ptr.At? && r.value.view.ptr.At?
      && gpu.com.owned == before + Held([r.value.texture, r.value.view] + held)
  {
    r, calls := CreateRenderTarget(gpu, width, height);
    RenderTargetSteps(calls, width, height, r.Ok?);
    WalkAppend(0, prior, calls, width, height);
    if r.Err? {
      DropHandles(gpu, held, before);
    } else {
      HeldPrepend(before, r.value.texture, r.value.view, held);
    }
  }

  /** Steps 1 to 4, once the device and its context exist: the render
      target, then the world and the item context. */
  method CreateAfterDevice(gpu: Gpu, held: seq<ComPtr>, ghost before: multiset<nat>, ghost prior: seq<Call>,
                           width: U32, height: U32)
    returns (r: Result<(RenderTargetTexture, WorldRenderContext, ItemRenderContext)>, ghost calls: seq<Call>)
    requires gpu.Valid() && (forall i :: 0 <= i < |held| ==> held[i].ptr.At?) && gpu.com.owned == before + Held(held)
    requires |prior| == 1 && Completed(0, prior, width, height)
    modifies gpu, gpu.com
    ensures gpu.Valid() && gpu.com.raw == old(gpu.com.raw)
    ensures gpu.log == old(gpu.log) + calls && FailFast(0, prior + calls, width, height, r.Ok?)
    ensures r.Err? ==> gpu.com.owned == before
    ensures r.Err? ==> |calls| > 0 && r.error == StepError(calls[|calls| - 1])
    ensures r.Ok? ==>
      && var (rtv, world, _) := r.value;
      && world.screenSize == Vec2(width as real, height as real)
      && world.viewport == Viewport(0.0, 0.0, width as real, height as real, 0.0, 1.0)
      && rtv.texture.ptr.At? && rtv.view.ptr.At? && world.blendState.state.ptr.At?
      && gpu.com.owned == before + Held([world.blendState.state] + ([rtv.texture, rtv.view] + held))
  {
    var rtv, targetCalls := CreateTargetStep(gpu, held, before, prior, width, height);
    if rtv.Err? {
      calls := targetCalls;
      r := Err(rtv.error);
    } else {
      var (t, v) := (rtv.value.texture, rtv.value.view);
      var rest, restCalls := CreateAfterTarget(gpu, [t, v] + held, before, prior + targetCalls, width, height);
      calls := targetCalls + restCalls;
      assert prior + targetCalls + restCalls == prior + (targetCalls + restCalls);
      assert old(gpu.log) + targetCalls + restCalls == old(gpu.log) + (targetCalls + restCalls);
      r := if rest.Ok? then Ok((rtv.value, rest.value.0, rest.value.1)) else Err(rest.error);
    }
  }

  /** The construction's calls are the device's followed by the later
      steps', in the log after what came before; its last call, when the
      later steps made one, is theirs. */
  lemma DeviceFirst(log: seq<Call>, first: Call, rest: seq<Call>)
    ensures log + [first] + rest == log + ([first] + rest)
    ensures |rest| > 0 ==> ([first] + rest)[|rest|] == rest[|rest| - 1]
  {
  }

  /** `RenderContext::create`: the device and context, then the render
      target of the screen's size, then the world, then the item context,
      stopping at the first failure; `calls` are the native calls made.  On
      failure every handle made so far is dropped by the early return, so
      nothing is left held; on success the context holds one reference to
      each of its five objects. */
  method CreateRenderContext(gpu: Gpu, width: U32, height: U32) returns (r: Result<RenderContext>, ghost calls: seq<Call>)
    requires gpu.Valid()
    modifies gpu, gpu.com
    ensures gpu.Valid() && gpu.com.raw == old(gpu.com.raw)
    ensures gpu.log == old(gpu.log) + calls && FailFast(0, calls, width, height, r.Ok?)
    ensures r.Err? ==> gpu.com.owned == old(gpu.com.owned)
    ensures r.Err? ==> |calls| > 0 && r.error == StepError(calls[|calls| - 1])
    ensures r.Ok? ==> Built(r.value, width, height) && gpu.com.owned == old(gpu.com.owned) + Held(Unwinding(r.value))
  {
    var dc := gpu.CreateDeviceAndContext();
    ghost var first := Call.CreateDeviceAndContext(dc.Ok?);
    if dc.Err? {
      r, calls := Err(dc.error), [first];
    } else {
      var (device, ctx) := dc.value;
      HeldPair(ctx, device);
      var rest, restCalls := CreateAfterDevice(gpu, [ctx, device], old(gpu.com.owned), [first], width, height);
      calls := [first] + restCalls;
      DeviceFirst(old(gpu.log), first, restCalls);
      r := if rest.Ok? then Ok(RenderContext(device, ctx, rest.value.0, rest.value.1, rest.value.2)) else Err(rest.error);
    }
  }

  // ---------------------------------------------------------------- binding

  /** The one-time bindings of `setup_render_world`, in order: the render
      target, the viewport, the blend state, then the item layer's
      preparation and constant buffer. */
  function SetupCalls(rc: RenderContext): (calls: seq<Call>)
    requires rc.rtv.view.ptr.At? && rc.world.blendState.state.ptr.At?
  {
    [ Call.OMSetRenderTargets([rc.rtv.view.ptr.id]),
      Call.RSSetViewports([rc.world.viewport]),
      Call.OMSetBlendState(rc.world.blendState.state.ptr.id, Rgba(0.0, 0.0, 0.0, 0.0), 0xffff_ffff),
      Call.PrepareRender,
      Call.BindConstants ]
  }

  /** `setup_render_world`: exactly the calls of `SetupCalls`, holding on to
      no further reference. */
  method SetupRenderWorld(gpu: Gpu, rc: RenderContext)
    requires gpu.Valid() && gpu.com.Owns(rc.rtv.view) && gpu.com.Owns(rc.world.blendState.state)
    modifies gpu, gpu.com
    ensures gpu.Valid() && OnlyLogged(gpu)
    ensures gpu.log == old(gpu.log) + SetupCalls(rc)
  {
    BindTarget(gpu, rc.rtv);
    BindViewport(gpu, rc.world.viewport);
    BindBlendState(gpu, rc.world.blendState);
    Item.PrepareRender(gpu, rc.item);
    Item.BindConstants(gpu, rc.item);
  }

  // ---------------------------------------------------------------- one frame

  /** `CLEAR_COLOR`: transparent black. */
  const ClearColor: Rgba := Rgba(0.0, 0.0, 0.0, 0.0)

  /** The four calls for the item at `position` in a frame: update it,
      upload the data it then has, select its sampler, draw it. */
  function ItemCalls(position: nat, item: RenderItem): seq<Call> {
    [ Call.UpdateItem(position, true),
      Call.SetCurrentData(item.data, true),
      Call.SetSampler(item.pixelate),
      Call.DrawItem(position) ]
  }

  /** The calls for the items of a frame, each as it is after its update. */
  function FrameCalls(items: seq<RenderItem>): seq<Call>
    decreases |items|
  {
    if |items| == 0 then []
    else FrameCalls(items[..|items| - 1]) + ItemCalls(|items| - 1, items[|items| - 1])
  }

  /** Four calls per item. */
  lemma {:induction false} FrameCallsLength(items: seq<RenderItem>)
    ensures |FrameCalls(items)| == 4 * |items|
    decreases |items|
  {
    if |items| > 0 {
      FrameCallsLength(items[..|items| - 1]);
    }
  }

  /** Handling one more item appends exactly its four calls. */
  lemma FrameCallsSnoc(items: seq<RenderItem>, item: RenderItem)
    ensures FrameCalls(items + [item]) == FrameCalls(items) + ItemCalls(|items|, item)
  {
    var longer := items + [item];
    assert longer[..|items|] == items && longer[|items|] == item;
  }

  /** Items are handled one after the other, in list order: the calls of
      item `k` are the four at `4k`, and nothing of another item comes
      between them. */
  lemma {:induction false} FrameCallsItem(items: seq<RenderItem>, k: nat)
    requires k < |items|
    ensures |FrameCalls(items)| == 4 * |items|
    ensures FrameCalls(items)[4 * k .. 4 * k + 4] == ItemCalls(k, items[k])
    decreases |items|
  {
    FrameCallsLength(items);
    var m := |items| - 1;
    var prefix := items[..m];
    FrameCallsLength(prefix);
    if k < m {
      FrameCallsItem(prefix, k);
      assert prefix[k] == items[k];
      assert FrameCalls(items)[4 * k .. 4 * k + 4] == FrameCalls(prefix)[4 * k .. 4 * k + 4];
    } else {
      assert FrameCalls(items)[4 * k .. 4 * k + 4] == ItemCalls(m, items[m]);
    }
  }

  /** Every call of a completed frame's items reported success. */
  lemma {:induction false} FrameCallsSucceed(items: seq<RenderItem>)
    ensures forall c :: c in FrameCalls(items) ==> Succeeded(c)
    decreases |items|
  {
    if |items| > 0 {
      FrameCallsSucceed(items[..|items| - 1]);
    }
  }

  /** How handling the item at `position` can fail: its update fails, or
      its update succeeds and the upload of its new data fails. */
  ghost predicate ItemFailure(failure: seq<Call>, position: nat, data: ItemData) {
    || failure == [Call.UpdateItem(position, false)]
    || failure == [Call.UpdateItem(position, true), Call.SetCurrentData(data, false)]
  }

  /** Calls that stopped at their first failure: every call but the last
      succeeded, and the last did not. */
  ghost predicate StoppedAtFailure(calls: seq<Call>) {
    && |calls| > 0 && !Succeeded(calls[|calls| - 1])
    && forall i :: 0 <= i < |calls| - 1 ==> Succeeded(calls[i])
  }

  /** A failing item stops at its first failing call. */
  lemma ItemFailureStops(failure: seq<Call>, position: nat, data: ItemData)
    requires ItemFailure(failure, position, data)
    ensures StoppedAtFailure(failure)
  {
  }

  /** Successful calls followed by calls that stopped at their first
      failure stopped there too. */
  lemma StoppedAfterSuccesses(done: seq<Call>, failure: seq<Call>)
    requires forall c :: c in done ==> Succeeded(c)
    requires StoppedAtFailure(failure)
    ensures StoppedAtFailure(done + failure)
  {
    var all := done + failure;
    forall i | 0 <= i < |all| - 1
      ensures Succeeded(all[i])
    {
      if i < |done| {
        assert all[i] == done[i] && done[i] in done;
      } else {
        assert all[i] == failure[i - |done|];
      }
    }
    assert all[|all| - 1] == failure[|failure| - 1];
  }

  /** The body of `render`'s loop for the item at `position`: update it,
      upload the data it then has, select its sampler and draw it; a failing
      update or upload ends the item there.  `updated` is the item after its
      update, which the list keeps whether or not the rest succeeds. */
  method RenderItemAt(gpu: Gpu, ic: ItemRenderContext, item: RenderItem, position: nat)
    returns (ok: bool, updated: RenderItem, ghost failure: seq<Call>)
    requires gpu.Valid()
    modifies gpu
    ensures gpu.Valid() && OnlyLogged(gpu)
    ensures updated.texture == item.texture && updated.pixelate == item.pixelate
    ensures ok ==> gpu.log == old(gpu.log) + ItemCalls(position, updated)
    ensures !ok ==> gpu.log == old(gpu.log) + failure && ItemFailure(failure, position, updated.data)
  {
    ok, updated := Item.Update(gpu, item, position);
    if !ok {
      return ok, updated, [Call.UpdateItem(position, false)];
    }
    ok := Item.SetCurrentData(gpu, ic, updated.data);
    if !ok {
      return ok, updated, [Call.UpdateItem(position, true), Call.SetCurrentData(updated.data, false)];
    }
    Item.SetSampler(gpu, ic, updated.pixelate);
    Item.Draw(gpu, updated, position);
    failure := [];
  }

  /** One turn of `render`'s loop: the item at `k` is handled and replaced
      in the list by its updated self; no other item changes. */
  method RenderNext(gpu: Gpu, ic: ItemRenderContext, items: array<RenderItem>, k: nat, ghost start: seq<Call>)
    returns (ok: bool, ghost failure: seq<Call>)
    requires gpu.Valid() && k < items.Length && gpu.log == start + FrameCalls(items[..k])
    modifies gpu, items
    ensures gpu.Valid() && OnlyLogged(gpu)
    ensures forall j :: 0 <= j < items.Length && j != k ==> items[j] == old(items[j])
    ensures items[k].texture == old(items[k].texture) && items[k].pixelate == old(items[k].pixelate)
    ensures ok ==> gpu.log == start + FrameCalls(items[..k + 1])
    ensures !ok ==> gpu.log == start + FrameCalls(items[..k]) + failure && ItemFailure(failure, k, items[k].data)
  {
    ghost var done := items[..k];
    var updated;
    ok, updated, failure := RenderItemAt(gpu, ic, items[k], k);
    items[k] := updated;
    assert items[..k] == done;
    if ok {
      assert items[..k + 1] == done + [updated];
      FrameCallsSnoc(done, updated);
    }
  }

  /** `render`: clear the target to transparent black, then for each item
      in list order update it in place, upload its data, select its sampler
      and draw it.  Items keep their texture and flag.  The first failing
      update or upload, at item `handled`, ends the frame with an error and
      leaves the later items untouched. */
  method Render(gpu: Gpu, rc: RenderContext, items: array<RenderItem>)
    returns (r: Result<()>, ghost handled: nat, ghost failure: seq<Call>)
    requires gpu.Valid() && gpu.com.Owns(rc.rtv.view)
    modifies gpu, items
    ensures gpu.Valid() && OnlyLogged(gpu)
    ensures forall k :: 0 <= k < items.Length ==>
      items[k].texture == old(items[k].texture) && items[k].pixelate == old(items[k].pixelate)
    ensures r.Ok? ==>
      gpu.log == old(gpu.log) + [Call.ClearRenderTargetView(rc.rtv.view.ptr.id, ClearColor)] + FrameCalls(items[..])
    ensures r.Err? ==>
      && handled < items.Length && r.error == ItemFailed
      && (forall j :: handled < j < items.Length ==> items[j] == old(items[j]))
      && gpu.log == old(gpu.log) + [Call.ClearRenderTargetView(rc.rtv.view.ptr.id, ClearColor)] + FrameCalls(items[..handled]) + failure
      && ItemFailure(failure, handled, items[handled].data)
  {
    ClearTarget(gpu, rc.rtv, ClearColor);
    ghost var start := gpu.log;
    var k := 0;
    while k < items.Length
      invariant 0 <= k <= items.Length
      invariant gpu.Valid() && OnlyLogged(gpu)
      invariant forall j :: 0 <= j < items.Length ==>
        items[j].texture == old(items[j].texture) && items[j].pixelate == old(items[j].pixelate)
      invariant forall j :: k <= j < items.Length ==> items[j] == old(items[j])
      invariant gpu.log == start + FrameCalls(items[..k])
    {
      var ok;
      ok, failure := RenderNext(gpu, rc.item, items, k, start);
      if !ok {
        return Err(ItemFailed), k, failure;
      }
      k := k + 1;
    }
    assert items[..] == items[..k];
    r, handled, failure := Ok(()), k, [];
  }
}
