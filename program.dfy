/**
  The renderer's entry point (src/main.rs): the publishing sender, the
  rendering context, one render item per definition, the one-time binding
  of the world, then the frame loop: draw, publish, hold the frame rate.
  The publishing collaborator (the Spout sender) is a foreign library: each
  of its operations is a call that may fail and is recorded in the log.
 */
module Program {
  import opened Hr
  import opened Com
  import opened Screen
  import opened Native
  import opened Texture
  import opened Item
  import opened App

  /** The screen `main` renders to, in pixels. */
  const ScreenWidth: U32 := 1920
  const ScreenHeight: U32 := 1080
  const ScreenSize := Vec2(ScreenWidth as real, ScreenHeight as real)

  /** The frame rate the sender holds. */
  const Fps: nat := 30

  /** The two items `main` shows: test2.png as it is at scale 1, then
      test1.png pixelated at scale 5. */
  const Definitions: seq<ItemDefinition> := [
    ItemDefinition("./assets/test2.png", false, 1.0),
    ItemDefinition("./assets/test1.png", true, 5.0)
  ]

  // ---------------------------------------------------------------- the sender

  /** `SpoutSender::create`, then naming the sender "VTFTK" and setting its
      format: the sender's setup, which may fail. */
  method CreateSender(gpu: Gpu) returns (ok: bool)
    requires gpu.Valid()
    modifies gpu
    ensures gpu.Valid() && OnlyLogged(gpu)
    ensures gpu.log == old(gpu.log) + [Call.CreateSender(ok)]
  {
    ok := *;
    gpu.Record(Call.CreateSender(ok));
  }

  /** `SpoutSender::open_directx11`: hands the device to the sender, which
      borrows it; the device's count is unchanged. */
  method OpenDirectX11(gpu: Gpu, device: ComPtr) returns (ok: bool)
    requires gpu.Valid() && gpu.com.Owns(device)
    modifies gpu
    ensures gpu.Valid() && OnlyLogged(gpu)
    ensures gpu.log == old(gpu.log) + [Call.OpenDirectX11(device.ptr.id, ok)]
  {
    ok := *;
    gpu.Record(Call.OpenDirectX11(device.ptr.id, ok));
  }

  /** `SpoutSender::send_texture`: publishes the render target's texture.
      The wrapper hands the library `texture.clone()` through
      `mem::transmute`, so the clone's reference leaves as a raw pointer
      that is never released: every send leaks one reference to the
      texture, whether or not the library then succeeds. */
  method SendTexture(gpu: Gpu, texture: ComPtr) returns (ok: bool)
    requires gpu.Valid() && gpu.com.Owns(texture)
    modifies gpu, gpu.com
    ensures gpu.Valid() && gpu.com.Owns(texture) && texture.ptr.id in old(gpu.com.counts)
    ensures gpu.resources == old(gpu.resources) && gpu.contents == old(gpu.contents) && gpu.mapped == old(gpu.mapped)
    ensures gpu.com.State() == Leaked(old(gpu.com.State()), texture.ptr.id, 1)
    ensures gpu.log == old(gpu.log) + [Call.SendTexture(texture.ptr.id, ok)]
  {
    var copy := gpu.com.Clone(texture);
    var raw := gpu.com.IntoRaw(copy);
    ok := *;
    gpu.Record(Call.SendTexture(texture.ptr.id, ok));
  }

  /** `SpoutSender::hold_fps`: waits for the next frame at `fps`. */
  method HoldFps(gpu: Gpu, fps: nat) returns (ok: bool)
    requires gpu.Valid()
    modifies gpu
    ensures gpu.Valid() && OnlyLogged(gpu)
    ensures gpu.log == old(gpu.log) + [Call.HoldFps(fps, ok)]
  {
    ok := *;
    gpu.Record(Call.HoldFps(fps, ok));
  }

  // ---------------------------------------------------------------- the items

  /** What `main` makes of a definition whose image decoded to `img`: an item
      with the image's texture and the definition's pixelation flag, whose
      animation data is derived from the texture's size and the
      definition's scale. */
  ghost predicate MadeFrom(item: RenderItem, def: ItemDefinition, img: Image, screen: Vec2)
    requires NonZero(screen)
  {
    && item.pixelate == def.pixelate
    && item.texture.texture.ptr.At?
    && item.texture.width == img.width && item.texture.height == img.height
    && item.data == DeriveItemData(def.scale, Vec2(img.width as real, img.height as real), screen)
  }

  /** The texture handles of the items, in list order. */
  function TextureHandles(items: seq<RenderItem>): (hs: seq<ComPtr>)
    ensures |hs| == |items| && forall i :: 0 <= i < |items| ==> hs[i] == items[i].texture.texture
  {
    if |items| == 0 then [] else TextureHandles(items[..|items| - 1]) + [items[|items| - 1].texture.texture]
  }

  /** The calls of making the item at `position` from the image `img`:
      the texture's creation from the image, then the item's, both
      succeeding. */
  ghost predicate ItemMade(calls: seq<Call>, position: nat, img: Image) {
    && |calls| == 2 && LoadCall(calls[0], img) && Succeeded(calls[0])
    && calls[1] == Call.CreateRenderItem(position, true)
  }

  /** The calls of a turn of the item loop that failed at `position` with
      `error`: none when the image is missing or too wide for a `u32` row
      pitch; a texture creation that failed; or a texture created and an
      item creation that failed. */
  ghost predicate ItemNotMade(calls: seq<Call>, position: nat, decoded: Option<Image>, error: Error) {
    if decoded.None? then calls == [] && error == DecodeFailed
    else if RowPitch(decoded.value.width).Err? then calls == [] && error == Overflow
    else
      && 1 <= |calls| <= 2 && LoadCall(calls[0], decoded.value)
      && if |calls| == 1 then !Succeeded(calls[0]) && error == WindowsResult(calls[0]).error
         else Succeeded(calls[0]) && calls[1] == Call.CreateRenderItem(position, false) && error == ItemFailed
  }

  /** The calls of the item loop once it has made the items of the first
      `n` definitions, from the images decoded for them. */
  ghost predicate ItemsMade(calls: seq<Call>, decoded: seq<Option<Image>>, n: nat)
    requires n <= |decoded|
    decreases n
  {
    if n == 0 then calls == []
    else
      && |calls| >= 2 && decoded[n - 1].Some?
      && ItemsMade(calls[..|calls| - 2], decoded, n - 1)
      && ItemMade(calls[|calls| - 2..], n - 1, decoded[n - 1].value)
  }

  /** One more item made adds its two calls. */
  lemma ItemsMadeSnoc(calls: seq<Call>, pair: seq<Call>, decoded: seq<Option<Image>>, n: nat)
    requires n < |decoded| && ItemsMade(calls, decoded, n) && decoded[n].Some? && ItemMade(pair, n, decoded[n].value)
    ensures ItemsMade(calls + pair, decoded, n + 1)
  {
    assert (calls + pair)[..|calls + pair| - 2] == calls;
    assert (calls + pair)[|calls + pair| - 2..] == pair;
  }

  /** Making `n` items takes two calls each. */
  lemma {:induction false} ItemsMadeLength(calls: seq<Call>, decoded: seq<Option<Image>>, n: nat)
    requires n <= |decoded| && ItemsMade(calls, decoded, n)
    ensures |calls| == 2 * n
    decreases n
  {
    if n > 0 {
      ItemsMadeLength(calls[..|calls| - 2], decoded, n - 1);
    }
  }

  /** The calls of definition `i` come at `2i`: the items are made in
      definition order, each right after its texture, and no call of a
      later definition comes before them. */
  lemma {:induction false} ItemsMadeAt(calls: seq<Call>, decoded: seq<Option<Image>>, n: nat, i: nat)
    requires n <= |decoded| && ItemsMade(calls, decoded, n) && i < n
    ensures 2 * i + 2 <= |calls| && decoded[i].Some? && ItemMade(calls[2 * i..2 * i + 2], i, decoded[i].value)
    decreases n
  {
    ItemsMadeLength(calls, decoded, n);
    if i < n - 1 {
      var prefix := calls[..|calls| - 2];
      ItemsMadeAt(prefix, decoded, n - 1, i);
      assert calls[2 * i..2 * i + 2] == prefix[2 * i..2 * i + 2];
    }
  }

  /** One turn of the item loop: load the definition's texture, derive the
      item's data from its size, make the render item.  A missing image or
      a failing creation is the error; a texture the item layer refuses is
      dropped again.  `calls` are the turn's calls. */
  method CreateItemAt(gpu: Gpu, device: ComPtr, position: nat, def: ItemDefinition, decoded: Option<Image>, screen: Vec2)
    returns (r: Result<RenderItem>, ghost calls: seq<Call>)
    requires gpu.Valid() && gpu.com.Owns(device) && NonZero(screen)
    requires decoded.Some? ==> IsRgba8(decoded.value)
    modifies gpu, gpu.com
    ensures gpu.Valid() && gpu.com.raw == old(gpu.com.raw)
    ensures gpu.log == old(gpu.log) + calls
    ensures decoded.None? ==> r == Err(DecodeFailed)
    ensures r.Err? ==> gpu.com.owned == old(gpu.com.owned) && ItemNotMade(calls, position, decoded, r.error)
    ensures r.Ok? ==>
      && decoded.Some? && ItemMade(calls, position, decoded.value) && MadeFrom(r.value, def, decoded.value, screen)
      && gpu.com.owned == old(gpu.com.owned) + multiset{r.value.texture.texture.ptr.id}
  {
    ghost var start := gpu.log;
    var texture := LoadFromPath(gpu, decoded);
    calls := gpu.log[|start|..];
    assert gpu.log == start + calls;
    if texture.Err? {
      return Err(texture.error), calls;
    }
    var size := Vec2(texture.value.width as real, texture.value.height as real);
    var data := DeriveItemData(def.scale, size, screen);
    r := Item.CreateRenderItem(gpu, device, position, def, texture.value, data);
    calls := calls + [Call.CreateRenderItem(position, r.Ok?)];
  }

  /** The item loop after making `items`: each from its definition and
      the image decoded for it, and `loaded` the calls that made them. */
  ghost predicate MadeSoFar(items: seq<RenderItem>, loaded: seq<Call>, defs: seq<ItemDefinition>,
                            decoded: seq<Option<Image>>, screen: Vec2)
    requires |items| <= |defs| == |decoded| && NonZero(screen)
  {
    && ItemsMade(loaded, decoded, |items|)
    && forall i :: 0 <= i < |items| ==> decoded[i].Some? && MadeFrom(items[i], defs[i], decoded[i].value, screen)
  }

  /** One more item made from the next definition extends what the loop
      has made. */
  lemma MadeSoFarSnoc(items: seq<RenderItem>, loaded: seq<Call>, item: RenderItem, calls: seq<Call>,
                      defs: seq<ItemDefinition>, decoded: seq<Option<Image>>, screen: Vec2)
    requires |items| < |defs| == |decoded| && NonZero(screen) && MadeSoFar(items, loaded, defs, decoded, screen)
    requires decoded[|items|].Some? && ItemMade(calls, |items|, decoded[|items|].value)
    requires MadeFrom(item, defs[|items|], decoded[|items|].value, screen)
    ensures MadeSoFar(items + [item], loaded + calls, defs, decoded, screen)
  {
    ItemsMadeSnoc(loaded, calls, decoded, |items|);
  }

  /** The texture of one more item is one more reference the items hold. */
  lemma HeldSnoc(items: seq<RenderItem>, item: RenderItem)
    requires item.texture.texture.ptr.At?
    ensures Held(TextureHandles(items + [item])) == Held(TextureHandles(items)) + multiset{item.texture.texture.ptr.id}
  {
    var handle := item.texture.texture;
    HeldConcat(TextureHandles(items), [handle]);
    assert TextureHandles(items + [item]) == TextureHandles(items) + [handle];
    assert Held([handle]) == multiset{handle.ptr.id} by {
      assert [handle][1..] == [];
    }
  }

  /** The bookkeeping of one more item: its calls follow the earlier
      ones, it is made from its definition and image, and its texture joins
      the references the items hold. */
  lemma ItemAppended(items: seq<RenderItem>, item: RenderItem, loaded: seq<Call>, calls: seq<Call>, base: seq<Call>,
                     before: multiset<nat>, defs: seq<ItemDefinition>, decoded: seq<Option<Image>>, screen: Vec2)
    requires |items| < |defs| == |decoded| && NonZero(screen) && MadeSoFar(items, loaded, defs, decoded, screen)
    requires decoded[|items|].Some? && ItemMade(calls, |items|, decoded[|items|].value)
    requires MadeFrom(item, defs[|items|], decoded[|items|].value, screen)
    ensures base + loaded + calls == base + (loaded + calls)
    ensures MadeSoFar(items + [item], loaded + calls, defs, decoded, screen)
    ensures before + Held(TextureHandles(items)) + multiset{item.texture.texture.ptr.id}
         == before + Held(TextureHandles(items + [item]))
  {
    HeldSnoc(items, item);
    MadeSoFarSnoc(items, loaded, item, calls, defs, decoded, screen);
  }

  /** `items` made so far, one more: the item of the next definition,
      appended to the list, its calls to those of the earlier items, and
      its texture to what the items hold.  `calls` are the turn's calls. */
  method AppendItem(gpu: Gpu, device: ComPtr, defs: seq<ItemDefinition>, decoded: seq<Option<Image>>, screen: Vec2,
                    items: seq<RenderItem>, ghost loaded: seq<Call>, ghost base: seq<Call>, ghost before: multiset<nat>)
    returns (r: Result<seq<RenderItem>>, ghost calls: seq<Call>)
    requires gpu.Valid() && gpu.com.Owns(device) && NonZero(screen)
    requires |items| < |defs| == |decoded| && (decoded[|items|].Some? ==> IsRgba8(decoded[|items|].value))
    requires gpu.log == base + loaded && MadeSoFar(items, loaded, defs, decoded, screen)
    requires gpu.com.owned == before + Held(TextureHandles(items))
    modifies gpu, gpu.com
    ensures gpu.Valid() && gpu.com.raw == old(gpu.com.raw)
    ensures r.Err? ==> gpu.log == base + loaded + calls && ItemNotMade(calls, |items|, decoded[|items|], r.error)
    ensures r.Ok? ==>
      && |r.value| == |items| + 1 && gpu.com.Owns(device)
      && gpu.log == base + (loaded + calls) && MadeSoFar(r.value, loaded + calls, defs, decoded, screen)
      && gpu.com.owned == before + Held(TextureHandles(r.value))
  {
    var k := |items|;
    var item;
    item, calls := CreateItemAt(gpu, device, k, defs[k], decoded[k], screen);
    if item.Err? {
      return Err(item.error), calls;
    }
    ItemAppended(items, item.value, loaded, calls, base, before, defs, decoded, screen);
    r := Ok(items + [item.value]);
  }

  /** The item loop of `main`: one render item per definition, in
      definition order, from the image decoded for it.  The first missing
      image or failing creation, at definition `failed`, aborts the loop
      with its error: the calls are those of the items made before it
      (`loaded`), then those of the failing turn (`failure`), and no
      later definition is loaded.  On success each item holds one
      reference to its texture. */
  method CreateItems(gpu: Gpu, device: ComPtr, defs: seq<ItemDefinition>, decoded: seq<Option<Image>>, screen: Vec2)
    returns (r: Result<seq<RenderItem>>, ghost failed: nat, ghost loaded: seq<Call>, ghost failure: seq<Call>)
    requires gpu.Valid() && gpu.com.Owns(device) && NonZero(screen)
    requires |decoded| == |defs| && forall i :: 0 <= i < |decoded| && decoded[i].Some? ==> IsRgba8(decoded[i].value)
    modifies gpu, gpu.com
    ensures gpu.Valid() && gpu.com.raw == old(gpu.com.raw)
    ensures gpu.log == old(gpu.log) + loaded + failure
    ensures failed <= |defs| && ItemsMade(loaded, decoded, failed)
    ensures r.Ok? ==>
      && failed == |defs| && failure == [] && |r.value| == |defs|
      && (forall i :: 0 <= i < |defs| ==> decoded[i].Some? && MadeFrom(r.value[i], defs[i], decoded[i].value, screen))
      && gpu.com.owned == old(gpu.com.owned) + Held(TextureHandles(r.value))
    ensures r.Err? ==>
      && failed < |defs| && (forall i :: 0 <= i < failed ==> decoded[i].Some?)
      && ItemNotMade(failure, failed, decoded[failed], r.error)
  {
    var items: seq<RenderItem> := [];
    loaded := [];
    while |items| < |defs|
      invariant |items| <= |defs|
      invariant gpu.Valid() && gpu.com.raw == old(gpu.com.raw) && gpu.com.Owns(device)
      invariant gpu.log == old(gpu.log) + loaded && MadeSoFar(items, loaded, defs, decoded, screen)
      invariant gpu.com.owned == old(gpu.com.owned) + Held(TextureHandles(items))
    {
      var next, calls := AppendItem(gpu, device, defs, decoded, screen, items, loaded, old(gpu.log), old(gpu.com.owned));
      if next.Err? {
        return Err(next.error), |items|, loaded, calls;
      }
      loaded := loaded + calls;
      items := next.value;
    }
    r, failed, failure := Ok(items), |items|, [];
  }

  // ---------------------------------------------------------------- the frames

  /** One frame as `main`'s loop makes it, when every step succeeds: the
      calls of `render` for the items as they are after their update, then
      publishing the render target's texture, then holding the frame rate. */
  function Frame(rc: RenderContext, items: seq<RenderItem>): seq<Call>
    requires rc.rtv.view.ptr.At? && rc.rtv.texture.ptr.At?
  {
    [Call.ClearRenderTargetView(rc.rtv.view.ptr.id, ClearColor)] + FrameCalls(items)
      + [Call.SendTexture(rc.rtv.texture.ptr.id, true), Call.HoldFps(Fps, true)]
  }

  /** The frames of `history`, one after the other. */
  function Frames(rc: RenderContext, history: seq<seq<RenderItem>>): seq<Call>
    requires rc.rtv.view.ptr.At? && rc.rtv.texture.ptr.At?
    decreases |history|
  {
    if |history| == 0 then []
    else Frames(rc, history[..|history| - 1]) + Frame(rc, history[|history| - 1])
  }

  /** One more frame in the history appends exactly its calls, also after
      the calls `base` that came before the loop. */
  lemma FramesSnoc(rc: RenderContext, history: seq<seq<RenderItem>>, items: seq<RenderItem>, base: seq<Call>)
    requires rc.rtv.view.ptr.At? && rc.rtv.texture.ptr.At?
    ensures Frames(rc, history + [items]) == Frames(rc, history) + Frame(rc, items)
    ensures base + Frames(rc, history + [items]) == base + Frames(rc, history) + Frame(rc, items)
  {
    assert (history + [items])[..|history|] == history;
  }

  /** Items with the same textures and flags, in the same order. */
  ghost predicate SameItems(a: seq<RenderItem>, b: seq<RenderItem>) {
    |a| == |b| && forall k :: 0 <= k < |a| ==> a[k].texture == b[k].texture && a[k].pixelate == b[k].pixelate
  }

  /** The calls of a publication that failed: the send failed, or the
      texture was sent and holding the frame rate failed. */
  ghost predicate PublishFailure(failure: seq<Call>, texture: nat) {
    || failure == [Call.SendTexture(texture, false)]
    || failure == [Call.SendTexture(texture, true), Call.HoldFps(Fps, false)]
  }

  /** Successful calls followed by a failed publication stopped at that
      failure, and the error is the sender's. */
  lemma PublishFailureStops(drawn: seq<Call>, failure: seq<Call>, texture: nat)
    requires (forall c :: c in drawn ==> Succeeded(c)) && PublishFailure(failure, texture)
    ensures StoppedAtFailure(drawn + failure)
    ensures FailureError((drawn + failure)[|drawn + failure| - 1]) == SenderFailed
  {
    StoppedAfterSuccesses(drawn, failure);
    assert (drawn + failure)[|drawn + failure| - 1] == failure[|failure| - 1];
  }

  /** Publishing a drawn frame: send the render target's texture, then hold
      the frame rate; the first failing step ends it.  `drawn` are the
      frame's calls so far, all of which succeeded.  The send leaks one
      reference to the texture either way. */
  method Publish(gpu: Gpu, texture: ComPtr, ghost drawn: seq<Call>) returns (ok: bool, ghost failure: seq<Call>)
    requires gpu.Valid() && gpu.com.Owns(texture) && forall c :: c in drawn ==> Succeeded(c)
    modifies gpu, gpu.com
    ensures gpu.Valid() && gpu.com.Owns(texture) && texture.ptr.id in old(gpu.com.counts)
    ensures gpu.resources == old(gpu.resources) && gpu.contents == old(gpu.contents) && gpu.mapped == old(gpu.mapped)
    ensures gpu.com.State() == Leaked(old(gpu.com.State()), texture.ptr.id, 1)
    ensures ok ==> gpu.log == old(gpu.log) + [Call.SendTexture(texture.ptr.id, true), Call.HoldFps(Fps, true)]
    ensures !ok ==>
      && gpu.log == old(gpu.log) + failure && PublishFailure(failure, texture.ptr.id)
      && StoppedAtFailure(drawn + failure)
      && FailureError((drawn + failure)[|drawn + failure| - 1]) == SenderFailed
  {
    var sent := SendTexture(gpu, texture);
    if !sent {
      ok, failure := false, [Call.SendTexture(texture.ptr.id, false)];
    } else {
      ok := HoldFps(gpu, Fps);
      failure := [Call.SendTexture(texture.ptr.id, true), Call.HoldFps(Fps, false)];
    }
    if !ok {
      PublishFailureStops(drawn, failure, texture.ptr.id);
    }
  }

  /** The error `main` reports for a turn that failed at `last`: the item
      layer's when drawing failed, the sender's when publishing did. */
  function FailureError(last: Call): Error {
    if last.SendTexture? || last.HoldFps? then SenderFailed else ItemFailed
  }

  /** A frame whose drawing failed at item `handled` stopped at that
      failure, and the error is the item layer's. */
  lemma DrawFailure(clear: Call, items: seq<RenderItem>, failure: seq<Call>, handled: nat, data: ItemData)
    requires clear.ClearRenderTargetView? && ItemFailure(failure, handled, data)
    ensures StoppedAtFailure([clear] + FrameCalls(items) + failure)
    ensures var attempt := [clear] + FrameCalls(items) + failure; FailureError(attempt[|attempt| - 1]) == ItemFailed
  {
    var done := [clear] + FrameCalls(items);
    FrameCallsSucceed(items);
    ItemFailureStops(failure, handled, data);
    StoppedAfterSuccesses(done, failure);
    assert (done + failure)[|done + failure| - 1] == failure[|failure| - 1];
  }

  /** The calls of a turn of the frame loop that failed while drawing
      `items`: clearing the target and the complete calls of the items
      before item `handled`, then that item's failing update or upload;
      or, when `handled` is the number of items, the whole drawing, then a
      failing publication. */
  ghost predicate FailedTurn(rc: RenderContext, items: seq<RenderItem>, handled: nat, attempt: seq<Call>)
    requires rc.rtv.view.ptr.At? && rc.rtv.texture.ptr.At?
  {
    handled <= |items| &&
    var drawn := [Call.ClearRenderTargetView(rc.rtv.view.ptr.id, ClearColor)] + FrameCalls(items[..handled]);
    |drawn| <= |attempt| && attempt[..|drawn|] == drawn &&
    if handled < |items| then ItemFailure(attempt[|drawn|..], handled, items[handled].data)
    else PublishFailure(attempt[|drawn|..], rc.rtv.texture.ptr.id)
  }

  /** A turn that stopped at its first failing call, the last one, after
      clearing the target first, with the error `main` reports for it. */
  ghost predicate TurnStopped(rc: RenderContext, attempt: seq<Call>, error: Error)
    requires rc.rtv.view.ptr.At?
  {
    && StoppedAtFailure(attempt)
    && attempt[0] == Call.ClearRenderTargetView(rc.rtv.view.ptr.id, ClearColor)
    && error == FailureError(attempt[|attempt| - 1])
  }

  /** A failed turn after the log `start`: the log gains exactly `attempt`,
      which has the shape of `FailedTurn` and stops at its failure, and
      `error` is that failure's error. */
  ghost predicate TurnFailed(rc: RenderContext, items: seq<RenderItem>, start: seq<Call>, after: seq<Call>,
                             handled: nat, attempt: seq<Call>, error: Error)
    requires rc.rtv.view.ptr.At? && rc.rtv.texture.ptr.At?
  {
    after == start + attempt && FailedTurn(rc, items, handled, attempt) && TurnStopped(rc, attempt, error)
  }

  /** A failed turn stopped at its first failing call, which is the last,
      and its error is the item layer's exactly when drawing failed. */
  lemma FailedTurnStops(rc: RenderContext, items: seq<RenderItem>, handled: nat, attempt: seq<Call>)
    requires rc.rtv.view.ptr.At? && rc.rtv.texture.ptr.At?
    requires FailedTurn(rc, items, handled, attempt)
    ensures TurnStopped(rc, attempt, if handled < |items| then ItemFailed else SenderFailed)
  {
    var clear := Call.ClearRenderTargetView(rc.rtv.view.ptr.id, ClearColor);
    var drawn := [clear] + FrameCalls(items[..handled]);
    var failure := attempt[|drawn|..];
    assert attempt == drawn + failure;
    if handled < |items| {
      DrawFailure(clear, items[..handled], failure, handled, items[handled].data);
    } else {
      FrameCallsSucceed(items[..handled]);
      assert StoppedAtFailure(failure);
      StoppedAfterSuccesses(drawn, failure);
    }
  }

  /** Publishing a frame whose drawing of `shown` went through, from log
      `start`: the whole frame, or the drawing followed by a failing
      publication. */
  method PublishFrame(gpu: Gpu, rc: RenderContext, ghost shown: seq<RenderItem>, ghost start: seq<Call>)
    returns (r: Result<()>, ghost attempt: seq<Call>)
    requires gpu.Valid() && gpu.com.Owns(rc.rtv.view) && gpu.com.Owns(rc.rtv.texture)
    requires gpu.log == start + ([Call.ClearRenderTargetView(rc.rtv.view.ptr.id, ClearColor)] + FrameCalls(shown))
    modifies gpu, gpu.com
    ensures gpu.Valid() && gpu.com.Owns(rc.rtv.view) && gpu.com.Owns(rc.rtv.texture)
    ensures gpu.resources == old(gpu.resources) && gpu.contents == old(gpu.contents) && gpu.mapped == old(gpu.mapped)
    ensures rc.rtv.texture.ptr.id in old(gpu.com.counts)
    ensures gpu.com.State() == Leaked(old(gpu.com.State()), rc.rtv.texture.ptr.id, 1)
    ensures r.Ok? ==> gpu.log == start + Frame(rc, shown)
    ensures r.Err? ==> r.error == SenderFailed && TurnFailed(rc, shown, start, gpu.log, |shown|, attempt, SenderFailed)
  {
    ghost var drawing := [Call.ClearRenderTargetView(rc.rtv.view.ptr.id, ClearColor)] + FrameCalls(shown);
    FrameCallsSucceed(shown);
    var ok;
    ghost var failure;
    ok, failure := Publish(gpu, rc.rtv.texture, drawing);
    attempt := drawing + failure;
    assert start + drawing + failure == start + (drawing + failure);
    assert shown[..|shown|] == shown;
    assert attempt[..|drawing|] == drawing && attempt[|drawing|..] == failure;
    if ok {
      r := Ok(());
      assert start + drawing + [Call.SendTexture(rc.rtv.texture.ptr.id, true), Call.HoldFps(Fps, true)] == start + (drawing + [Call.SendTexture(rc.rtv.texture.ptr.id, true), Call.HoldFps(Fps, true)]);
    } else {
      r := Err(SenderFailed);
      FailedTurnStops(rc, shown, |shown|, attempt);
    }
  }

  /** A turn whose drawing failed at item `handled`: the clear, the calls
      of the items before it, then its failure, which is where the turn
      stops, with the item layer's error. */
  lemma DrawnThenFailed(rc: RenderContext, items: seq<RenderItem>, handled: nat, start: seq<Call>, failure: seq<Call>)
    requires rc.rtv.view.ptr.At? && rc.rtv.texture.ptr.At?
    requires handled < |items| && ItemFailure(failure, handled, items[handled].data)
    ensures
      var clear := Call.ClearRenderTargetView(rc.rtv.view.ptr.id, ClearColor);
      TurnFailed(rc, items, start, start + [clear] + FrameCalls(items[..handled]) + failure, handled,
                 [clear] + FrameCalls(items[..handled]) + failure, ItemFailed)
  {
    var done := [Call.ClearRenderTargetView(rc.rtv.view.ptr.id, ClearColor)] + FrameCalls(items[..handled]);
    var attempt := done + failure;
    assert start + done + failure == start + (done + failure);
    assert attempt[..|done|] == done && attempt[|done|..] == failure;
    FailedTurnStops(rc, items, handled, attempt);
  }

  /** One turn of `main`'s loop: draw the frame, publish the target's
      texture, hold the frame rate; the first failing step ends the turn
      with its error and the calls of this `attempt`, which stopped at item
      `handled` (the number of items once drawing is done).  Besides the
      log and the items' animation data, only the texture's count changes:
      a turn that reaches the send leaks one reference to it. */
  method RunFrame(gpu: Gpu, rc: RenderContext, items: array<RenderItem>)
    returns (r: Result<()>, ghost handled: nat, ghost attempt: seq<Call>)
    requires gpu.Valid() && gpu.com.Owns(rc.rtv.view) && gpu.com.Owns(rc.rtv.texture)
    modifies gpu, gpu.com, items
    ensures gpu.Valid() && gpu.com.Owns(rc.rtv.view) && gpu.com.Owns(rc.rtv.texture)
    ensures gpu.resources == old(gpu.resources) && gpu.contents == old(gpu.contents) && gpu.mapped == old(gpu.mapped)
    ensures handled <= items.Length && (r.Ok? ==> handled == items.Length) && rc.rtv.texture.ptr.id in old(gpu.com.counts)
    ensures gpu.com.State() == Leaked(old(gpu.com.State()), rc.rtv.texture.ptr.id, if handled == items.Length then 1 else 0)
    ensures SameItems(items[..], old(items[..]))
    ensures r.Ok? ==> gpu.log == old(gpu.log) + Frame(rc, items[..])
    ensures r.Err? ==> TurnFailed(rc, items[..], old(gpu.log), gpu.log, handled, attempt, r.error)
  {
    OwnedIsAlive(gpu.com.State(), rc.rtv.texture.ptr.id);
    ghost var start := gpu.log;
    ghost var ledger := gpu.com.State();
    ghost var clear := Call.ClearRenderTargetView(rc.rtv.view.ptr.id, ClearColor);
    ghost var failure;
    r, handled, failure := Render(gpu, rc, items);
    if r.Err? {
      attempt := [clear] + FrameCalls(items[..handled]) + failure;
      DrawnThenFailed(rc, items[..], handled, start, failure);
      assert Leaked(ledger, rc.rtv.texture.ptr.id, 0) == ledger;
    } else {
      handled := items.Length;
      assert items[..handled] == items[..];
      r, attempt := PublishFrame(gpu, rc, items[..], start);
    }
  }

  /** Every call of a frame that went through succeeded. */
  lemma FrameSucceeds(rc: RenderContext, items: seq<RenderItem>)
    requires rc.rtv.view.ptr.At? && rc.rtv.texture.ptr.At?
    ensures forall c :: c in Frame(rc, items) ==> Succeeded(c)
  {
    FrameCallsSucceed(items);
  }

  /** A frame of `n` items is `4n + 3` calls: clearing, four per item,
      sending and holding. */
  lemma FrameLength(rc: RenderContext, items: seq<RenderItem>)
    requires rc.rtv.view.ptr.At? && rc.rtv.texture.ptr.At?
    ensures |Frame(rc, items)| == 4 * |items| + 3
  {
    FrameCallsLength(items);
  }

  /** The frames of two histories, one after the other, are the frames of
      the two together. */
  lemma {:induction false} FramesAppend(rc: RenderContext, a: seq<seq<RenderItem>>, b: seq<seq<RenderItem>>)
    requires rc.rtv.view.ptr.At? && rc.rtv.texture.ptr.At?
    ensures Frames(rc, a + b) == Frames(rc, a) + Frames(rc, b)
    decreases |b|
  {
    if |b| == 0 {
      assert a + b == a;
    } else {
      var m := |b| - 1;
      assert (a + b)[..|a| + m] == a + b[..m];
      FramesAppend(rc, a, b[..m]);
    }
  }

  /** Frames of `n` items each are `4n + 3` calls each. */
  lemma {:induction false} FramesLength(rc: RenderContext, history: seq<seq<RenderItem>>, n: nat)
    requires rc.rtv.view.ptr.At? && rc.rtv.texture.ptr.At?
    requires forall i :: 0 <= i < |history| ==> |history[i]| == n
    ensures |Frames(rc, history)| == |history| * (4 * n + 3)
    decreases |history|
  {
    if |history| > 0 {
      var m := |history| - 1;
      FramesLength(rc, history[..m], n);
      FrameLength(rc, history[m]);
      assert |history| * (4 * n + 3) == m * (4 * n + 3) + (4 * n + 3);
    }
  }

  /** Frame `f` of a history comes right after the frames before it and
      right before the frames after it, so each frame draws, sends and holds
      before the next one starts; with `n` items a frame, it starts at call
      `f * (4n + 3)`. */
  lemma FramesAt(rc: RenderContext, history: seq<seq<RenderItem>>, n: nat, f: nat)
    requires rc.rtv.view.ptr.At? && rc.rtv.texture.ptr.At?
    requires forall i :: 0 <= i < |history| ==> |history[i]| == n
    requires f < |history|
    ensures Frames(rc, history) == Frames(rc, history[..f]) + Frame(rc, history[f]) + Frames(rc, history[f + 1..])
    ensures |Frames(rc, history[..f])| == f * (4 * n + 3)
  {
    var (before, after) := (history[..f], history[f + 1..]);
    assert history == before + [history[f]] + after;
    FramesAppend(rc, before + [history[f]], after);
    FramesAppend(rc, before, [history[f]]);
    assert Frames(rc, [history[f]]) == Frame(rc, history[f]) by {
      assert [history[f]][..0] == [];
    }
    FramesLength(rc, before, n);
  }

  /** Having the same textures and flags carries over. */
  lemma SameItemsTrans(a: seq<RenderItem>, b: seq<RenderItem>, c: seq<RenderItem>)
    requires SameItems(a, b) && SameItems(b, c)
    ensures SameItems(a, c)
  {
  }

  /** One more frame drawing items like `first` keeps the history's items
      like `first`. */
  lemma SameHistorySnoc(history: seq<seq<RenderItem>>, shown: seq<RenderItem>, first: seq<RenderItem>)
    requires (forall f :: 0 <= f < |history| ==> SameItems(history[f], first)) && SameItems(shown, first)
    ensures forall f :: 0 <= f < |history| + 1 ==> SameItems((history + [shown])[f], first)
  {
  }

  /** The turn of the frame loop after the frames of `history`, made from
      log `base` and ledger `ledger`: the loop's state with one more frame,
      or the failing turn. */
  method NextFrame(gpu: Gpu, rc: RenderContext, items: array<RenderItem>, ghost history: seq<seq<RenderItem>>,
                   ghost first: seq<RenderItem>, ghost ledger: Ledger, ghost base: seq<Call>)
    returns (r: Result<()>, ghost handled: nat, ghost attempt: seq<Call>)
    requires gpu.Valid() && gpu.com.Owns(rc.rtv.view) && gpu.com.Owns(rc.rtv.texture)
    requires ledger.owned[rc.rtv.texture.ptr.id] > 0 && rc.rtv.texture.ptr.id in ledger.counts
    requires gpu.com.State() == Leaked(ledger, rc.rtv.texture.ptr.id, |history|)
    requires SameItems(items[..], first) && gpu.log == base + Frames(rc, history)
    modifies gpu, gpu.com, items
    ensures gpu.Valid() && gpu.com.Owns(rc.rtv.view) && gpu.com.Owns(rc.rtv.texture)
    ensures gpu.resources == old(gpu.resources) && gpu.contents == old(gpu.contents) && gpu.mapped == old(gpu.mapped)
    ensures SameItems(items[..], first)
    ensures r.Ok? ==>
      && gpu.com.State() == Leaked(ledger, rc.rtv.texture.ptr.id, |history| + 1)
      && gpu.log == base + Frames(rc, history + [items[..]])
    ensures r.Err? ==>
      && gpu.com.State() == Leaked(ledger, rc.rtv.texture.ptr.id, |history| + if handled == items.Length then 1 else 0)
      && TurnFailed(rc, items[..], base + Frames(rc, history), gpu.log, handled, attempt, r.error)
  {
    ghost var before := items[..];
    r, handled, attempt := RunFrame(gpu, rc, items);
    SameItemsTrans(items[..], before, first);
    LeakedAgain(ledger, rc.rtv.texture.ptr.id, |history|, if handled == items.Length then 1 else 0);
    if r.Ok? {
      FramesSnoc(rc, history, items[..], base);
    }
  }

  /** `main`'s frame loop, run for `frames` frames: each turn draws the items,
      publishes the target's texture and holds the frame rate, and the
      first failing step ends the loop with its error.  `history` holds the
      items as each completed frame drew them, all with the textures and
      flags the loop started with; a failed turn made the calls of
      `attempt`, stopping at item `handled`.  Every turn that reached the
      send leaked one reference to the texture. */
  method RunFrames(gpu: Gpu, rc: RenderContext, items: array<RenderItem>, frames: nat)
    returns (r: Result<()>, ghost history: seq<seq<RenderItem>>, ghost handled: nat, ghost attempt: seq<Call>)
    requires gpu.Valid() && gpu.com.Owns(rc.rtv.view) && gpu.com.Owns(rc.rtv.texture)
    modifies gpu, gpu.com, items
    ensures gpu.Valid() && gpu.com.Owns(rc.rtv.view) && gpu.com.Owns(rc.rtv.texture)
    ensures gpu.resources == old(gpu.resources) && gpu.contents == old(gpu.contents) && gpu.mapped == old(gpu.mapped)
    ensures rc.rtv.texture.ptr.id in old(gpu.com.counts)
    ensures gpu.com.State() ==
      Leaked(old(gpu.com.State()), rc.rtv.texture.ptr.id, |history| + if r.Err? && handled == items.Length then 1 else 0)
    ensures SameItems(items[..], old(items[..]))
    ensures forall f :: 0 <= f < |history| ==> SameItems(history[f], old(items[..]))
    ensures r.Ok? ==> |history| == frames && gpu.log == old(gpu.log) + Frames(rc, history)
    ensures r.Err? ==>
      |history| < frames && TurnFailed(rc, items[..], old(gpu.log) + Frames(rc, history), gpu.log, handled, attempt, r.error)
  {
    history := [];
    ghost var first := items[..];
    ghost var ledger := gpu.com.State();
    OwnedIsAlive(ledger, rc.rtv.texture.ptr.id);
    assert Leaked(ledger, rc.rtv.texture.ptr.id, 0) == ledger;
    var frame := 0;
    while frame < frames
      invariant gpu.Valid() && gpu.com.Owns(rc.rtv.view) && gpu.com.Owns(rc.rtv.texture)
      invariant gpu.resources == old(gpu.resources) && gpu.contents == old(gpu.contents) && gpu.mapped == old(gpu.mapped)
      invariant frame == |history| <= frames
      invariant gpu.com.State() == Leaked(ledger, rc.rtv.texture.ptr.id, |history|)
      invariant SameItems(items[..], first)
      invariant forall f :: 0 <= f < |history| ==> SameItems(history[f], first)
      invariant gpu.log == old(gpu.log) + Frames(rc, history)
    {
      var turn;
      turn, handled, attempt := NextFrame(gpu, rc, items, history, first, ledger, old(gpu.log));
      if turn.Err? {
        return turn, history, handled, attempt;
      }
      SameHistorySnoc(history, items[..], first);
      history := history + [items[..]];
      frame := frame + 1;
    }
    r, handled, attempt := Ok(()), items.Length, [];
  }

  // ---------------------------------------------------------------- main

  /** The calls of a start of `main` after the sender's setup that failed
      with `error`: the context's construction `created` failed, with the
      error of its failing call; or the context was built and handing its
      device to the sender failed. */
  ghost predicate ContextFailed(rest: seq<Call>, created: seq<Call>, error: Error) {
    if |rest| == |created| then
      && rest == created && FailFast(0, created, ScreenWidth, ScreenHeight, false)
      && |created| > 0 && error == StepError(created[|created| - 1])
    else
      && FailFast(0, created, ScreenWidth, ScreenHeight, true)
      && |rest| == |created| + 1 && rest[..|created|] == created
      && rest[|created|].OpenDirectX11? && !Succeeded(rest[|created|]) && error == SenderFailed
  }

  /** The calls of a start of `main` that failed with `error`: creating
      the sender failed, or what came after it failed. */
  ghost predicate StartFailed(begun: seq<Call>, created: seq<Call>, error: Error) {
    || (begun == [Call.CreateSender(false)] && error == SenderFailed)
    || (|begun| > 0 && begun[0] == Call.CreateSender(true) && ContextFailed(begun[1..], created, error))
  }

  /** Cloning the context's device for the item loop, then handing the
      device itself to the sender. */
  method HandDevice(gpu: Gpu, rc: RenderContext) returns (ok: bool, device: ComPtr)
    requires gpu.Valid() && gpu.com.Owns(rc.device)
    modifies gpu, gpu.com
    ensures gpu.Valid() && device.ptr == rc.device.ptr
    ensures gpu.com.owned == old(gpu.com.owned) + multiset{rc.device.ptr.id}
    ensures gpu.log == old(gpu.log) + [Call.OpenDirectX11(rc.device.ptr.id, ok)]
  {
    device := gpu.com.Clone(rc.device);
    ok := OpenDirectX11(gpu, rc.device);
  }

  /** A built context holds one reference to each of its objects on top of
      what was held before. */
  lemma ContextHeld(rc: RenderContext, before: multiset<nat>)
    requires Built(rc, ScreenWidth, ScreenHeight)
    ensures var held := before + Held(Unwinding(rc));
      && held[rc.rtv.view.ptr.id] > 0 && held[rc.rtv.texture.ptr.id] > 0
      && held[rc.world.blendState.state.ptr.id] > 0 && held[rc.device.ptr.id] > 0
  {
    HeldUnwinding(rc);
  }

  method StartContext(gpu: Gpu) returns (r: Result<RenderContext>, device: ComPtr, ghost created: seq<Call>, ghost rest: seq<Call>)
    requires gpu.Valid()
    modifies gpu, gpu.com
    ensures gpu.Valid() && gpu.log == old(gpu.log) + rest
    ensures r.Err? ==> ContextFailed(rest, created, r.error)
    ensures r.Ok? ==>
      && Built(r.value, ScreenWidth, ScreenHeight)
      && gpu.com.Owns(r.value.rtv.view) && gpu.com.Owns(r.value.rtv.texture)
      && gpu.com.Owns(r.value.world.blendState.state) && gpu.com.Owns(r.value.device)
      && device.ptr == r.value.device.ptr && gpu.com.Owns(device)
      && FailFast(0, created, ScreenWidth, ScreenHeight, true)
      && rest == created + [Call.OpenDirectX11(r.value.device.ptr.id, true)]
  {
    var rc;
    rc, created := CreateRenderContext(gpu, ScreenWidth, ScreenHeight);
    if rc.Err? {
      return Err(rc.error), Dangling(), created, created;
    }
    ContextHeld(rc.value, old(gpu.com.owned));
    var handed;
    handed, device := HandDevice(gpu, rc.value);
    rest := created + [Call.OpenDirectX11(rc.value.device.ptr.id, handed)];
    if !handed {
      assert rest[..|created|] == created;
      return Err(SenderFailed), device, created, rest;
    }
    r := Ok(rc.value);
  }

  /** The start of `main`: the sender's setup, the rendering context for
      the screen, a clone of the device for the item loop, and handing the
      context's device to the sender; the first failure is the error and
      nothing after it is called.  `created` are the calls of the context's
      construction and `begun` all calls of the start.  On success the
      context is built for the screen, its render target, blend state and
      device are held, and `device` is the clone. */
  method Start(gpu: Gpu) returns (r: Result<RenderContext>, device: ComPtr, ghost created: seq<Call>, ghost begun: seq<Call>)
    requires gpu.Valid()
    modifies gpu, gpu.com
    ensures gpu.Valid() && gpu.log == old(gpu.log) + begun
    ensures r.Err? ==> StartFailed(begun, created, r.error)
    ensures r.Ok? ==>
      && Built(r.value, ScreenWidth, ScreenHeight)
      && gpu.com.Owns(r.value.rtv.view) && gpu.com.Owns(r.value.rtv.texture)
      && gpu.com.Owns(r.value.world.blendState.state) && gpu.com.Owns(r.value.device)
      && device.ptr == r.value.device.ptr && gpu.com.Owns(device)
      && FailFast(0, created, ScreenWidth, ScreenHeight, true)
      && begun == [Call.CreateSender(true)] + created + [Call.OpenDirectX11(r.value.device.ptr.id, true)]
  {
    var sender := CreateSender(gpu);
    if !sender {
      return Err(SenderFailed), Dangling(), [], [Call.CreateSender(false)];
    }
    ghost var rest;
    r, device, created, rest := StartContext(gpu);
    begun := [Call.CreateSender(true)] + rest;
    assert begun[1..] == rest;
    assert old(gpu.log) + [Call.CreateSender(true)] + rest == old(gpu.log) + ([Call.CreateSender(true)] + rest);
  }

  /** What the rest of `main` did: the calls of the item loop (`loaded`),
      the definition it stopped at (`failed`, the number of definitions
      when every item was made), the items made, the items as each
      completed frame drew them, and for a failing turn the items it drew
      (`shown`), the item it stopped at (`handled`) and its calls. */
  datatype Trace = Trace(loaded: seq<Call>, failed: nat, made: seq<RenderItem>, history: seq<seq<RenderItem>>,
                         shown: seq<RenderItem>, handled: nat, attempt: seq<Call>)

  /** The calls of `main` once the context `rc` exists, from log `before`
      to log `after`, as trace `t` describes them, ending with `r`:
      - the items are made one definition after the other; a failing turn
        aborts `main` with its error, before the world is bound and before
        any frame;
      - otherwise the world is bound once, after the items, and the frames
        follow: all `frames` of them, or the completed ones and a failing
        turn, whose error is the item layer's when drawing failed and the
        sender's when publishing did. */
  ghost predicate Served(before: seq<Call>, after: seq<Call>, rc: RenderContext, decoded: seq<Option<Image>>, frames: nat,
                         r: Result<()>, t: Trace)
    requires rc.rtv.view.ptr.At? && rc.rtv.texture.ptr.At? && rc.world.blendState.state.ptr.At?
    requires |decoded| == |Definitions|
  {
    && t.failed <= |Definitions| && ItemsMade(t.loaded, decoded, t.failed)
    && (if t.failed < |Definitions| then
          && r.Err? && after == before + t.loaded + t.attempt
          && ItemNotMade(t.attempt, t.failed, decoded[t.failed], r.error)
        else
          && |t.made| == |Definitions|
          && (forall i :: 0 <= i < |t.made| ==>
                decoded[i].Some? && MadeFrom(t.made[i], Definitions[i], decoded[i].value, ScreenSize))
          && Presented(before + t.loaded, after, rc, t.made, frames, r, t.history, t.shown, t.handled, t.attempt))
  }

  /** What the binding of the world and the frame loop leave in the log
      after `start`, drawing `all`: the setup calls, then the completed
      frames, all with the same items; on success `frames` of them; on
      failure fewer, then the failing turn, whose error is the item layer's
      when an item failed and the sender's otherwise. */
  ghost predicate Presented(start: seq<Call>, after: seq<Call>, rc: RenderContext, all: seq<RenderItem>, frames: nat,
                            r: Result<()>, history: seq<seq<RenderItem>>, shown: seq<RenderItem>,
                            handled: nat, attempt: seq<Call>)
    requires rc.rtv.view.ptr.At? && rc.rtv.texture.ptr.At? && rc.world.blendState.state.ptr.At?
  {
    && (forall f :: 0 <= f < |history| ==> SameItems(history[f], all))
    && (r.Ok? ==> |history| == frames && after == start + SetupCalls(rc) + Frames(rc, history))
    && (r.Err? ==>
          && r.error == (if handled < |shown| then ItemFailed else SenderFailed)
          && |history| < frames && SameItems(shown, all)
          && TurnFailed(rc, shown, start + SetupCalls(rc) + Frames(rc, history), after, handled, attempt, r.error))
  }

  /** The items `all` shown by `main` once they are made: the one-time
      binding of the world, then the frame loop cut to `frames` frames,
      with the items in an array that the frames update in place. */
  method Present(gpu: Gpu, rc: RenderContext, all: seq<RenderItem>, frames: nat)
    returns (r: Result<()>, ghost history: seq<seq<RenderItem>>, ghost shown: seq<RenderItem>,
             ghost handled: nat, ghost attempt: seq<Call>)
    requires gpu.Valid() && gpu.com.Owns(rc.rtv.view) && gpu.com.Owns(rc.rtv.texture)
    requires gpu.com.Owns(rc.world.blendState.state)
    modifies gpu, gpu.com
    ensures gpu.Valid()
    ensures Presented(old(gpu.log), gpu.log, rc, all, frames, r, history, shown, handled, attempt)
  {
    ghost var prefix := gpu.log;
    SetupRenderWorld(gpu, rc);
    var items := new RenderItem[|all|](i requires 0 <= i < |all| => all[i]);
    assert items[..] == all;
    r, history, handled, attempt := RunFrames(gpu, rc, items, frames);
    shown := items[..];
    if r.Ok? {
      assert prefix + SetupCalls(rc) + Frames(rc, history) == prefix + (SetupCalls(rc) + Frames(rc, history));
    } else {
      FailedTurnStops(rc, shown, handled, attempt);
    }
  }

  /** The rest of `main` once the context exists: one item per definition,
      in definition order, made with the clone `device`, then the one-time
      binding of the world, then the frame loop cut to `frames` frames. */
  method Serve(gpu: Gpu, rc: RenderContext, device: ComPtr, decoded: seq<Option<Image>>, frames: nat)
    returns (r: Result<()>, ghost t: Trace)
    requires gpu.Valid() && gpu.com.Owns(device)
    requires gpu.com.Owns(rc.rtv.view) && gpu.com.Owns(rc.rtv.texture) && gpu.com.Owns(rc.world.blendState.state)
    requires |decoded| == |Definitions| && forall i :: 0 <= i < |decoded| && decoded[i].Some? ==> IsRgba8(decoded[i].value)
    modifies gpu, gpu.com
    ensures gpu.Valid()
    ensures Served(old(gpu.log), gpu.log, rc, decoded, frames, r, t)
  {
    var list, failed, loaded, failure := CreateItems(gpu, device, Definitions, decoded, ScreenSize);
    if list.Err? {
      return Err(list.error), Trace(loaded, failed, [], [], [], 0, failure);
    }
    assert gpu.log == old(gpu.log) + loaded;
    ghost var history, shown, handled, attempt;
    r, history, shown, handled, attempt := Present(gpu, rc, list.value, frames);
    t := Trace(loaded, failed, list.value, history, shown, handled, attempt);
  }

  /** `main`, with the images the loader decodes given as `decoded` (one per
      definition, `None` where a file could not be read or decoded) and the
      endless frame loop cut to `frames` frames: the start, whose first
      failure ends `main`; then, with the context `started`, the items, the
      binding of the world and the frames, as `Served` describes them. */
  method Run(gpu: Gpu, decoded: seq<Option<Image>>, frames: nat)
    returns (r: Result<()>, ghost started: Result<RenderContext>, ghost created: seq<Call>, ghost begun: seq<Call>,
             ghost t: Trace)
    requires gpu.Valid()
    requires |decoded| == |Definitions| && forall i :: 0 <= i < |decoded| && decoded[i].Some? ==> IsRgba8(decoded[i].value)
    modifies gpu, gpu.com
    ensures gpu.Valid()
    ensures r.Ok? ==> started.Ok? && Built(started.value, ScreenWidth, ScreenHeight)
    ensures started.Err? ==> r == Err(started.error) && gpu.log == old(gpu.log) + begun && StartFailed(begun, created, r.error)
    ensures started.Ok? ==>
      && Built(started.value, ScreenWidth, ScreenHeight) && FailFast(0, created, ScreenWidth, ScreenHeight, true)
      && begun == [Call.CreateSender(true)] + created + [Call.OpenDirectX11(started.value.device.ptr.id, true)]
      && Served(old(gpu.log) + begun, gpu.log, started.value, decoded, frames, r, t)
  {
    var context, device;
    context, device, created, begun := Start(gpu);
    started := context;
    if context.Err? {
      return Err(context.error), started, created, begun, Trace([], 0, [], [], [], 0, []);
    }
    r, t := Serve(gpu, context.value, device, decoded, frames);
  }
}
