/**
  Textures, render targets and blend states of src/dx/texture.rs.  These
  use the windows crate, whose creation calls fill an `Option` that already
  owns the new object: a failing HRESULT is returned by `?`, and an empty
  `Option` becomes an error through `.context(..)?`.
 */
module Texture {
  import opened Hr
  import opened Com
  import opened Native

  /** A creation call of the windows crate: the outcome the caller sees. */
  predicate WindowsCreation(c: Call) {
    c.CreateTexture2D? || c.CreateRenderTargetView? || c.CreateBlendState?
  }

  /** `call(..)?` followed by `option.context(..)?`: the failing HRESULT,
      or an error for an empty out-parameter, or the object it holds. */
  function WindowsResult(c: Call): (r: Result<ComPtr>)
    requires WindowsCreation(c)
    ensures r.Ok? <==> Succeeded(c)
    ensures r.Ok? ==> r.value.ptr == c.out
    ensures r.Err? ==> r.error == if Failed(c.hr) then CallFailed(c.hr) else NothingReturned
  {
    if Failed(c.hr) then Err(CallFailed(c.hr))
    else if c.out == Null then Err(NothingReturned)
    else Ok(ComPtr(c.out))
  }

  // ---------------------------------------------------------------- render target

  /** The descriptor `RenderTargetTexture::create` builds: the screen's
      width and height, one mip level and one slice, BGRA8 (the format
      Spout2 supports best), one sample, usable as render target and as
      shader resource, and shareable with other processes. */
  function RenderTargetDesc(width: U32, height: U32): (d: TextureDesc)
    ensures d.width == width && d.height == height && d.mipLevels == 1 && d.arraySize == 1
    ensures d.format == B8G8R8A8Unorm && d.sampleCount == 1 && d.sampleQuality == 0
    ensures d.usage == UsageDefault && d.bindFlags == {BindRenderTarget, BindShaderResource}
    ensures d.cpuAccess == {} && d.miscFlags == {MiscShared}
  {
    TextureDesc(width, height, 1, 1, B8G8R8A8Unorm, 1, 0, UsageDefault,
      {BindRenderTarget, BindShaderResource}, {}, {MiscShared})
  }

  /** `RenderTargetTexture`: a texture and the render-target view over it. */
  datatype RenderTargetTexture = RenderTargetTexture(texture: ComPtr, view: ComPtr)

  /** `device.CreateTexture2D(&desc, init, Some(&mut texture))?` followed by
      `texture.context(..)?`: one call; on success the returned handle owns
      a fresh texture. */
  method CreateOwnedTexture(gpu: Gpu, desc: TextureDesc, init: Option<SubresourceData>) returns (r: Result<ComPtr>)
    requires gpu.Valid()
    modifies gpu, gpu.com
    ensures gpu.Valid() && gpu.mapped == old(gpu.mapped) && gpu.contents == old(gpu.contents)
    ensures |gpu.log| == |old(gpu.log)| + 1 && gpu.log[..|old(gpu.log)|] == old(gpu.log)
    ensures var c := gpu.log[|old(gpu.log)|];
      c.CreateTexture2D? && c.textureDesc == desc && c.init == init && r == WindowsResult(c)
    ensures r.Err? ==> gpu.com.State() == old(gpu.com.State()) && gpu.resources == old(gpu.resources)
    ensures r.Ok? ==>
      && r.value.ptr.At? && r.value.ptr.id !in old(gpu.com.counts) && gpu.com.Owns(r.value)
      && gpu.com.counts == old(gpu.com.counts)[r.value.ptr.id := 1]
      && gpu.com.owned == old(gpu.com.owned) + multiset{r.value.ptr.id} && gpu.com.raw == old(gpu.com.raw)
      && gpu.resources == old(gpu.resources)[r.value.ptr.id := TextureObject(desc)]
  {
    ghost var start := gpu.com.State();
    var hr, out := gpu.CreateTexture2D(desc, init);
    if Failed(hr) {
      return Err(CallFailed(hr));
    }
    if out == Null {
      return Err(NothingReturned);
    }
    r := gpu.com.Adopt(out);
    AdoptedCreatedHolders(start, out.id);
  }

  /** `device.CreateRenderTargetView(&texture, None, Some(&mut view))?`
      followed by `view.context(..)?` inside `RenderTargetTexture::create`:
      on failure the function returns, dropping its texture handle. */
  method CreateViewOrRelease(gpu: Gpu, texture: ComPtr) returns (r: Result<ComPtr>)
    requires gpu.Valid() && gpu.com.Owns(texture)
    requires texture.ptr.id in gpu.resources && gpu.resources[texture.ptr.id].TextureObject?
    modifies gpu, gpu.com
    ensures gpu.Valid() && gpu.mapped == old(gpu.mapped) && gpu.contents == old(gpu.contents)
    ensures |gpu.log| == |old(gpu.log)| + 1 && gpu.log[..|old(gpu.log)|] == old(gpu.log)
    ensures var c := gpu.log[|old(gpu.log)|];
      c.CreateRenderTargetView? && c.texture == texture.ptr.id && r == WindowsResult(c)
    ensures texture.ptr.id in old(gpu.com.counts) && old(gpu.com.counts)[texture.ptr.id] > 0
    ensures r.Err? ==>
      && gpu.com.counts == old(gpu.com.counts)[texture.ptr.id := old(gpu.com.counts)[texture.ptr.id] - 1]
      && gpu.com.owned == old(gpu.com.owned) - multiset{texture.ptr.id} && gpu.com.raw == old(gpu.com.raw)
      && gpu.resources == old(gpu.resources)
    ensures r.Ok? ==>
      && r.value.ptr.At? && r.value.ptr.id !in old(gpu.com.counts)
      && gpu.com.Owns(r.value) && gpu.com.Owns(texture)
      && gpu.com.owned == old(gpu.com.owned) + multiset{r.value.ptr.id} && gpu.com.raw == old(gpu.com.raw)
      && gpu.resources == old(gpu.resources)[r.value.ptr.id := RenderTargetViewObject(texture.ptr.id)]
  {
    var _ := gpu.com.Borrow(texture);
    var hr, out := gpu.CreateRenderTargetView(texture.ptr.id);
    ghost var made := gpu.com.State();
    if Failed(hr) || out == Null {
      gpu.com.Drop(texture);
      ReleasedHolders(made, texture.ptr.id);
      return Err(if Failed(hr) then CallFailed(hr) else NothingReturned);
    }
    r := gpu.com.Adopt(out);
    AdoptedCreatedHolders(old(gpu.com.State()), out.id);
  }

  /** The calls of `RenderTargetTexture::create` that gave `r`: the
      texture's creation from the render target's descriptor; when it
      failed, its error and nothing more; otherwise a view over the texture
      it returned, whose outcome is the result's.  A failure carries the
      windows crate's error of the failing call. */
  ghost predicate TargetCalls(calls: seq<Call>, width: U32, height: U32, r: Result<RenderTargetTexture>) {
    && 1 <= |calls| <= 2
    && calls[0].CreateTexture2D? && calls[0].textureDesc == RenderTargetDesc(width, height) && calls[0].init == None
    && (|calls| == 2 <==> Succeeded(calls[0]))
    && (|calls| == 1 ==> r.Err?)
    && (|calls| == 2 ==>
          && calls[1].CreateRenderTargetView? && calls[0].out.At? && calls[1].texture == calls[0].out.id
          && (r.Ok? <==> Succeeded(calls[1])))
    && (r.Err? ==> !Succeeded(calls[|calls| - 1]) && r.error == WindowsResult(calls[|calls| - 1]).error)
  }

  /** `RenderTargetTexture::create`: first the texture; when that fails or
      yields nothing, the error is returned and no view is asked for.
      Otherwise a view over that same texture; when that fails, the texture
      is released on the way out and the error is returned.  A failed
      creation leaves no reference held. */
  method CreateRenderTarget(gpu: Gpu, width: U32, height: U32) returns (r: Result<RenderTargetTexture>, ghost calls: seq<Call>)
    requires gpu.Valid()
    modifies gpu, gpu.com
    ensures gpu.Valid() && gpu.mapped == old(gpu.mapped) && gpu.contents == old(gpu.contents)
    ensures gpu.log == old(gpu.log) + calls && TargetCalls(calls, width, height, r)
    ensures r.Err? ==> gpu.com.owned == old(gpu.com.owned) && gpu.com.raw == old(gpu.com.raw)
    ensures r.Ok? ==>
      var (t, v) := (r.value.texture.ptr, r.value.view.ptr);
      && t == calls[0].out && t.At? && v.At? && t.id != v.id
      && gpu.com.Owns(r.value.texture) && gpu.com.Owns(r.value.view)
      && gpu.com.owned == old(gpu.com.owned) + multiset{t.id, v.id} && gpu.com.raw == old(gpu.com.raw)
      && gpu.resources == old(gpu.resources)[t.id := TextureObject(RenderTargetDesc(width, height))][v.id := RenderTargetViewObject(t.id)]
  {
    ghost var n := |gpu.log|;
    var texture := CreateOwnedTexture(gpu, RenderTargetDesc(width, height), None);
    ghost var first := gpu.log[n];
    if texture.Err? {
      return Err(texture.error), [first];
    }
    assert Succeeded(first) && first.out == texture.value.ptr;
    ghost var made := gpu.log;
    var view := CreateViewOrRelease(gpu, texture.value);
    ghost var second := gpu.log[n + 1];
    assert gpu.log == made + [second];
    calls := [first, second];
    if view.Err? {
      return Err(view.error), calls;
    }
    r := Ok(RenderTargetTexture(texture.value, view.value));
  }

  /** `RenderTargetTexture::bind`: exactly one render target, this view.
      The slice holds a clone of the view, dropped after the call, so the
      view's count is as it was. */
  method BindTarget(gpu: Gpu, rt: RenderTargetTexture)
    requires gpu.Valid() && gpu.com.Owns(rt.view)
    modifies gpu, gpu.com
    ensures gpu.Valid() && gpu.com.State() == old(gpu.com.State())
    ensures gpu.resources == old(gpu.resources) && gpu.contents == old(gpu.contents) && gpu.mapped == old(gpu.mapped)
    ensures gpu.log == old(gpu.log) + [Call.OMSetRenderTargets([rt.view.ptr.id])]
  {
    CloneThenDropIsNoOp(gpu.com.State(), rt.view.ptr.id);
    var copy := gpu.com.Clone(rt.view);
    gpu.Record(Call.OMSetRenderTargets([copy.ptr.id]));
    gpu.com.Drop(copy);
  }

  /** `RenderTargetTexture::unbind`: no render target. */
  method UnbindTarget(gpu: Gpu)
    requires gpu.Valid()
    modifies gpu
    ensures gpu.Valid()
    ensures gpu.resources == old(gpu.resources) && gpu.contents == old(gpu.contents) && gpu.mapped == old(gpu.mapped)
    ensures gpu.log == old(gpu.log) + [Call.OMSetRenderTargets([])]
  {
    gpu.Record(Call.OMSetRenderTargets([]));
  }

  /** `RenderTargetTexture::clear`: fills this view with `color`. */
  method ClearTarget(gpu: Gpu, rt: RenderTargetTexture, color: Rgba)
    requires gpu.Valid() && gpu.com.Owns(rt.view)
    modifies gpu
    ensures gpu.Valid()
    ensures gpu.resources == old(gpu.resources) && gpu.contents == old(gpu.contents) && gpu.mapped == old(gpu.mapped)
    ensures gpu.log == old(gpu.log) + [Call.ClearRenderTargetView(rt.view.ptr.id, color)]
  {
    gpu.Record(Call.ClearRenderTargetView(rt.view.ptr.id, color));
  }

  // ---------------------------------------------------------------- blend state

  /** One render target's blending in `alpha_blend_state`: colour is
      source-alpha over inverse-source-alpha, added; alpha keeps the
      source's (one and zero, added); every channel is written. */
  function AlphaBlendTarget(): (t: RenderTargetBlendDesc)
    ensures t.blendEnable
    ensures t.srcBlend == BlendSrcAlpha && t.destBlend == BlendInvSrcAlpha && t.blendOp == BlendOpAdd
    ensures t.srcBlendAlpha == BlendOne && t.destBlendAlpha == BlendZero && t.blendOpAlpha == BlendOpAdd
    ensures t.writeMask == ColorWriteEnableAll
  {
    RenderTargetBlendDesc(true, BlendSrcAlpha, BlendInvSrcAlpha, BlendOpAdd, BlendOne, BlendZero, BlendOpAdd, ColorWriteEnableAll)
  }

  /** The blend description of `alpha_blend_state`: no alpha-to-coverage,
      no independent blending, and the same entry for all 8 render
      targets. */
  function AlphaBlendDesc(): (d: BlendDesc)
    ensures !d.alphaToCoverageEnable && !d.independentBlendEnable
    ensures |d.renderTarget| == 8
    ensures forall i :: 0 <= i < 8 ==> d.renderTarget[i] == AlphaBlendTarget()
  {
    BlendDesc(false, false, seq(8, _ => AlphaBlendTarget()))
  }

  /** `BlendState`. */
  datatype BlendState = BlendState(state: ComPtr)

  /** `BlendState::alpha_blend_state`: one `CreateBlendState` call with the
      alpha blend description; its failure or an empty result is an error. */
  method CreateAlphaBlendState(gpu: Gpu) returns (r: Result<BlendState>)
    requires gpu.Valid()
    modifies gpu, gpu.com
    ensures gpu.Valid() && gpu.mapped == old(gpu.mapped) && gpu.contents == old(gpu.contents)
    ensures |gpu.log| == |old(gpu.log)| + 1 && gpu.log[..|old(gpu.log)|] == old(gpu.log)
    ensures gpu.log[|old(gpu.log)|].CreateBlendState? && gpu.log[|old(gpu.log)|].blendDesc == AlphaBlendDesc()
    ensures r.Ok? <==> Succeeded(gpu.log[|old(gpu.log)|])
    ensures r.Err? ==> !Succeeded(gpu.log[|old(gpu.log)|]) && r.error == WindowsResult(gpu.log[|old(gpu.log)|]).error
    ensures r.Err? ==> gpu.com.State() == old(gpu.com.State()) && gpu.resources == old(gpu.resources)
    ensures r.Ok? ==>
      && r.value.state.ptr.At? && r.value.state.ptr.id !in old(gpu.com.counts) && gpu.com.Owns(r.value.state)
      && gpu.com.counts == old(gpu.com.counts)[r.value.state.ptr.id := 1]
      && gpu.com.owned == old(gpu.com.owned) + multiset{r.value.state.ptr.id} && gpu.com.raw == old(gpu.com.raw)
      && gpu.resources == old(gpu.resources)[r.value.state.ptr.id := BlendStateObject(AlphaBlendDesc())]
  {
    var hr, out := gpu.CreateBlendState(AlphaBlendDesc());
    if Failed(hr) {
      return Err(CallFailed(hr));
    }
    if out == Null {
      return Err(NothingReturned);
    }
    var state := gpu.com.Adopt(out);
    AdoptedCreatedHolders(old(gpu.com.State()), out.id);
    r := Ok(BlendState(state.value));
  }

  /** `BlendState::bind`: this state, a zero blend factor and every sample
      enabled. */
  method BindBlendState(gpu: Gpu, b: BlendState)
    requires gpu.Valid() && gpu.com.Owns(b.state)
    modifies gpu
    ensures gpu.Valid()
    ensures gpu.resources == old(gpu.resources) && gpu.contents == old(gpu.contents) && gpu.mapped == old(gpu.mapped)
    ensures gpu.log == old(gpu.log) + [Call.OMSetBlendState(b.state.ptr.id, Rgba(0.0, 0.0, 0.0, 0.0), 0xffff_ffff)]
  {
    gpu.Record(Call.OMSetBlendState(b.state.ptr.id, Rgba(0.0, 0.0, 0.0, 0.0), 0xffff_ffff));
  }

  // ---------------------------------------------------------------- image texture

  /** A decoded image converted to RGBA8 (`to_rgba8`): four bytes per pixel,
      row after row. */
  datatype Image = Image(width: U32, height: U32, rgba: Bytes)

  predicate IsRgba8(img: Image) {
    |img.rgba| == img.width * img.height * 4
  }

  /** `Texture`: the texture and its size in pixels. */
  datatype Texture = Texture(texture: ComPtr, width: U32, height: U32)

  /** The descriptor `create_from_data` builds: the image's width and
      height, one mip level and one slice, RGBA8, one sample, usable as a
      shader resource only. */
  function ImageTextureDesc(width: U32, height: U32): (d: TextureDesc)
    ensures d.width == width && d.height == height && d.mipLevels == 1 && d.arraySize == 1
    ensures d.format == R8G8B8A8Unorm && d.sampleCount == 1 && d.sampleQuality == 0
    ensures d.usage == UsageDefault && d.bindFlags == {BindShaderResource}
    ensures d.cpuAccess == {} && d.miscFlags == {}
  {
    TextureDesc(width, height, 1, 1, R8G8B8A8Unorm, 1, 0, UsageDefault, {BindShaderResource}, {}, {})
  }

  /** The row pitch of an RGBA8 image, `width * 4` in `u32` arithmetic: a
      product that does not fit is an overflow (a panic in a debug build). */
  function RowPitch(width: U32): (r: Result<U32>)
    ensures r.Ok? <==> width * 4 < 0x1_0000_0000
    ensures r.Ok? ==> r.value == width * 4
    ensures r.Err? ==> r.error == Overflow
  {
    if width * 4 < 0x1_0000_0000 then Ok(width * 4) else Err(Overflow)
  }

  /** With that pitch, the rows of an RGBA8 image cover its bytes exactly:
      `height` rows of `pitch` bytes each. */
  lemma RowsCoverImage(img: Image)
    requires IsRgba8(img) && RowPitch(img.width).Ok?
    ensures RowPitch(img.width).value * img.height == |img.rgba|
  {
    assert img.width * img.height * 4 == (img.width * 4) * img.height;
  }

  /** `Texture::create_from_data`: one `CreateTexture2D` call with the
      pixels as initial data and the row pitch `width * 4`. */
  method CreateFromData(gpu: Gpu, width: U32, height: U32, data: Bytes) returns (r: Result<ComPtr>)
    requires gpu.Valid()
    modifies gpu, gpu.com
    ensures gpu.Valid() && gpu.mapped == old(gpu.mapped) && gpu.contents == old(gpu.contents)
    ensures RowPitch(width).Err? ==> r == Err(Overflow) && gpu.log == old(gpu.log)
    ensures RowPitch(width).Ok? ==>
      && |gpu.log| == |old(gpu.log)| + 1 && gpu.log[..|old(gpu.log)|] == old(gpu.log)
      && gpu.log[|old(gpu.log)|].CreateTexture2D?
      && gpu.log[|old(gpu.log)|].textureDesc == ImageTextureDesc(width, height)
      && gpu.log[|old(gpu.log)|].init == Some(SubresourceData(data, width * 4, 0))
      && r == WindowsResult(gpu.log[|old(gpu.log)|])
    ensures r.Err? ==> gpu.com.State() == old(gpu.com.State()) && gpu.resources == old(gpu.resources)
    ensures r.Ok? ==>
      && r.value.ptr.At? && r.value.ptr.id !in old(gpu.com.counts) && gpu.com.Owns(r.value)
      && gpu.com.counts == old(gpu.com.counts)[r.value.ptr.id := 1]
      && gpu.com.owned == old(gpu.com.owned) + multiset{r.value.ptr.id} && gpu.com.raw == old(gpu.com.raw)
      && gpu.resources == old(gpu.resources)[r.value.ptr.id := TextureObject(ImageTextureDesc(width, height))]
  {
    var pitch := RowPitch(width);
    if pitch.Err? {
      return Err(Overflow);
    }
    r := CreateOwnedTexture(gpu, ImageTextureDesc(width, height), Some(SubresourceData(data, pitch.value, 0)));
  }

  /** The call `load_from_path` makes for a decoded image: an RGBA8
      texture of the image's size, created from its pixels at four bytes a
      pixel per row. */
  ghost predicate LoadCall(c: Call, img: Image) {
    && c.CreateTexture2D? && c.textureDesc == ImageTextureDesc(img.width, img.height)
    && RowPitch(img.width).Ok? && c.init == Some(SubresourceData(img.rgba, RowPitch(img.width).value, 0))
  }

  /** `Texture::load_from_path`.  Opening and decoding the file is outside
      the model: `decoded` is what the decoder made of the path, already
      converted to RGBA8, or `None` when it failed.  A decoding failure is
      an error before any native call; otherwise the texture is created from
      the pixels and its size is the image's. */
  method LoadFromPath(gpu: Gpu, decoded: Option<Image>) returns (r: Result<Texture>)
    requires gpu.Valid()
    requires decoded.Some? ==> IsRgba8(decoded.value)
    modifies gpu, gpu.com
    ensures gpu.Valid() && gpu.mapped == old(gpu.mapped) && gpu.contents == old(gpu.contents)
    ensures decoded.None? ==> r == Err(DecodeFailed) && gpu.log == old(gpu.log)
    ensures decoded.Some? && RowPitch(decoded.value.width).Err? ==> r == Err(Overflow) && gpu.log == old(gpu.log)
    ensures |old(gpu.log)| <= |gpu.log| <= |old(gpu.log)| + 1 && gpu.log[..|old(gpu.log)|] == old(gpu.log)
    ensures decoded.Some? && RowPitch(decoded.value.width).Ok? ==>
      && |gpu.log| == |old(gpu.log)| + 1 && LoadCall(gpu.log[|old(gpu.log)|], decoded.value)
      && (r.Ok? <==> Succeeded(gpu.log[|old(gpu.log)|]))
      && (r.Err? ==> r.error == WindowsResult(gpu.log[|old(gpu.log)|]).error)
    ensures r.Err? ==> gpu.com.State() == old(gpu.com.State()) && gpu.resources == old(gpu.resources)
    ensures r.Ok? ==>
      && decoded.Some? && r.value.width == decoded.value.width && r.value.height == decoded.value.height
      && r.value.texture.ptr.At? && gpu.com.Owns(r.value.texture)
      && r.value.texture.ptr.id !in old(gpu.com.counts)
      && gpu.com.counts == old(gpu.com.counts)[r.value.texture.ptr.id := 1]
      && gpu.com.owned == old(gpu.com.owned) + multiset{r.value.texture.ptr.id} && gpu.com.raw == old(gpu.com.raw)
      && gpu.resources == old(gpu.resources)[r.value.texture.ptr.id := TextureObject(ImageTextureDesc(decoded.value.width, decoded.value.height))]
  {
    if decoded.None? {
      return Err(DecodeFailed);
    }
    var img := decoded.value;
    var texture := CreateFromData(gpu, img.width, img.height, img.rgba);
    if texture.Err? {
      return Err(texture.error);
    }
    r := Ok(Texture(texture.value, img.width, img.height));
  }
}
