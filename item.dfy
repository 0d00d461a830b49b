/**
  The item layer the renderer drives (`ItemRenderContext`,
  `ItemDefinition`, `RenderItemDefinition`).  Its code is not part of this
  model: every operation is a call that may fail and is recorded in the
  log; a render item keeps only its texture and what the renderer reads
  of it, its animation data and its pixelation flag.
 */
module Item {
  import opened Hr
  import opened Com
  import opened Screen
  import opened Native
  import Texture

  /** `ItemDefinition`: the texture file, whether to pixelate it when
      scaling, and its scale. */
  datatype ItemDefinition = ItemDefinition(texturePath: string, pixelate: bool, scale: real)

  /** `ItemRenderContext`: the shaders, samplers and constant buffer used to
      draw items.  What it holds is not modelled. */
  datatype ItemRenderContext = ItemRenderContext

  /** Nothing but the call log changes. */
  twostate predicate OnlyLogged(gpu: Gpu)
    reads gpu, gpu.com
  {
    && gpu.com.State() == old(gpu.com.State())
    && gpu.resources == old(gpu.resources) && gpu.contents == old(gpu.contents) && gpu.mapped == old(gpu.mapped)
  }

  /** `ItemRenderContext::create`. */
  method CreateItemContext(gpu: Gpu) returns (r: Result<ItemRenderContext>)
    requires gpu.Valid()
    modifies gpu
    ensures gpu.Valid() && OnlyLogged(gpu)
    ensures gpu.log == old(gpu.log) + [Call.CreateItemContext(r.Ok?)]
    ensures r.Err? ==> r.error == ItemFailed
  {
    var ok: bool := *;
    r := if ok then Ok(ItemRenderContext) else Err(ItemFailed);
    gpu.Record(Call.CreateItemContext(ok));
  }

  /** `ItemRenderContext::prepare_render`. */
  method PrepareRender(gpu: Gpu, ic: ItemRenderContext)
    requires gpu.Valid()
    modifies gpu
    ensures gpu.Valid() && OnlyLogged(gpu)
    ensures gpu.log == old(gpu.log) + [Call.PrepareRender]
  {
    gpu.Record(Call.PrepareRender);
  }

  /** `ItemRenderContext::bind_constants`. */
  method BindConstants(gpu: Gpu, ic: ItemRenderContext)
    requires gpu.Valid()
    modifies gpu
    ensures gpu.Valid() && OnlyLogged(gpu)
    ensures gpu.log == old(gpu.log) + [Call.BindConstants]
  {
    gpu.Record(Call.BindConstants);
  }

  /** `ItemRenderContext::set_current_data`: uploads one item's data. */
  method SetCurrentData(gpu: Gpu, ic: ItemRenderContext, data: ItemData) returns (ok: bool)
    requires gpu.Valid()
    modifies gpu
    ensures gpu.Valid() && OnlyLogged(gpu)
    ensures gpu.log == old(gpu.log) + [Call.SetCurrentData(data, ok)]
  {
    ok := *;
    gpu.Record(Call.SetCurrentData(data, ok));
  }

  /** `ItemRenderContext::set_sampler`: point sampling when `pixelate`,
      linear otherwise. */
  method SetSampler(gpu: Gpu, ic: ItemRenderContext, pixelate: bool)
    requires gpu.Valid()
    modifies gpu
    ensures gpu.Valid() && OnlyLogged(gpu)
    ensures gpu.log == old(gpu.log) + [Call.SetSampler(pixelate)]
  {
    gpu.Record(Call.SetSampler(pixelate));
  }

  /** `RenderItemDefinition`: an item ready to draw, held by value in the
      renderer's list.  It keeps the texture it was made from, its
      pixelation flag and its animation data. */
  datatype RenderItem = RenderItem(texture: Texture.Texture, pixelate: bool, data: ItemData)

  /** `RenderItemDefinition::update`: advances the item's animation, which
      is not modelled, so the new data is unconstrained; it may fail.  Only
      the data changes.  `position` is the item's place in the list, which
      the log uses to name it. */
  method Update(gpu: Gpu, item: RenderItem, position: nat) returns (ok: bool, updated: RenderItem)
    requires gpu.Valid()
    modifies gpu
    ensures gpu.Valid() && OnlyLogged(gpu)
    ensures gpu.log == old(gpu.log) + [Call.UpdateItem(position, ok)]
    ensures updated.texture == item.texture && updated.pixelate == item.pixelate
  {
    ok := *;
    var next: ItemData := *;
    updated := item.(data := next);
    gpu.Record(Call.UpdateItem(position, ok));
  }

  /** `RenderItemDefinition::render`: draws the item with whatever is bound. */
  method Draw(gpu: Gpu, item: RenderItem, position: nat)
    requires gpu.Valid()
    modifies gpu
    ensures gpu.Valid() && OnlyLogged(gpu)
    ensures gpu.log == old(gpu.log) + [Call.DrawItem(position)]
  {
    gpu.Record(Call.DrawItem(position));
  }

  /** `ItemDefinition::create_render_item`: consumes the loaded texture.  On
      success the item holds the texture, the given data and the
      definition's pixelation flag; on failure the texture is dropped. */
  method CreateRenderItem(gpu: Gpu, device: ComPtr, position: nat, def: ItemDefinition, texture: Texture.Texture, data: ItemData)
    returns (r: Result<RenderItem>)
    requires gpu.Valid() && gpu.com.Owns(device) && gpu.com.Owns(texture.texture)
    modifies gpu, gpu.com
    ensures gpu.Valid()
    ensures gpu.resources == old(gpu.resources) && gpu.contents == old(gpu.contents) && gpu.mapped == old(gpu.mapped)
    ensures gpu.log == old(gpu.log) + [Call.CreateRenderItem(position, r.Ok?)]
    ensures r.Ok? ==>
      && gpu.com.State() == old(gpu.com.State())
      && r.value == RenderItem(texture, def.pixelate, data)
    ensures r.Err? ==>
      && r.error == ItemFailed && gpu.com.raw == old(gpu.com.raw)
      && gpu.com.owned == old(gpu.com.owned) - multiset{texture.texture.ptr.id}
  {
    var ok: bool := *;
    if ok {
      r := Ok(RenderItem(texture, def.pixelate, data));
    } else {
      ghost var before := gpu.com.State();
      gpu.com.Drop(texture.texture);
      ReleasedHolders(before, texture.texture.ptr.id);
      r := Err(ItemFailed);
    }
    gpu.Record(Call.CreateRenderItem(position, ok));
  }
}
