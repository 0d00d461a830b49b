/**
  The native side the renderer drives: the Direct3D 11 device and immediate
  context, the item layer whose code is not part of this model, and the
  publishing collaborator.  None of their code is modelled; each call is an
  operation that may fail nondeterministically and is recorded, in order,
  in a log of calls.  Objects the device creates get an id in the
  reference-count runtime of module `Com`.
 */
module Native {
  import opened Hr
  import opened Com
  import opened Screen

  type Bytes = seq<bv8>

  /** An unsigned 32-bit integer. */
  type U32 = x: nat | x < 0x1_0000_0000

  /** `D3D11_USAGE`. */
  datatype Usage = UsageDefault | UsageDynamic

  /** The bits of `D3D11_BIND_FLAG` the renderer uses; a set of them is the
      bitwise or of the flags. */
  datatype BindFlag = BindVertexBuffer | BindIndexBuffer | BindConstantBuffer | BindShaderResource | BindRenderTarget

  /** `D3D11_CPU_ACCESS_WRITE`. */
  datatype CpuAccess = CpuAccessWrite

  /** `D3D11_RESOURCE_MISC_SHARED`. */
  datatype MiscFlag = MiscShared

  /** `DXGI_FORMAT`: the two pixel formats the renderer names, `UNKNOWN`, and
      any other format a caller passes through. */
  datatype Format = FormatUnknown | R8G8B8A8Unorm | B8G8R8A8Unorm | OtherFormat(code: nat)

  /** `D3D11_BUFFER_DESC`. */
  datatype BufferDesc = BufferDesc(
    byteWidth: U32,
    usage: Usage,
    bindFlags: set<BindFlag>,
    cpuAccess: set<CpuAccess>,
    miscFlags: set<MiscFlag>,
    structureByteStride: U32)

  /** `D3D11_TEXTURE2D_DESC`. */
  datatype TextureDesc = TextureDesc(
    width: U32,
    height: U32,
    mipLevels: nat,
    arraySize: nat,
    format: Format,
    sampleCount: nat,
    sampleQuality: nat,
    usage: Usage,
    bindFlags: set<BindFlag>,
    cpuAccess: set<CpuAccess>,
    miscFlags: set<MiscFlag>)

  /** `D3D11_SUBRESOURCE_DATA`: the initial bytes and the distance in bytes
      between rows (`SysMemPitch`) and between slices. */
  datatype SubresourceData = SubresourceData(sysMem: Bytes, pitch: U32, slicePitch: U32)

  /** `D3D11_BLEND` and `D3D11_BLEND_OP` values the renderer uses. */
  datatype Blend = BlendZero | BlendOne | BlendSrcAlpha | BlendInvSrcAlpha
  datatype BlendOp = BlendOpAdd

  /** `D3D11_COLOR_WRITE_ENABLE_ALL`: red, green, blue and alpha. */
  const ColorWriteEnableAll: bv8 := 0x0F

  /** `D3D11_RENDER_TARGET_BLEND_DESC`. */
  datatype RenderTargetBlendDesc = RenderTargetBlendDesc(
    blendEnable: bool,
    srcBlend: Blend,
    destBlend: Blend,
    blendOp: BlendOp,
    srcBlendAlpha: Blend,
    destBlendAlpha: Blend,
    blendOpAlpha: BlendOp,
    writeMask: bv8)

  /** `D3D11_BLEND_DESC`. */
  datatype BlendDesc = BlendDesc(
    alphaToCoverageEnable: bool,
    independentBlendEnable: bool,
    renderTarget: seq<RenderTargetBlendDesc>)

  /** A colour or blend factor, four `f32` in the source. */
  datatype Rgba = Rgba(r: real, g: real, b: real, a: real)

  /** `D3D11_VIEWPORT`. */
  datatype Viewport = Viewport(
    topLeftX: real,
    topLeftY: real,
    width: real,
    height: real,
    minDepth: real,
    maxDepth: real)

  /** What a native object is. */
  datatype Resource =
    | DeviceObject
    | ContextObject
    | BufferObject(bufferDesc: BufferDesc)
    | TextureObject(textureDesc: TextureDesc)
    | RenderTargetViewObject(texture: nat)
    | BlendStateObject(blendDesc: BlendDesc)

  /** One call, as the log records it. */
  datatype Call =
    // the device
    | CreateDeviceAndContext(ok: bool)
    | CreateBuffer(bufferDesc: BufferDesc, hr: HResult, out: RawPtr)
    | CreateTexture2D(textureDesc: TextureDesc, init: Option<SubresourceData>, hr: HResult, out: RawPtr)
    | CreateRenderTargetView(texture: nat, hr: HResult, out: RawPtr)
    | CreateBlendState(blendDesc: BlendDesc, hr: HResult, out: RawPtr)
    // the immediate context
    | Map(resource: nat, hr: HResult)   // always with D3D11_MAP_WRITE_DISCARD
    | Write(resource: nat, data: Bytes) // a write through the mapped pointer
    | Unmap(resource: nat)
    | VSSetConstantBuffers(slot: nat, buffers: seq<RawPtr>)
    | IASetVertexBuffers(slot: nat, buffers: seq<RawPtr>, stride: U32, offset: U32)
    | IASetIndexBuffer(buffer: RawPtr, format: Format, offset: U32)
    | OMSetRenderTargets(views: seq<nat>)
    | ClearRenderTargetView(view: nat, color: Rgba)
    | RSSetViewports(viewports: seq<Viewport>)
    | OMSetBlendState(state: nat, factor: Rgba, sampleMask: U32)
    // the item layer
    | CreateItemContext(ok: bool)
    | CreateRenderItem(index: nat, ok: bool)
    | PrepareRender
    | BindConstants
    | UpdateItem(index: nat, ok: bool)
    | SetCurrentData(itemData: ItemData, ok: bool)
    | SetSampler(pixelate: bool)
    | DrawItem(index: nat)
    // the publishing collaborator
    | CreateSender(ok: bool)                // create, name "VTFTK", set format
    | OpenDirectX11(device: nat, ok: bool)
    | SendTexture(texture: nat, ok: bool)
    | HoldFps(fps: nat, ok: bool)

  /** Whether a call did what was asked of it: a creation call produced an
      object, a status-returning call reported success. */
  predicate Succeeded(c: Call) {
    match c
    case CreateDeviceAndContext(ok) => ok
    case CreateBuffer(_, hr, out) => !Failed(hr) && out != Null
    case CreateTexture2D(_, _, hr, out) => !Failed(hr) && out != Null
    case CreateRenderTargetView(_, hr, out) => !Failed(hr) && out != Null
    case CreateBlendState(_, hr, out) => !Failed(hr) && out != Null
    case Map(_, hr) => !Failed(hr)
    case CreateItemContext(ok) => ok
    case CreateRenderItem(_, ok) => ok
    case UpdateItem(_, ok) => ok
    case SetCurrentData(_, ok) => ok
    case CreateSender(ok) => ok
    case OpenDirectX11(_, ok) => ok
    case SendTexture(_, ok) => ok
    case HoldFps(_, ok) => ok
    case _ => true
  }

  /** The device, its immediate context and everything they created. */
  class Gpu {
    const com: Runtime
    var resources: map<nat, Resource>   // what each created object is
    var contents: map<nat, Bytes>       // the bytes each buffer holds
    var mapped: set<nat>                // buffers currently mapped
    var log: seq<Call>                  // every call made so far, in order

    ghost predicate Valid()
      reads this, com
    {
      && com.Valid()
      && resources.Keys <= com.counts.Keys
      && contents.Keys <= resources.Keys
      && mapped <= contents.Keys
    }

    constructor (com: Runtime)
      requires com.Valid()
      ensures Valid() && this.com == com
      ensures resources == map[] && contents == map[] && mapped == {} && log == []
    {
      this.com := com;
      resources, contents, mapped, log := map[], map[], {}, [];
    }

    /** What a creation call leaves behind: on failure, or when it yields
        nothing, no object and no change; otherwise one fresh object of kind
        `what`, with count 1 and its reference in the returned pointer. */
    twostate predicate CreationOutcome(what: Resource, init: Option<Bytes>, hr: HResult, out: RawPtr)
      reads this, com
    {
      && old(com.Valid())
      && mapped == old(mapped)
      && (Failed(hr) ==> out == Null)
      && (out == Null ==>
            com.State() == old(com.State()) && resources == old(resources) && contents == old(contents))
      && (out != Null ==>
            && out.At? && out.id !in old(com.counts)
            && com.State() == Created(old(com.State()), out.id)
            && resources == old(resources)[out.id := what]
            && contents == if init.Some? then old(contents)[out.id := init.value] else old(contents))
    }

    /** The shared body of every creation call. */
    method Create(what: Resource, init: Option<Bytes>) returns (hr: HResult, out: RawPtr)
      requires Valid()
      modifies this, com
      ensures Valid() && log == old(log)
      ensures CreationOutcome(what, init, hr, out)
    {
      hr := *;
      var produced: bool := *;
      if Failed(hr) || !produced {
        out := Null;
        return;
      }
      var id := com.Allocate();
      resources := resources[id := what];
      if init.Some? {
        contents := contents[id := init.value];
      }
      out := At(id);
    }

    /** A successful creation call through the windows crate, whose `Option`
        out-parameter is itself an owning handle: a fresh object of kind
        `what`, held by the returned handle. */
    method CreateOwned(what: Resource) returns (p: ComPtr)
      requires Valid()
      modifies this, com
      ensures Valid() && log == old(log) && mapped == old(mapped) && contents == old(contents)
      ensures p.ptr.At? && p.ptr.id !in old(com.counts) && com.Owns(p)
      ensures com.State() == Adopted(Created(old(com.State()), p.ptr.id), p.ptr.id)
      ensures resources == old(resources)[p.ptr.id := what]
    {
      p := com.AllocateOwned();
      assert contents == old(contents);
      resources := resources[p.ptr.id := what];
      assert resources.Keys <= com.counts.Keys;
    }

    /** `D3D11CreateDevice` with its `Option` out-parameters already checked:
        either nothing is created, or a device and a context, each held by
        the returned handle. */
    method CreateDeviceAndContext() returns (r: Result<(ComPtr, ComPtr)>)
      requires Valid()
      modifies this, com
      ensures Valid() && mapped == old(mapped) && contents == old(contents)
      ensures log == old(log) + [Call.CreateDeviceAndContext(r.Ok?)]
      ensures r.Err? ==> r.error == NothingReturned && com.State() == old(com.State()) && resources == old(resources)
      ensures r.Ok? ==>
        var (device, context) := r.value;
        && device.ptr.At? && device.ptr.id !in old(com.counts)
        && context.ptr.At? && context.ptr.id !in old(com.counts) && context.ptr.id != device.ptr.id
        && com.Owns(device) && com.Owns(context)
        && com.counts == old(com.counts)[device.ptr.id := 1][context.ptr.id := 1]
        && com.owned == old(com.owned) + multiset{device.ptr.id, context.ptr.id} && com.raw == old(com.raw)
        && resources == old(resources)[device.ptr.id := DeviceObject][context.ptr.id := ContextObject]
    {
      var ok: bool := *;
      if !ok {
        r := Err(NothingReturned);
      } else {
        ghost var s0 := com.State();
        var device := CreateOwned(DeviceObject);
        AdoptedCreatedHolders(s0, device.ptr.id);
        ghost var s1 := com.State();
        var context := CreateOwned(ContextObject);
        AdoptedCreatedHolders(s1, context.ptr.id);
        r := Ok((device, context));
      }
      log := log + [Call.CreateDeviceAndContext(r.Ok?)];
    }

    /** `ID3D11Device::CreateBuffer`: the new buffer holds the first
        `ByteWidth` bytes of the initial data. */
    method CreateBuffer(desc: BufferDesc, init: Bytes) returns (hr: HResult, out: RawPtr)
      requires Valid() && desc.byteWidth <= |init|
      modifies this, com
      ensures Valid()
      ensures CreationOutcome(BufferObject(desc), Some(init[..desc.byteWidth]), hr, out)
      ensures log == old(log) + [Call.CreateBuffer(desc, hr, out)]
    {
      hr, out := Create(BufferObject(desc), Some(init[..desc.byteWidth]));
      log := log + [Call.CreateBuffer(desc, hr, out)];
    }

    /** `ID3D11Device::CreateTexture2D`. */
    method CreateTexture2D(desc: TextureDesc, init: Option<SubresourceData>) returns (hr: HResult, out: RawPtr)
      requires Valid()
      modifies this, com
      ensures Valid()
      ensures CreationOutcome(TextureObject(desc), None, hr, out)
      ensures log == old(log) + [Call.CreateTexture2D(desc, init, hr, out)]
    {
      hr, out := Create(TextureObject(desc), None);
      log := log + [Call.CreateTexture2D(desc, init, hr, out)];
    }

    /** `ID3D11Device::CreateRenderTargetView` over texture `texture`. */
    method CreateRenderTargetView(texture: nat) returns (hr: HResult, out: RawPtr)
      requires Valid() && texture in resources && resources[texture].TextureObject?
      modifies this, com
      ensures Valid()
      ensures CreationOutcome(RenderTargetViewObject(texture), None, hr, out)
      ensures log == old(log) + [Call.CreateRenderTargetView(texture, hr, out)]
    {
      hr, out := Create(RenderTargetViewObject(texture), None);
      log := log + [Call.CreateRenderTargetView(texture, hr, out)];
    }

    /** `ID3D11Device::CreateBlendState`. */
    method CreateBlendState(desc: BlendDesc) returns (hr: HResult, out: RawPtr)
      requires Valid()
      modifies this, com
      ensures Valid()
      ensures CreationOutcome(BlendStateObject(desc), None, hr, out)
      ensures log == old(log) + [Call.CreateBlendState(desc, hr, out)]
    {
      hr, out := Create(BlendStateObject(desc), None);
      log := log + [Call.CreateBlendState(desc, hr, out)];
    }

    /** `ID3D11DeviceContext::Map` with `D3D11_MAP_WRITE_DISCARD`: on success
        the buffer is mapped and its previous bytes are discarded, that is,
        left unspecified. */
    method Map(id: nat) returns (hr: HResult)
      requires Valid() && id in contents && id !in mapped
      modifies this
      ensures Valid() && resources == old(resources)
      ensures log == old(log) + [Call.Map(id, hr)]
      ensures Failed(hr) ==> mapped == old(mapped) && contents == old(contents)
      ensures !Failed(hr) ==> mapped == old(mapped) + {id} && id in contents && contents == old(contents)[id := contents[id]]
    {
      hr := *;
      if !Failed(hr) {
        var discarded: Bytes := *;
        contents := contents[id := discarded];
        mapped := mapped + {id};
      }
      log := log + [Call.Map(id, hr)];
    }

    /** A write of the whole mapped region through the pointer `Map` returned. */
    method Write(id: nat, data: Bytes)
      requires Valid() && id in mapped
      modifies this
      ensures Valid() && resources == old(resources) && mapped == old(mapped)
      ensures contents == old(contents)[id := data]
      ensures log == old(log) + [Call.Write(id, data)]
    {
      contents := contents[id := data];
      log := log + [Call.Write(id, data)];
    }

    /** `ID3D11DeviceContext::Unmap`. */
    method Unmap(id: nat)
      requires Valid() && id in mapped
      modifies this
      ensures Valid() && resources == old(resources) && contents == old(contents)
      ensures mapped == old(mapped) - {id}
      ensures log == old(log) + [Call.Unmap(id)]
    {
      mapped := mapped - {id};
      log := log + [Call.Unmap(id)];
    }

    /** A call whose only effect the model keeps is its place in the log:
        the context's binding and drawing commands, the item layer and the
        publishing collaborator. */
    method Record(c: Call)
      requires Valid()
      modifies this
      ensures Valid() && resources == old(resources) && contents == old(contents) && mapped == old(mapped)
      ensures log == old(log) + [c]
    {
      log := log + [c];
    }
  }
}
