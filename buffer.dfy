/**
  The GPU buffers of src/dx/buffer.rs: a constant buffer holding one value
  of a type `T`, an index buffer and a vertex buffer.  A value of `T` is
  modelled by its bytes, so `size_of::<T>()` is the length of those bytes;
  an array of `T` is a sequence of such byte strings, all of the same length.
 */
module Buffer {
  import opened Hr
  import opened Com
  import opened Native

  /** `x as u32`: Rust's cast keeps the low 32 bits. */
  function AsU32(n: nat): (r: U32)
    ensures r <= n
    ensures n < 0x1_0000_0000 ==> r == n
  {
    n % 0x1_0000_0000
  }

  /** The bytes of a slice `&[T]` laid out one element after the other. */
  function Flatten(data: seq<Bytes>): Bytes {
    if data == [] then [] else data[0] + Flatten(data[1..])
  }

  /** `size_of_val(data)`: a slice of `|data|` elements of `n` bytes each
      occupies `|data| * n` bytes. */
  lemma {:induction false} FlattenLength(data: seq<Bytes>, n: nat)
    requires forall i :: 0 <= i < |data| ==> |data[i]| == n
    ensures |Flatten(data)| == |data| * n
  {
    if data != [] {
      FlattenLength(data[1..], n);
    }
  }

  /** Element `k` of the slice occupies bytes `k * n` up to `(k + 1) * n`. */
  lemma {:induction false} FlattenElement(data: seq<Bytes>, n: nat, k: nat)
    requires forall i :: 0 <= i < |data| ==> |data[i]| == n
    requires k < |data|
    ensures |Flatten(data)| == |data| * n && (k + 1) * n <= |Flatten(data)|
    ensures Flatten(data)[k * n .. (k + 1) * n] == data[k]
  {
    FlattenLength(data, n);
    var rest := data[1..];
    assert Flatten(data) == data[0] + Flatten(rest) && |data[0]| == n;
    if k > 0 {
      FlattenElement(rest, n, k - 1);
      var lo := (k - 1) * n;
      assert k * n == lo + n && (k + 1) * n == lo + n + n;
      assert Flatten(rest)[lo .. lo + n] == data[k];
      assert Flatten(data)[lo + n .. lo + n + n] == Flatten(rest)[lo .. lo + n];
    }
  }

  /** What a buffer creation through the winapi crate reports: the failing
      HRESULT when `CreateBuffer` fails (`hr_bail!`), `ComPtr::new`'s
      refusal when it succeeds without a buffer (a panic in the source), and
      otherwise the new buffer's handle. */
  function CreationResult(c: Call): (r: Result<ComPtr>)
    requires c.CreateBuffer?
    ensures r.Ok? <==> Succeeded(c)
    ensures r.Ok? ==> r.value.ptr == c.out
    ensures r.Err? ==> r.error == if Failed(c.hr) then CallFailed(c.hr) else NullPointer
  {
    if Failed(c.hr) then Err(CallFailed(c.hr)) else New(c.out)
  }

  /** `device.CreateBuffer(&desc, &init_data, &mut buffer)` followed by
      `buffer.into()`: one `CreateBuffer` call is made, and on success the
      handle owns a fresh buffer holding the first `ByteWidth` bytes of the
      initial data. */
  method CreateWrapped(gpu: Gpu, desc: BufferDesc, init: Bytes) returns (r: Result<ComPtr>)
    requires gpu.Valid() && desc.byteWidth <= |init|
    modifies gpu, gpu.com
    ensures gpu.Valid() && gpu.mapped == old(gpu.mapped)
    ensures |gpu.log| == |old(gpu.log)| + 1 && gpu.log[..|old(gpu.log)|] == old(gpu.log)
    ensures gpu.log[|old(gpu.log)|].CreateBuffer? && gpu.log[|old(gpu.log)|].bufferDesc == desc
    ensures r == CreationResult(gpu.log[|old(gpu.log)|])
    ensures r.Err? ==>
      && gpu.com.State() == old(gpu.com.State())
      && gpu.resources == old(gpu.resources) && gpu.contents == old(gpu.contents)
    ensures r.Ok? ==>
      && r.value.ptr.At? && r.value.ptr.id !in old(gpu.com.counts) && gpu.com.Owns(r.value)
      && gpu.com.State() == Adopted(Created(old(gpu.com.State()), r.value.ptr.id), r.value.ptr.id)
      && gpu.resources == old(gpu.resources)[r.value.ptr.id := BufferObject(desc)]
      && gpu.contents == old(gpu.contents)[r.value.ptr.id := init[..desc.byteWidth]]
  {
    var hr, out := gpu.CreateBuffer(desc, init);
    if Failed(hr) {
      r := Err(CallFailed(hr));
      return;
    }
    r := gpu.com.Adopt(out);
  }

  // ---------------------------------------------------------------- constant buffer

  /** `ConstantBuffer<T>`: the buffer handle; `size` is `size_of::<T>()`,
      which the source carries in the type parameter. */
  datatype ConstantBuffer = ConstantBuffer(buffer: ComPtr, size: nat)

  /** The descriptor `ConstantBuffer::create` builds for a `T` of `size`
      bytes: as wide as `T`, dynamic, bound as a constant buffer and
      writable by the CPU. */
  function ConstantBufferDesc(size: nat): (d: BufferDesc)
    ensures d.byteWidth == AsU32(size) && d.usage == UsageDynamic
    ensures d.bindFlags == {BindConstantBuffer} && d.cpuAccess == {CpuAccessWrite}
    ensures d.miscFlags == {} && d.structureByteStride == 0
  {
    BufferDesc(AsU32(size), UsageDynamic, {BindConstantBuffer}, {CpuAccessWrite}, {}, 0)
  }

  /** `ConstantBuffer::create`: a `T` whose size is not a multiple of 16
      bytes is refused before any call (the `debug_assert!`, a panic in a
      debug build); otherwise one `CreateBuffer` call is made with the value
      as initial data, and the constant buffer owns the new buffer. */
  method CreateConstant(gpu: Gpu, initial: Bytes) returns (r: Result<ConstantBuffer>)
    requires gpu.Valid()
    modifies gpu, gpu.com
    ensures gpu.Valid() && gpu.mapped == old(gpu.mapped)
    ensures |initial| % 16 != 0 ==> r == Err(Misaligned) && gpu.log == old(gpu.log)
    ensures |initial| % 16 == 0 ==>
      && |gpu.log| == |old(gpu.log)| + 1 && gpu.log[..|old(gpu.log)|] == old(gpu.log)
      && gpu.log[|old(gpu.log)|].CreateBuffer?
      && gpu.log[|old(gpu.log)|].bufferDesc == ConstantBufferDesc(|initial|)
      && (r.Ok? <==> Succeeded(gpu.log[|old(gpu.log)|]))
    ensures r.Err? ==>
      && gpu.com.State() == old(gpu.com.State())
      && gpu.resources == old(gpu.resources) && gpu.contents == old(gpu.contents)
    ensures r.Ok? ==>
      && r.value.size == |initial| && r.value.buffer.ptr.At? && gpu.com.Owns(r.value.buffer)
      && r.value.buffer.ptr.id !in old(gpu.com.counts)
      && gpu.resources == old(gpu.resources)[r.value.buffer.ptr.id := BufferObject(ConstantBufferDesc(|initial|))]
      && gpu.contents == old(gpu.contents)[r.value.buffer.ptr.id := initial[..AsU32(|initial|)]]
  {
    if |initial| % 16 != 0 {
      return Err(Misaligned);
    }
    var p := CreateWrapped(gpu, ConstantBufferDesc(|initial|), initial);
    if p.Err? {
      return Err(p.error);
    }
    r := Ok(ConstantBuffer(p.value, |initial|));
  }

  /** `ConstantBuffer::create_default`: `create` with `T::default()`, whose
      bytes the type decides. */
  method CreateDefaultConstant(gpu: Gpu, defaultValue: Bytes) returns (r: Result<ConstantBuffer>)
    requires gpu.Valid()
    modifies gpu, gpu.com
    ensures gpu.Valid() && gpu.mapped == old(gpu.mapped)
    ensures |defaultValue| % 16 != 0 ==> r == Err(Misaligned) && gpu.log == old(gpu.log)
    ensures r.Err? ==> gpu.com.State() == old(gpu.com.State()) && gpu.resources == old(gpu.resources)
    ensures r.Ok? ==>
      && r.value.size == |defaultValue| && r.value.buffer.ptr.At? && gpu.com.Owns(r.value.buffer)
      && gpu.contents == old(gpu.contents)[r.value.buffer.ptr.id := defaultValue[..AsU32(|defaultValue|)]]
  {
    r := CreateConstant(gpu, defaultValue);
  }

  /** A constant buffer that can be mapped: its handle owns a live buffer
      that holds bytes and is not mapped at the moment. */
  ghost predicate Mappable(gpu: Gpu, cb: ConstantBuffer)
    reads gpu, gpu.com
  {
    && gpu.Valid() && gpu.com.Owns(cb.buffer)
    && cb.buffer.ptr.id in gpu.contents && cb.buffer.ptr.id !in gpu.mapped
  }

  /** `ConstantBuffer::map`: `Map` with write-discard; on failure the error
      is returned at once, the action never runs and `Unmap` is not called;
      on success the action writes the mapped memory exactly once and
      exactly one `Unmap` follows.  Either way the buffer ends unmapped. */
  method MapWith(gpu: Gpu, cb: ConstantBuffer, action: Bytes -> Bytes) returns (r: Result<()>)
    requires Mappable(gpu, cb)
    modifies gpu
    ensures Mappable(gpu, cb)
    ensures gpu.resources == old(gpu.resources) && gpu.mapped == old(gpu.mapped)
    ensures r.Err? ==>
      && r.error.CallFailed? && Failed(r.error.hr)
      && gpu.log == old(gpu.log) + [Call.Map(cb.buffer.ptr.id, r.error.hr)]
      && gpu.contents == old(gpu.contents)
    ensures r.Ok? ==>
      var id := cb.buffer.ptr.id;
      && |gpu.log| == |old(gpu.log)| + 3 && gpu.log[..|old(gpu.log)|] == old(gpu.log)
      && gpu.log[|old(gpu.log)|].Map? && gpu.log[|old(gpu.log)|].resource == id
      && Succeeded(gpu.log[|old(gpu.log)|])
      && gpu.log[|old(gpu.log)| + 1] == Call.Write(id, gpu.contents[id])
      && gpu.log[|old(gpu.log)| + 2] == Call.Unmap(id)
      && gpu.contents == old(gpu.contents)[id := gpu.contents[id]]
      && (exists discarded: Bytes :: gpu.contents[id] == action(discarded))
  {
    var id := gpu.com.Borrow(cb.buffer);   // `cast_as_mut`
    var hr := gpu.Map(id);
    if Failed(hr) {
      return Err(CallFailed(hr));
    }
    ghost var discarded := gpu.contents[id];
    var data := action(gpu.contents[id]);
    gpu.Write(id, data);
    gpu.Unmap(id);
    r := Ok(());
  }

  /** `ConstantBuffer::replace`: maps the buffer and copies one whole `T`
      into it; after success the buffer holds exactly `newData`, after a
      failure it holds what it held before. */
  method Replace(gpu: Gpu, cb: ConstantBuffer, newData: Bytes) returns (r: Result<()>)
    requires Mappable(gpu, cb) && |newData| == cb.size
    modifies gpu
    ensures Mappable(gpu, cb)
    ensures gpu.resources == old(gpu.resources) && gpu.mapped == old(gpu.mapped)
    ensures r.Ok? ==> gpu.contents == old(gpu.contents)[cb.buffer.ptr.id := newData]
    ensures r.Ok? ==>
      && |gpu.log| == |old(gpu.log)| + 3 && gpu.log[..|old(gpu.log)|] == old(gpu.log)
      && gpu.log[|old(gpu.log)|].Map? && Succeeded(gpu.log[|old(gpu.log)|])
      && gpu.log[|old(gpu.log)| + 1] == Call.Write(cb.buffer.ptr.id, newData)
      && gpu.log[|old(gpu.log)| + 2] == Call.Unmap(cb.buffer.ptr.id)
    ensures r.Err? ==>
      && r.error.CallFailed? && gpu.contents == old(gpu.contents)
      && gpu.log == old(gpu.log) + [Call.Map(cb.buffer.ptr.id, r.error.hr)]
  {
    r := MapWith(gpu, cb, _ => newData);
  }

  /** `ConstantBuffer::bind`: the buffer goes to slot 0 of the vertex shader
      through `as_ptr`, a borrow that changes no count. */
  method BindConstant(gpu: Gpu, cb: ConstantBuffer)
    requires gpu.Valid() && gpu.com.Owns(cb.buffer)
    modifies gpu
    ensures gpu.Valid() && gpu.com.Owns(cb.buffer)
    ensures gpu.resources == old(gpu.resources) && gpu.contents == old(gpu.contents) && gpu.mapped == old(gpu.mapped)
    ensures gpu.log == old(gpu.log) + [Call.VSSetConstantBuffers(0, [cb.buffer.ptr])]
  {
    gpu.Record(Call.VSSetConstantBuffers(0, [cb.buffer.ptr]));
  }

  // ---------------------------------------------------------------- index buffer

  /** `IndexBuffer`. */
  datatype IndexBuffer = IndexBuffer(buffer: ComPtr, format: Format, offset: U32)

  /** The descriptor of an index or vertex buffer of `size` bytes: default
      usage, no CPU access, bound with `flag` alone. */
  function StaticBufferDesc(size: U32, flag: BindFlag): (d: BufferDesc)
    ensures d.byteWidth == size && d.usage == UsageDefault && d.bindFlags == {flag}
    ensures d.cpuAccess == {} && d.miscFlags == {} && d.structureByteStride == 0
  {
    BufferDesc(size, UsageDefault, {flag}, {}, {}, 0)
  }

  /** `IndexBuffer::create`: one `CreateBuffer` call over the first `size`
      bytes at `data`; a failing HRESULT is an error and creates nothing. */
  method CreateIndex(gpu: Gpu, data: Bytes, size: U32, format: Format, offset: U32) returns (r: Result<IndexBuffer>)
    requires gpu.Valid() && size <= |data|
    modifies gpu, gpu.com
    ensures gpu.Valid() && gpu.mapped == old(gpu.mapped)
    ensures |gpu.log| == |old(gpu.log)| + 1 && gpu.log[..|old(gpu.log)|] == old(gpu.log)
    ensures gpu.log[|old(gpu.log)|].CreateBuffer?
    ensures gpu.log[|old(gpu.log)|].bufferDesc == StaticBufferDesc(size, BindIndexBuffer)
    ensures r.Ok? <==> Succeeded(gpu.log[|old(gpu.log)|])
    ensures Failed(gpu.log[|old(gpu.log)|].hr) ==> r == Err(CallFailed(gpu.log[|old(gpu.log)|].hr))
    ensures r.Err? ==> gpu.com.State() == old(gpu.com.State()) && gpu.resources == old(gpu.resources)
    ensures r.Ok? ==>
      && r.value.format == format && r.value.offset == offset
      && r.value.buffer.ptr.At? && gpu.com.Owns(r.value.buffer)
      && gpu.resources == old(gpu.resources)[r.value.buffer.ptr.id := BufferObject(StaticBufferDesc(size, BindIndexBuffer))]
      && gpu.contents == old(gpu.contents)[r.value.buffer.ptr.id := data[..size]]
  {
    var p := CreateWrapped(gpu, StaticBufferDesc(size, BindIndexBuffer), data);
    if p.Err? {
      return Err(p.error);
    }
    r := Ok(IndexBuffer(p.value, format, offset));
  }

  /** `IndexBuffer::create_from_array`: the whole slice, `size_of_val(data)`
      bytes cast to `u32`, with the given format and offset 0. */
  method CreateIndexFromArray(gpu: Gpu, data: seq<Bytes>, elemSize: nat, format: Format) returns (r: Result<IndexBuffer>)
    requires gpu.Valid()
    requires forall i :: 0 <= i < |data| ==> |data[i]| == elemSize
    modifies gpu, gpu.com
    ensures gpu.Valid() && gpu.mapped == old(gpu.mapped)
    ensures |gpu.log| == |old(gpu.log)| + 1 && gpu.log[..|old(gpu.log)|] == old(gpu.log)
    ensures gpu.log[|old(gpu.log)|].CreateBuffer?
    ensures gpu.log[|old(gpu.log)|].bufferDesc == StaticBufferDesc(AsU32(|data| * elemSize), BindIndexBuffer)
    ensures |Flatten(data)| == |data| * elemSize
    ensures r.Ok? ==>
      && r.value.format == format && r.value.offset == 0 && gpu.com.Owns(r.value.buffer)
      && r.value.buffer.ptr.id in gpu.contents
      && gpu.contents[r.value.buffer.ptr.id] == Flatten(data)[..AsU32(|data| * elemSize)]
  {
    FlattenLength(data, elemSize);
    r := CreateIndex(gpu, Flatten(data), AsU32(|data| * elemSize), format, 0);
  }

  /** `IndexBuffer::bind`: the buffer, its format and offset, through
      `as_ptr`. */
  method BindIndex(gpu: Gpu, ib: IndexBuffer)
    requires gpu.Valid() && gpu.com.Owns(ib.buffer)
    modifies gpu
    ensures gpu.Valid() && gpu.com.Owns(ib.buffer)
    ensures gpu.resources == old(gpu.resources) && gpu.contents == old(gpu.contents) && gpu.mapped == old(gpu.mapped)
    ensures gpu.log == old(gpu.log) + [Call.IASetIndexBuffer(ib.buffer.ptr, ib.format, ib.offset)]
  {
    gpu.Record(Call.IASetIndexBuffer(ib.buffer.ptr, ib.format, ib.offset));
  }

  /** `IndexBuffer::unbind`: no buffer, unknown format, offset 0. */
  method UnbindIndex(gpu: Gpu)
    requires gpu.Valid()
    modifies gpu
    ensures gpu.Valid()
    ensures gpu.resources == old(gpu.resources) && gpu.contents == old(gpu.contents) && gpu.mapped == old(gpu.mapped)
    ensures gpu.log == old(gpu.log) + [Call.IASetIndexBuffer(Null, FormatUnknown, 0)]
  {
    gpu.Record(Call.IASetIndexBuffer(Null, FormatUnknown, 0));
  }

  // ---------------------------------------------------------------- vertex buffer

  /** `VertexBuffer`. */
  datatype VertexBuffer = VertexBuffer(buffer: ComPtr, stride: U32, offset: U32)

  /** `VertexBuffer::create`: one `CreateBuffer` call over the first `size`
      bytes at `data`; a failing HRESULT is an error and creates nothing. */
  method CreateVertex(gpu: Gpu, data: Bytes, size: U32, stride: U32, offset: U32) returns (r: Result<VertexBuffer>)
    requires gpu.Valid() && size <= |data|
    modifies gpu, gpu.com
    ensures gpu.Valid() && gpu.mapped == old(gpu.mapped)
    ensures |gpu.log| == |old(gpu.log)| + 1 && gpu.log[..|old(gpu.log)|] == old(gpu.log)
    ensures gpu.log[|old(gpu.log)|].CreateBuffer?
    ensures gpu.log[|old(gpu.log)|].bufferDesc == StaticBufferDesc(size, BindVertexBuffer)
    ensures r.Ok? <==> Succeeded(gpu.log[|old(gpu.log)|])
    ensures Failed(gpu.log[|old(gpu.log)|].hr) ==> r == Err(CallFailed(gpu.log[|old(gpu.log)|].hr))
    ensures r.Err? ==> gpu.com.State() == old(gpu.com.State()) && gpu.resources == old(gpu.resources)
    ensures r.Ok? ==>
      && r.value.stride == stride && r.value.offset == offset
      && r.value.buffer.ptr.At? && gpu.com.Owns(r.value.buffer)
      && gpu.resources == old(gpu.resources)[r.value.buffer.ptr.id := BufferObject(StaticBufferDesc(size, BindVertexBuffer))]
      && gpu.contents == old(gpu.contents)[r.value.buffer.ptr.id := data[..size]]
  {
    var p := CreateWrapped(gpu, StaticBufferDesc(size, BindVertexBuffer), data);
    if p.Err? {
      return Err(p.error);
    }
    r := Ok(VertexBuffer(p.value, stride, offset));
  }

  /** `VertexBuffer::create_from_array`: the whole slice, `size_of_val(data)`
      bytes, with stride `size_of::<T>()` and offset 0, both cast to `u32`. */
  method CreateVertexFromArray(gpu: Gpu, data: seq<Bytes>, elemSize: nat) returns (r: Result<VertexBuffer>)
    requires gpu.Valid()
    requires forall i :: 0 <= i < |data| ==> |data[i]| == elemSize
    modifies gpu, gpu.com
    ensures gpu.Valid() && gpu.mapped == old(gpu.mapped)
    ensures |gpu.log| == |old(gpu.log)| + 1 && gpu.log[..|old(gpu.log)|] == old(gpu.log)
    ensures gpu.log[|old(gpu.log)|].CreateBuffer?
    ensures gpu.log[|old(gpu.log)|].bufferDesc == StaticBufferDesc(AsU32(|data| * elemSize), BindVertexBuffer)
    ensures |Flatten(data)| == |data| * elemSize
    ensures r.Ok? ==>
      && r.value.stride == AsU32(elemSize) && r.value.offset == 0 && gpu.com.Owns(r.value.buffer)
      && r.value.buffer.ptr.id in gpu.contents
      && gpu.contents[r.value.buffer.ptr.id] == Flatten(data)[..AsU32(|data| * elemSize)]
  {
    FlattenLength(data, elemSize);
    r := CreateVertex(gpu, Flatten(data), AsU32(|data| * elemSize), AsU32(elemSize), 0);
  }

  /** `VertexBuffer::bind` as written: `self.buffer.clone()` adds a
      reference and `.into()` turns the clone into a raw pointer with
      `mem::forget`, so the reference is never given back: every bind
      raises the buffer's count by one for good. */
  method BindVertex(gpu: Gpu, vb: VertexBuffer)
    requires gpu.Valid() && gpu.com.Owns(vb.buffer)
    modifies gpu, gpu.com
    ensures gpu.Valid() && gpu.com.Owns(vb.buffer) && vb.buffer.ptr.id in old(gpu.com.counts)
    ensures gpu.resources == old(gpu.resources) && gpu.contents == old(gpu.contents) && gpu.mapped == old(gpu.mapped)
    ensures gpu.com.State() == Leaked(old(gpu.com.State()), vb.buffer.ptr.id, 1)
    ensures gpu.log == old(gpu.log) + [Call.IASetVertexBuffers(0, [vb.buffer.ptr], vb.stride, vb.offset)]
  {
    var copy := gpu.com.Clone(vb.buffer);
    var raw := gpu.com.IntoRaw(copy);
    gpu.Record(Call.IASetVertexBuffers(0, [raw], vb.stride, vb.offset));
  }

  /** The leak accumulates: after `k` binds the buffer counts `k` more
      references than its owners hold, so it can never be destroyed by
      dropping them. */
  lemma LeakyBindsNeverFree(l: Ledger, id: nat, k: nat)
    requires Balanced(l) && l.owned[id] > 0 && k > 0
    ensures id in l.counts
    ensures Leaked(l, id, k).counts[id] == l.owned[id] + l.raw[id] + k
    ensures Leaked(l, id, k).counts[id] > Leaked(l, id, k).owned[id]
  {
    assert BalancedAt(l, id);
  }

  /** `VertexBuffer::bind` as evidently intended, passing the pointer
      through `as_ptr` as `ConstantBuffer::bind` and `IndexBuffer::bind` do:
      no count changes. */
  method BindVertexBorrowed(gpu: Gpu, vb: VertexBuffer)
    requires gpu.Valid() && gpu.com.Owns(vb.buffer)
    modifies gpu
    ensures gpu.Valid() && gpu.com.Owns(vb.buffer) && gpu.com.State() == old(gpu.com.State())
    ensures gpu.resources == old(gpu.resources) && gpu.contents == old(gpu.contents) && gpu.mapped == old(gpu.mapped)
    ensures gpu.log == old(gpu.log) + [Call.IASetVertexBuffers(0, [vb.buffer.ptr], vb.stride, vb.offset)]
  {
    gpu.Record(Call.IASetVertexBuffers(0, [vb.buffer.ptr], vb.stride, vb.offset));
  }

  /** `VertexBuffer::unbind`: zero buffers. */
  method UnbindVertex(gpu: Gpu)
    requires gpu.Valid()
    modifies gpu
    ensures gpu.Valid()
    ensures gpu.resources == old(gpu.resources) && gpu.contents == old(gpu.contents) && gpu.mapped == old(gpu.mapped)
    ensures gpu.log == old(gpu.log) + [Call.IASetVertexBuffers(0, [], 0, 0)]
  {
    gpu.Record(Call.IASetVertexBuffers(0, [], 0, 0));
  }
}
