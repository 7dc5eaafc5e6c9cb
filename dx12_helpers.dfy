/**
 * Helpers of SampleFramework12's DX12 layer: DispatchSize, the enhanced-barrier batches and
 * their builder, the temporary buffers carved out of the per-frame upload memory, the sizing of
 * ClearRawBuffer, the descriptor heap capacities and the universal root signature layout.
 * Barrier descriptions, CPU addresses and resources are opaque handles.
 */
module DX12Helpers {
  import opened Ints
  import opened Utility
  import opened Wrappers
  import DX12
  import Arith
  import DX12Upload
  import GraphicsTypes

  /** `ConstantBufferAlignment` (D3D12_CONSTANT_BUFFER_DATA_PLACEMENT_ALIGNMENT). */
  const CONSTANT_BUFFER_ALIGNMENT: nat := 256

  /** Thread group width of the ClearRawBuffer compute shader. */
  const CLEAR_RAW_BUFFER_TG_SIZE: nat := 64

  // ---------------------------------------------------------------------------------------
  // DispatchSize

  /**
   * `DispatchSize`: the number of groups of `groupSize` covering `numElements`, with the
   * source's 64-bit addition and 32-bit result written out.
   */
  function DispatchSize(numElements: u64, groupSize: u64): (r: u32)
    requires groupSize > 0
  {
    (((numElements + (groupSize - 1)) % TWO_64) / groupSize) % TWO_32
  }

  /**
   * Without wrap-around, DispatchSize is the ceiling of numElements / groupSize: enough
   * groups to cover every element, and no fewer would do.
   */
  lemma DispatchSizeIsCeiling(numElements: u64, groupSize: u64)
    requires groupSize > 0 && numElements + groupSize - 1 < TWO_64
    requires AlignUp(numElements, groupSize) / groupSize < TWO_32
    ensures DispatchSize(numElements, groupSize) * groupSize == AlignUp(numElements, groupSize)
    ensures DispatchSize(numElements, groupSize) * groupSize >= numElements
    ensures forall k: nat :: k * groupSize >= numElements ==> k >= DispatchSize(numElements, groupSize)
  {
    var sum := numElements + groupSize - 1;
    var q := sum / groupSize;
    Arith.MultipleOf(q, groupSize);
    Arith.DivModUnique(sum, TWO_64, 0, sum);
    Arith.DivModUnique(q, TWO_32, 0, q);
    assert DispatchSize(numElements, groupSize) == q;
    forall k: nat | k * groupSize >= numElements
      ensures k >= q
    {
      Arith.MultipleOf(k, groupSize);
      AlignUpIsLeast(numElements, groupSize, k * groupSize);
      if k < q {
        Arith.MulMonotone(k + 1, q, groupSize);
        Arith.MulSucc(k, groupSize);
        assert false;
      }
    }
  }

  // ---------------------------------------------------------------------------------------
  // Barrier batches

  /** The three barrier kinds, in the order `Barrier` emits their groups. */
  datatype BarrierKind = BufferKind | TextureKind | GlobalKind

  function Rank(k: BarrierKind): nat
  {
    match k
    case BufferKind => 0
    case TextureKind => 1
    case GlobalKind => 2
  }

  /**
   * `BarrierBatch`: for each kind the array the pointer designates (empty for null) and the
   * count of barriers taken from its start.
   */
  datatype BarrierBatch = BarrierBatch(
    bufferBarriers: seq<nat>, numBufferBarriers: nat,
    textureBarriers: seq<nat>, numTextureBarriers: nat,
    globalBarriers: seq<nat>, numGlobalBarriers: nat)
  {
    /** The source's asserts: a nonzero count comes with a pointer to that many barriers. */
    predicate WellFormed()
    {
      numBufferBarriers <= |bufferBarriers| && numTextureBarriers <= |textureBarriers| &&
      numGlobalBarriers <= |globalBarriers|
    }

    function Count(k: BarrierKind): nat
    {
      match k
      case BufferKind => numBufferBarriers
      case TextureKind => numTextureBarriers
      case GlobalKind => numGlobalBarriers
    }

    /** The barriers of one kind the batch submits. */
    function Of(k: BarrierKind): (r: seq<nat>)
      requires WellFormed()
      ensures |r| == Count(k)
    {
      match k
      case BufferKind => bufferBarriers[..numBufferBarriers]
      case TextureKind => textureBarriers[..numTextureBarriers]
      case GlobalKind => globalBarriers[..numGlobalBarriers]
    }

    function NumKinds(): nat
    {
      (if numBufferBarriers > 0 then 1 else 0) + (if numTextureBarriers > 0 then 1 else 0) +
      (if numGlobalBarriers > 0 then 1 else 0)
    }
  }

  /** `D3D12_BARRIER_GROUP`: a kind and the barriers the group points at. */
  datatype BarrierGroup = BarrierGroup(kind: BarrierKind, barriers: seq<nat>)

  /** The group of one kind, or nothing when that kind has no barriers. */
  function GroupIfAny(batch: BarrierBatch, k: BarrierKind): (r: seq<BarrierGroup>)
    requires batch.WellFormed()
  {
    if batch.Count(k) > 0 then [BarrierGroup(k, batch.Of(k))] else []
  }

  /**
   * `Barrier(cmdList, batch)`: the groups handed to the command list. Nothing when every
   * count is zero; otherwise one group per kind that has barriers, buffer before texture
   * before global, each carrying exactly that kind's barriers.
   */
  function Barrier(batch: BarrierBatch): (r: seq<BarrierGroup>)
    requires batch.WellFormed()
    ensures |r| == batch.NumKinds()
    ensures |r| == 0 <==> batch.numBufferBarriers + batch.numTextureBarriers + batch.numGlobalBarriers == 0
    ensures forall i :: 0 <= i < |r| ==> batch.Count(r[i].kind) > 0 && r[i].barriers == batch.Of(r[i].kind)
    ensures forall i, j :: 0 <= i < j < |r| ==> Rank(r[i].kind) < Rank(r[j].kind)
  {
    if batch.numBufferBarriers + batch.numTextureBarriers + batch.numGlobalBarriers == 0 then []
    else GroupIfAny(batch, BufferKind) + GroupIfAny(batch, TextureKind) + GroupIfAny(batch, GlobalKind)
  }

  /** Every kind that has barriers gets a group. */
  lemma BarrierCoversEveryKind(batch: BarrierBatch, k: BarrierKind)
    requires batch.WellFormed() && batch.Count(k) > 0
    ensures exists i :: 0 <= i < |Barrier(batch)| && Barrier(batch)[i].kind == k
  {
    var r := Barrier(batch);
    var g := BarrierGroup(k, batch.Of(k));
    assert g in GroupIfAny(batch, k);
    match k {
      case BufferKind =>
        assert r[0] == g;
      case TextureKind =>
        assert r[if batch.numBufferBarriers > 0 then 1 else 0] == g;
      case GlobalKind =>
        assert r[|r| - 1] == g;
    }
  }

  /** Capacity of each of `BarrierBatchBuilder`'s arrays. */
  const MAX_BATCH_BARRIERS: nat := 16

  /** `BarrierBatchBuilder`: three fixed arrays of 16 barriers, each with its count. */
  class BarrierBatchBuilder {
    var bufferBarriers: array<nat>
    var numBufferBarriers: nat
    var textureBarriers: array<nat>
    var numTextureBarriers: nat
    var globalBarriers: array<nat>
    var numGlobalBarriers: nat

    ghost predicate Valid()
      reads this
    {
      bufferBarriers.Length == MAX_BATCH_BARRIERS && textureBarriers.Length == MAX_BATCH_BARRIERS &&
      globalBarriers.Length == MAX_BATCH_BARRIERS &&
      bufferBarriers != textureBarriers && textureBarriers != globalBarriers && bufferBarriers != globalBarriers &&
      numBufferBarriers <= MAX_BATCH_BARRIERS && numTextureBarriers <= MAX_BATCH_BARRIERS &&
      numGlobalBarriers <= MAX_BATCH_BARRIERS
    }

    /** The barriers added so far, per kind, in the order they were added. */
    ghost function Buffers(): seq<nat>
      requires Valid()
      reads this, bufferBarriers
    {
      bufferBarriers[..numBufferBarriers]
    }

    ghost function Textures(): seq<nat>
      requires Valid()
      reads this, textureBarriers
    {
      textureBarriers[..numTextureBarriers]
    }

    ghost function Globals(): seq<nat>
      requires Valid()
      reads this, globalBarriers
    {
      globalBarriers[..numGlobalBarriers]
    }

    constructor ()
      ensures Valid() && Buffers() == [] && Textures() == [] && Globals() == []
      ensures fresh(bufferBarriers) && fresh(textureBarriers) && fresh(globalBarriers)
    {
      bufferBarriers := new nat[MAX_BATCH_BARRIERS](_ => 0);
      textureBarriers := new nat[MAX_BATCH_BARRIERS](_ => 0);
      globalBarriers := new nat[MAX_BATCH_BARRIERS](_ => 0);
      numBufferBarriers, numTextureBarriers, numGlobalBarriers := 0, 0, 0;
    }

    /** `Add(D3D12_BUFFER_BARRIER)`: appended to the buffer barriers; the source asserts room. */
    method AddBuffer(barrier: nat)
      requires Valid() && numBufferBarriers < MAX_BATCH_BARRIERS
      modifies this, bufferBarriers
      ensures Valid() && Buffers() == old(Buffers()) + [barrier]
      ensures Textures() == old(Textures()) && Globals() == old(Globals())
      ensures textureBarriers == old(textureBarriers) && globalBarriers == old(globalBarriers)
      ensures bufferBarriers == old(bufferBarriers)
    {
      bufferBarriers[numBufferBarriers] := barrier;
      numBufferBarriers := numBufferBarriers + 1;
    }

    /** `Add(D3D12_TEXTURE_BARRIER)`: appended to the texture barriers. */
    method AddTexture(barrier: nat)
      requires Valid() && numTextureBarriers < MAX_BATCH_BARRIERS
      modifies this, textureBarriers
      ensures Valid() && Textures() == old(Textures()) + [barrier]
      ensures Buffers() == old(Buffers()) && Globals() == old(Globals())
      ensures bufferBarriers == old(bufferBarriers) && globalBarriers == old(globalBarriers)
      ensures textureBarriers == old(textureBarriers)
    {
      textureBarriers[numTextureBarriers] := barrier;
      numTextureBarriers := numTextureBarriers + 1;
    }

    /** `Add(D3D12_GLOBAL_BARRIER)`: appended to the global barriers. */
    method AddGlobal(barrier: nat)
      requires Valid() && numGlobalBarriers < MAX_BATCH_BARRIERS
      modifies this, globalBarriers
      ensures Valid() && Globals() == old(Globals()) + [barrier]
      ensures Buffers() == old(Buffers()) && Textures() == old(Textures())
      ensures bufferBarriers == old(bufferBarriers) && textureBarriers == old(textureBarriers)
      ensures globalBarriers == old(globalBarriers)
    {
      globalBarriers[numGlobalBarriers] := barrier;
      numGlobalBarriers := numGlobalBarriers + 1;
    }

    /**
     * `Build`: the batch points at the builder's arrays with its counts, so the barriers it
     * submits are exactly those added, per kind, in insertion order.
     */
    method Build() returns (batch: BarrierBatch)
      requires Valid()
      ensures batch.WellFormed()
      ensures batch.Of(BufferKind) == Buffers() && batch.Of(TextureKind) == Textures()
      ensures batch.Of(GlobalKind) == Globals()
    {
      batch := BarrierBatch(bufferBarriers[..], numBufferBarriers, textureBarriers[..], numTextureBarriers,
                            globalBarriers[..], numGlobalBarriers);
    }
  }

  // ---------------------------------------------------------------------------------------
  // Temporary buffers

  /** The view a temporary buffer's descriptor describes. */
  datatype BufferView =
    | ConstantBufferView(sizeInBytes: nat)
    | BufferSRV(firstElement: nat, numElements: nat, structureByteStride: nat, raw: bool)

  /**
   * `TempBuffer`: where the memory is (its frame's temporary buffer and the offset), the GPU
   * address offset when set (0 when not), and the descriptor index with the view it was
   * created for when a descriptor was asked for.
   */
  datatype TempBuffer = TempBuffer(mem: DX12Upload.TempMem, gpuOffset: nat, descriptor: Option<(nat, BufferView)>)

  /** What `AcquireTempBufferMem` and `AllocateTemporary` assert on the way. */
  ghost predicate CanAllocate(temp: DX12Upload.TempFrameAllocator, heap: GraphicsTypes.DescriptorHeap,
                              size: nat, alignment: nat, makeDescriptor: bool)
    reads temp, heap, heap.deadList
  {
    alignment > 0 && AlignUp(temp.used, alignment) + size <= DX12Upload.TEMP_BUFFER_SIZE &&
    (makeDescriptor ==> heap.Valid() && heap.heapsCreated && heap.heapIndex < heap.numHeaps &&
                        heap.temporaryAllocated < heap.numTemporary)
  }

  /**
   * `TempConstantBuffer`: memory aligned to 256 bytes; the constant buffer view covers the
   * size rounded up to 256. The rounding can reach up to 255 bytes past the bytes taken from
   * the frame: only the first `cbSize` bytes of the view belong to this buffer.
   */
  method TempConstantBuffer(temp: DX12Upload.TempFrameAllocator, heap: GraphicsTypes.DescriptorHeap,
                            currFrameIdx: nat, cbSize: nat, makeDescriptor: bool) returns (r: TempBuffer)
    requires cbSize > 0 && CanAllocate(temp, heap, cbSize, CONSTANT_BUFFER_ALIGNMENT, makeDescriptor)
    modifies temp, heap
    ensures temp.used == old(temp.used) + cbSize + CONSTANT_BUFFER_ALIGNMENT
    ensures r.mem.frameIdx == currFrameIdx && r.gpuOffset == r.mem.offset
    ensures r.mem.offset % CONSTANT_BUFFER_ALIGNMENT == 0 && old(temp.used) <= r.mem.offset
    ensures r.descriptor.Some? <==> makeDescriptor
    ensures makeDescriptor ==>
      r.descriptor.value.1 == ConstantBufferView(AlignUp(cbSize, CONSTANT_BUFFER_ALIGNMENT)) &&
      cbSize <= r.descriptor.value.1.sizeInBytes && r.mem.offset + cbSize <= temp.used &&
      r.mem.offset + r.descriptor.value.1.sizeInBytes < temp.used + CONSTANT_BUFFER_ALIGNMENT &&
      r.descriptor.value.0 == heap.numPersistent + old(heap.temporaryAllocated)
  {
    var mem := temp.AcquireTempBufferMem(cbSize, CONSTANT_BUFFER_ALIGNMENT, currFrameIdx);
    r := TempBuffer(mem, mem.offset, None);
    if makeDescriptor {
      var alloc := heap.AllocateTemporary(1);
      r := r.(descriptor := Some((alloc.startIndex, ConstantBufferView(AlignUp(cbSize, CONSTANT_BUFFER_ALIGNMENT)))));
    }
  }

  /**
   * `TempStructuredBuffer`: memory aligned to the stride, so the view's first element times
   * the stride is exactly the offset and the view's elements lie inside the block acquired.
   */
  method TempStructuredBuffer(temp: DX12Upload.TempFrameAllocator, heap: GraphicsTypes.DescriptorHeap,
                              currFrameIdx: nat, numElements: nat, stride: nat, makeDescriptor: bool)
    returns (r: TempBuffer)
    requires numElements > 0 && stride > 0 && stride % 4 == 0
    requires CanAllocate(temp, heap, numElements * stride, stride, makeDescriptor)
    modifies temp, heap
    ensures temp.used == old(temp.used) + numElements * stride + stride
    ensures r.mem.frameIdx == currFrameIdx && r.gpuOffset == r.mem.offset && old(temp.used) <= r.mem.offset
    ensures r.descriptor.Some? <==> makeDescriptor
    ensures makeDescriptor ==>
      r.descriptor.value.1 == BufferSRV(ElementIndex(r.mem.offset, stride), numElements, stride, false) &&
      r.descriptor.value.1.firstElement * stride == r.mem.offset &&
      (r.descriptor.value.1.firstElement + numElements) * stride <= temp.used
  {
    var mem := temp.AcquireTempBufferMem(numElements * stride, stride, currFrameIdx);
    r := TempBuffer(mem, mem.offset, None);
    if makeDescriptor {
      var alloc := heap.AllocateTemporary(1);
      var view := BufferSRV(ElementIndex(mem.offset, stride), numElements, stride, false);
      ElementOffset(mem.offset, stride, numElements);
      r := r.(descriptor := Some((alloc.startIndex, view)));
    }
  }

  /**
   * `TempFormattedBuffer`: the stride is the format's bits per pixel over 8 (the format
   * table is the device's, so `bitsPerPixel` is an input); the view is typed, not structured.
   */
  method TempFormattedBuffer(temp: DX12Upload.TempFrameAllocator, heap: GraphicsTypes.DescriptorHeap,
                             currFrameIdx: nat, numElements: nat, bitsPerPixel: nat, makeDescriptor: bool)
    returns (r: TempBuffer)
    requires numElements > 0 && bitsPerPixel / 8 > 0
    requires CanAllocate(temp, heap, numElements * (bitsPerPixel / 8), bitsPerPixel / 8, makeDescriptor)
    modifies temp, heap
    ensures temp.used == old(temp.used) + numElements * (bitsPerPixel / 8) + bitsPerPixel / 8
    ensures r.mem.frameIdx == currFrameIdx && r.gpuOffset == r.mem.offset && old(temp.used) <= r.mem.offset
    ensures r.descriptor.Some? <==> makeDescriptor
    ensures makeDescriptor ==>
      r.descriptor.value.1 == BufferSRV(ElementIndex(r.mem.offset, bitsPerPixel / 8), numElements, 0, false) &&
      r.descriptor.value.1.firstElement * (bitsPerPixel / 8) == r.mem.offset
  {
    var stride := bitsPerPixel / 8;
    var mem := temp.AcquireTempBufferMem(numElements * stride, stride, currFrameIdx);
    r := TempBuffer(mem, mem.offset, None);
    if makeDescriptor {
      var alloc := heap.AllocateTemporary(1);
      ElementOffset(mem.offset, stride, numElements);
      r := r.(descriptor := Some((alloc.startIndex, BufferSRV(ElementIndex(mem.offset, stride), numElements, 0, false))));
    }
  }

  /**
   * `TempRawBuffer`: a stride of 4 and a raw view. Only the CPU address is filled in: the
   * GPU address keeps its default of 0.
   */
  method TempRawBuffer(temp: DX12Upload.TempFrameAllocator, heap: GraphicsTypes.DescriptorHeap,
                       currFrameIdx: nat, numElements: nat, makeDescriptor: bool) returns (r: TempBuffer)
    requires numElements > 0 && CanAllocate(temp, heap, numElements * 4, 4, makeDescriptor)
    modifies temp, heap
    ensures temp.used == old(temp.used) + numElements * 4 + 4
    ensures r.mem.frameIdx == currFrameIdx && r.gpuOffset == 0 && old(temp.used) <= r.mem.offset
    ensures r.descriptor.Some? <==> makeDescriptor
    ensures makeDescriptor ==>
      r.descriptor.value.1 == BufferSRV(ElementIndex(r.mem.offset, 4), numElements, 0, true) &&
      r.descriptor.value.1.firstElement * 4 == r.mem.offset &&
      (r.descriptor.value.1.firstElement + numElements) * 4 <= temp.used
  {
    var mem := temp.AcquireTempBufferMem(numElements * 4, 4, currFrameIdx);
    r := TempBuffer(mem, 0, None);
    if makeDescriptor {
      var alloc := heap.AllocateTemporary(1);
      ElementOffset(mem.offset, 4, numElements);
      r := r.(descriptor := Some((alloc.startIndex, BufferSRV(ElementIndex(mem.offset, 4), numElements, 0, true))));
    }
  }

  /** The element an offset falls in: the view's `FirstElement`. */
  function ElementIndex(offset: nat, stride: nat): nat
    requires stride > 0
  {
    offset / stride
  }

  /** An offset aligned to the stride is a whole number of elements. */
  lemma ElementOffset(offset: nat, stride: nat, numElements: nat)
    requires stride > 0 && offset % stride == 0
    ensures ElementIndex(offset, stride) * stride == offset
    ensures (ElementIndex(offset, stride) + numElements) * stride == offset + numElements * stride
  {
  }

  // ---------------------------------------------------------------------------------------
  // ClearRawBuffer

  /**
   * `ClearRawBuffer`'s sizing: the buffer's bytes rounded up to 16, counted in 16-byte
   * elements (a 32-bit field), and the groups of 64 threads that cover them.
   */
  function ClearRawBufferSize(numElements: nat, stride: nat): (r: (nat, nat))
    requires numElements * stride + 15 < TWO_64
  {
    var num16 := (AlignUp(numElements * stride, 16) / 16) % TWO_32;
    (num16, DispatchSize(num16, CLEAR_RAW_BUFFER_TG_SIZE))
  }

  /**
   * Below 2^36 bytes the cleared elements cover the whole buffer and reach less than 16 bytes
   * past it, and the dispatch has a thread for each of them.
   */
  lemma ClearRawBufferCovers(numElements: nat, stride: nat)
    requires numElements * stride + 16 <= TWO_32 * 16
    ensures ClearRawBufferSize(numElements, stride).0 * 16 == AlignUp(numElements * stride, 16)
    ensures numElements * stride <= ClearRawBufferSize(numElements, stride).0 * 16 < numElements * stride + 16
    ensures ClearRawBufferSize(numElements, stride).1 * CLEAR_RAW_BUFFER_TG_SIZE >= ClearRawBufferSize(numElements, stride).0
  {
    var bytes := AlignUp(numElements * stride, 16);
    Arith.MultipleOf(bytes / 16, 16);
    assert bytes / 16 < TWO_32;
    var num16 := ClearRawBufferSize(numElements, stride).0;
    assert num16 == bytes / 16;
    AlignUpIsLeast(num16, CLEAR_RAW_BUFFER_TG_SIZE, AlignUp(num16, CLEAR_RAW_BUFFER_TG_SIZE));
    DispatchSizeIsCeiling(num16, CLEAR_RAW_BUFFER_TG_SIZE);
  }

  // ---------------------------------------------------------------------------------------
  // Descriptor heaps and the universal root signature

  const RTV_HEAP_SIZE: nat := 256
  const SRV_HEAP_PERSISTENT: nat := 1024 * 16
  const SRV_HEAP_TEMPORARY: nat := 4096
  const DSV_HEAP_SIZE: nat := 256

  /**
   * The heap part of `Initialize_Helpers`: an RTV heap of 256, a shader-visible (so
   * double-buffered) SRV heap of 16384 persistent and 4096 temporary descriptors, and a DSV heap
   * of 256. Descriptor sizes and start addresses are the device's.
   */
  method InitializeHeaps(rtv: GraphicsTypes.DescriptorHeap, srv: GraphicsTypes.DescriptorHeap,
                         dsv: GraphicsTypes.DescriptorHeap, sizes: (nat, nat, nat),
                         cpuStarts: seq<nat>, gpuStarts: seq<nat>)
    requires rtv != srv && srv != dsv && rtv != dsv
    requires rtv.persistentAllocated == 0 && srv.persistentAllocated == 0 && dsv.persistentAllocated == 0
    requires |cpuStarts| == DX12.RENDER_LATENCY && |gpuStarts| == DX12.RENDER_LATENCY
    modifies rtv, srv, dsv
    ensures rtv.Valid() && rtv.numPersistent == RTV_HEAP_SIZE && rtv.numTemporary == 0
    ensures !rtv.shaderVisible && rtv.numHeaps == 1 && rtv.Live() == {}
    ensures srv.Valid() && srv.numPersistent == SRV_HEAP_PERSISTENT && srv.numTemporary == SRV_HEAP_TEMPORARY
    ensures srv.shaderVisible && srv.numHeaps == 2 && srv.Live() == {}
    ensures dsv.Valid() && dsv.numPersistent == DSV_HEAP_SIZE && dsv.numTemporary == 0
    ensures !dsv.shaderVisible && dsv.numHeaps == 1 && dsv.Live() == {}
  {
    rtv.Init(RTV_HEAP_SIZE, 0, GraphicsTypes.Rtv, false, sizes.0, cpuStarts, gpuStarts);
    srv.Init(SRV_HEAP_PERSISTENT, SRV_HEAP_TEMPORARY, GraphicsTypes.CbvSrvUav, true, sizes.1, cpuStarts, gpuStarts);
    dsv.Init(DSV_HEAP_SIZE, 0, GraphicsTypes.Dsv, false, sizes.2, cpuStarts, gpuStarts);
  }

  /** `UniversalRootSignatureParams`: eight constant buffers, then the app settings. */
  const URS_CONSTANT_BUFFERS: nat := 0
  const URS_CONSTANT_BUFFERS_END: nat := URS_CONSTANT_BUFFERS + 7
  const URS_APP_SETTINGS: nat := URS_CONSTANT_BUFFERS_END + 1
  const NUM_UNIVERSAL_ROOT_SIGNATURE_PARAMS: nat := URS_APP_SETTINGS + 1
  const NUM_UNIVERSAL_ROOT_SIGNATURE_CONSTANT_BUFFERS: nat := (URS_CONSTANT_BUFFERS_END - URS_CONSTANT_BUFFERS) + 1

  /** The root parameter of constant buffer slot `i`: one of the first eight, never the app settings. */
  function ConstantBufferParam(i: nat): (r: nat)
    requires i < NUM_UNIVERSAL_ROOT_SIGNATURE_CONSTANT_BUFFERS
    ensures URS_CONSTANT_BUFFERS <= r <= URS_CONSTANT_BUFFERS_END && r != URS_APP_SETTINGS
    ensures r < NUM_UNIVERSAL_ROOT_SIGNATURE_PARAMS && NUM_UNIVERSAL_ROOT_SIGNATURE_PARAMS == 9
  {
    URS_CONSTANT_BUFFERS + i
  }
}
