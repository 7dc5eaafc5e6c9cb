/**
 * The buffers of SampleFramework12's graphics types: `Buffer` sizing and its per-frame
 * N-buffer cycling, `RawBuffer` sizing and SRV offsets, `StructuredBuffer::ShaderTable`,
 * `Texture::BarrierRange` and `FeedbackTexture::DecodeWidth`/`DecodeHeight`.
 */
module GraphicsBuffers {
  import opened Ints
  import opened Utility
  import opened SF12Math
  import Arith
  import DX12

  /** `BufferInit`, without the initial bytes, the placement heap and the debug name. */
  datatype BufferInit = BufferInit(size: nat, alignment: nat, dynamic: bool, cpuAccessible: bool,
                                   allowUAV: bool, hasInitData: bool)

  /** The width of the resource `Initialize` creates: one slice, or RenderLatency slices when dynamic. */
  function ResourceWidth(size: nat, dynamic: bool): nat
  {
    if dynamic then size * DX12.RENDER_LATENCY else size
  }

  /** The byte offset of slice `k` of a buffer whose slices are `size` bytes. */
  function SliceOffset(k: nat, size: nat): nat
  {
    k * size
  }

  /** The offsets of the first `n` slices. */
  function Slices(n: nat, size: nat): (r: seq<nat>)
    ensures |r| == n && forall k :: 0 <= k < n ==> r[k] == SliceOffset(k, size)
  {
    seq(n, k requires 0 <= k < n => SliceOffset(k, size))
  }

  /** Every slice a dynamic buffer cycles through lies inside its resource. */
  lemma SliceInResource(k: nat, size: nat)
    requires k < DX12.RENDER_LATENCY
    ensures SliceOffset(k, size) + size <= ResourceWidth(size, true)
  {
    Arith.MulMonotone(k + 1, DX12.RENDER_LATENCY, size);
  }

  /** Distinct slices never overlap: slice i ends at or before slice j starts. */
  lemma SlicesDisjoint(i: nat, j: nat, size: nat)
    requires i < j
    ensures SliceOffset(i, size) + size <= SliceOffset(j, size)
  {
    Arith.MulMonotone(i + 1, j, size);
  }

  /**
   * Where `Initialize` copies the initial data, as written: a CPU-accessible buffer gets one
   * copy at the start of each of the RenderLatency slices; otherwise one upload per buffer
   * (RenderLatency of them when dynamic), the n-th at n times the UNALIGNED requested size.
   */
  function InitCopyOffsetsAsWritten(init: BufferInit, size: nat): (r: seq<nat>)
    ensures !init.hasInitData ==> r == []
    ensures init.hasInitData ==> |r| == (if init.cpuAccessible || init.dynamic then DX12.RENDER_LATENCY else 1)
  {
    if !init.hasInitData then []
    else if init.cpuAccessible then Slices(DX12.RENDER_LATENCY, size)
    else seq(if init.dynamic then DX12.RENDER_LATENCY else 1, i => i * init.size)
  }

  /**
   * The upload path places the second copy of a dynamic buffer's initial data at the
   * requested size rather than at the aligned slice `CycleBuffer` hands out: 100 bytes
   * aligned to 256 make 256-byte slices, but the copy lands at offset 100.
   */
  lemma InitCopyMisplaced()
    ensures var init := BufferInit(100, 256, true, false, false, true);
            var size := AlignUp(init.size, init.alignment);
            size == 256 && InitCopyOffsetsAsWritten(init, size)[1] == 100 &&
            InitCopyOffsetsAsWritten(init, size)[1] != SliceOffset(1, size)
  {
    var init := BufferInit(100, 256, true, false, false, true);
    var size := AlignUp(init.size, init.alignment);
    AlignUpIsLeast(100, 256, 256);
    assert size == 256;
  }

  /** The copies of the initial data, each at the start of its own slice. */
  function InitCopyOffsets(init: BufferInit, size: nat): (r: seq<nat>)
    ensures !init.hasInitData ==> r == []
    ensures init.hasInitData ==> |r| == (if init.cpuAccessible || init.dynamic then DX12.RENDER_LATENCY else 1)
  {
    if !init.hasInitData then []
    else Slices(if init.cpuAccessible || init.dynamic then DX12.RENDER_LATENCY else 1, size)
  }

  /**
   * With the slices placed by the corrected `InitCopyOffsets`, copy k is the k-th slice, and
   * the initial data of every copy fits in its slice and inside the resource.
   */
  lemma InitCopiesFitSlices(init: BufferInit, k: nat)
    requires init.hasInitData && init.alignment > 0 && (init.cpuAccessible ==> init.dynamic)
    requires k < |InitCopyOffsets(init, AlignUp(init.size, init.alignment))|
    ensures var size := AlignUp(init.size, init.alignment);
            var off := InitCopyOffsets(init, size)[k];
            off == SliceOffset(k, size) && off + init.size <= off + size <= ResourceWidth(size, init.dynamic)
  {
    var size := AlignUp(init.size, init.alignment);
    if init.dynamic {
      SliceInResource(k, size);
    }
  }

  /** `Buffer`: an aligned size, and for a dynamic buffer RenderLatency slices cycled per frame. */
  class Buffer {
    var size: nat
    var alignment: nat
    var dynamic: bool
    var cpuAccessible: bool
    var currBuffer: nat
    var uploadFrame: nat
    /** The width of the underlying resource; 0 while no resource exists. */
    var width: nat
    var initialized: bool

    ghost predicate Valid()
      reads this
    {
      currBuffer < DX12.RENDER_LATENCY &&
      (initialized ==> size > 0 && alignment > 0 && size % alignment == 0 && width == ResourceWidth(size, dynamic))
    }

    /** The header's defaults: nothing allocated, and no upload recorded (`UploadFrame = uint64(-1)`). */
    constructor ()
      ensures Valid() && !initialized && currBuffer == 0 && size == 0 && alignment == 0
      ensures !dynamic && !cpuAccessible && uploadFrame == U64_MAX && width == 0
    {
      size, alignment, dynamic, cpuAccessible := 0, 0, false, false;
      currBuffer, uploadFrame, width, initialized := 0, U64_MAX, 0, false;
    }

    /**
     * `Initialize`: the size is aligned up, the first slice is current, and the resource is
     * RenderLatency slices wide when dynamic. A UAV buffer may not be dynamic, and only a
     * dynamic buffer may be CPU-accessible.
     */
    method Initialize(init: BufferInit)
      requires init.size > 0 && init.alignment > 0
      requires init.allowUAV ==> !init.dynamic
      requires init.cpuAccessible ==> init.dynamic
      modifies this
      ensures Valid() && initialized && currBuffer == 0
      ensures size == AlignUp(init.size, init.alignment) && size >= init.size && alignment == init.alignment
      ensures dynamic == init.dynamic && cpuAccessible == init.cpuAccessible
      ensures width == ResourceWidth(size, dynamic) && uploadFrame == old(uploadFrame)
    {
      size := AlignUp(init.size, init.alignment);
      alignment := init.alignment;
      dynamic, cpuAccessible := init.dynamic, init.cpuAccessible;
      currBuffer := 0;
      width := ResourceWidth(size, dynamic);
      initialized := true;
    }

    /**
     * `CycleBuffer`: at most once per CPU frame, move to the next of the RenderLatency slices
     * and return its offset, which leaves a whole slice inside the resource.
     */
    method CycleBuffer(currentCPUFrame: nat) returns (offset: nat)
      requires Valid() && initialized && dynamic && uploadFrame != currentCPUFrame
      modifies this
      ensures Valid() && uploadFrame == currentCPUFrame
      ensures currBuffer == (old(currBuffer) + 1) % DX12.RENDER_LATENCY
      ensures offset == SliceOffset(currBuffer, size) && offset + size <= width
      ensures size == old(size) && alignment == old(alignment) && width == old(width) && initialized
      ensures dynamic == old(dynamic) && cpuAccessible == old(cpuAccessible)
    {
      uploadFrame := currentCPUFrame;
      currBuffer := (currBuffer + 1) % DX12.RENDER_LATENCY;
      SliceInResource(currBuffer, size);
      offset := currBuffer * size;
    }

    /** `Map`: a CPU-accessible dynamic buffer cycles and hands out the new slice's offset. */
    method Map(currentCPUFrame: nat) returns (offset: nat)
      requires Valid() && initialized && dynamic && cpuAccessible && uploadFrame != currentCPUFrame
      modifies this
      ensures Valid() && uploadFrame == currentCPUFrame
      ensures currBuffer == (old(currBuffer) + 1) % DX12.RENDER_LATENCY
      ensures offset == SliceOffset(currBuffer, size) && offset + size <= width
      ensures size == old(size) && width == old(width) && initialized
    {
      offset := CycleBuffer(currentCPUFrame);
    }

    /**
     * `QueueUpload`: for a dynamic buffer the GPU fills, the copy of `srcSize` bytes at
     * `dstOffset` must fit in one slice; the buffer cycles and the copy lands inside the new
     * slice. Returns the slice offset (the GPU address less the base) and the copy target.
     */
    method QueueUpload(srcSize: nat, dstOffset: nat, currentCPUFrame: nat) returns (sliceStart: nat, copyStart: nat)
      requires Valid() && initialized && dynamic && !cpuAccessible && uploadFrame != currentCPUFrame
      requires dstOffset + srcSize <= size
      modifies this
      ensures Valid() && uploadFrame == currentCPUFrame
      ensures currBuffer == (old(currBuffer) + 1) % DX12.RENDER_LATENCY
      ensures sliceStart == SliceOffset(currBuffer, size) && copyStart == sliceStart + dstOffset
      ensures sliceStart <= copyStart && copyStart + srcSize <= sliceStart + size <= width
      ensures size == old(size) && width == old(width) && initialized
    {
      sliceStart := CycleBuffer(currentCPUFrame);
      copyStart := sliceStart + dstOffset;
    }
  }

  // ---------------------------------------------------------------------------------------
  // RawBuffer

  /** `RawBuffer::Stride`: raw buffers address 4-byte elements. */
  const RAW_STRIDE: nat := 4

  /** The `BufferInit` `RawBuffer::Initialize` passes on: `AlignTo(4 * NumElements, 16)` bytes at 4-byte alignment. */
  function RawBufferInit(numElements: nat, dynamic: bool, cpuAccessible: bool, createUAV: bool, hasInitData: bool): (r: BufferInit)
    requires numElements > 0
    ensures r.size >= RAW_STRIDE * numElements && r.size % 16 == 0 && r.alignment == RAW_STRIDE
  {
    BufferInit(AlignUp(RAW_STRIDE * numElements, 16), RAW_STRIDE, dynamic, cpuAccessible, createUAV, hasInitData)
  }

  /** `SRVDesc(bufferIdx).Buffer.FirstElement`: `uint32(AlignTo(NumElements, 4) * bufferIdx)`. */
  function RawSRVFirstElement(numElements: nat, bufferIdx: nat): (r: u32)
    requires bufferIdx < DX12.RENDER_LATENCY
  {
    Wrap32(AlignUp(numElements, 4) * bufferIdx)
  }

  /** Four times `AlignTo(n, 4)` is `AlignTo(4n, 16)`. */
  lemma AlignUpScaled(n: nat)
    ensures RAW_STRIDE * AlignUp(n, 4) == AlignUp(RAW_STRIDE * n, 16)
  {
    var r := AlignUp(n, 4);
    var a := AlignUp(4 * n, 16);
    var q := r / 4;
    assert r == 4 * q;
    assert (4 * r) % 16 == 0 by { assert 4 * r == 16 * q; }
    AlignUpIsLeast(4 * n, 16, 4 * r);
    var k := a / 16;
    assert a == 16 * k;
    assert (4 * k) % 4 == 0 && 4 * k >= n;
    AlignUpIsLeast(n, 4, 4 * k);
  }

  /**
   * The SRV of slice `bufferIdx` starts exactly at the slice `CycleBuffer` hands out for that
   * index: FirstElement counts 4-byte elements, and four times it is the slice's byte offset
   * (while the product fits in 32 bits).
   */
  lemma RawSRVMatchesSlice(numElements: nat, bufferIdx: nat)
    requires numElements > 0 && bufferIdx < DX12.RENDER_LATENCY
    requires AlignUp(numElements, 4) * bufferIdx < TWO_32
    ensures var init := RawBufferInit(numElements, true, false, false, false);
            RAW_STRIDE * RawSRVFirstElement(numElements, bufferIdx) == SliceOffset(bufferIdx, AlignUp(init.size, init.alignment))
  {
    var init := RawBufferInit(numElements, true, false, false, false);
    var f := AlignUp(numElements, 4);
    AlignUpScaled(numElements);
    Arith.MultipleOf(f, RAW_STRIDE);
    assert init.size == f * RAW_STRIDE;
    AlignUpIsLeast(init.size, RAW_STRIDE, init.size);
    assert RawSRVFirstElement(numElements, bufferIdx) == f * bufferIdx;
    Arith.MulRotate(RAW_STRIDE, f, bufferIdx);
  }

  // ---------------------------------------------------------------------------------------
  // ShaderTable, BarrierRange, DecodeWidth/DecodeHeight

  /** `D3D12_GPU_VIRTUAL_ADDRESS_RANGE_AND_STRIDE`. */
  datatype AddressRangeAndStride = AddressRangeAndStride(startAddress: nat, sizeInBytes: nat, strideInBytes: nat)

  /**
   * `StructuredBuffer::ShaderTable(startElement, numElements)`: the start must be an element
   * of the table; the count is cut to the elements that remain.
   */
  function ShaderTable(gpuAddress: nat, stride: nat, tableElements: nat, startElement: nat, numElements: nat): (r: AddressRangeAndStride)
    requires startElement < tableElements
    ensures r.strideInBytes == stride && r.startAddress == gpuAddress + stride * startElement
    ensures r.sizeInBytes == stride * Min(numElements, tableElements - startElement)
  {
    var count := Min(numElements, tableElements - startElement);
    AddressRangeAndStride(gpuAddress + stride * startElement, count * stride, stride)
  }

  /**
   * The range `ShaderTable` returns lies inside the table's memory, holds at least one
   * record, and is exactly the requested one whenever that fits.
   */
  lemma ShaderTableInBounds(gpuAddress: nat, stride: nat, tableElements: nat, startElement: nat, numElements: nat)
    requires startElement < tableElements
    ensures var r := ShaderTable(gpuAddress, stride, tableElements, startElement, numElements);
            r.startAddress + r.sizeInBytes <= gpuAddress + stride * tableElements &&
            (numElements > 0 ==> r.sizeInBytes >= stride) &&
            (startElement + numElements <= tableElements ==> r.sizeInBytes == stride * numElements)
  {
    var count := Min(numElements, tableElements - startElement);
    Arith.MulMonotone(startElement + count, tableElements, stride);
    if numElements > 0 {
      Arith.MulMonotone(1, count, stride);
    }
  }

  /** `D3D12_BARRIER_SUBRESOURCE_RANGE` (one plane). */
  datatype SubresourceRange = SubresourceRange(firstMip: nat, numMips: nat, firstSlice: nat, numSlices: nat)

  /** `Texture::BarrierRange`: both starts must exist; both counts are cut to what remains. */
  function BarrierRange(texMips: nat, texArraySize: nat, startMip: nat, numMips: nat, startSlice: nat, numSlices: nat): (r: SubresourceRange)
    requires startMip < texMips && startSlice < texArraySize
    ensures r.firstMip == startMip && r.firstSlice == startSlice
    ensures r.numMips == Min(numMips, texMips - startMip) && r.numSlices == Min(numSlices, texArraySize - startSlice)
  {
    SubresourceRange(startMip, Min(numMips, texMips - startMip), startSlice, Min(numSlices, texArraySize - startSlice))
  }

  /**
   * The range `BarrierRange` returns stays inside the texture's mips and slices, is not
   * empty when the request is not, and keeps the requested counts whenever they fit.
   */
  lemma BarrierRangeInTexture(texMips: nat, texArraySize: nat, startMip: nat, numMips: nat, startSlice: nat, numSlices: nat)
    requires startMip < texMips && startSlice < texArraySize
    ensures var r := BarrierRange(texMips, texArraySize, startMip, numMips, startSlice, numSlices);
            r.firstMip + r.numMips <= texMips && r.firstSlice + r.numSlices <= texArraySize &&
            (numMips > 0 ==> r.numMips > 0) && (numSlices > 0 ==> r.numSlices > 0) &&
            (startMip + numMips <= texMips ==> r.numMips == numMips) &&
            (startSlice + numSlices <= texArraySize ==> r.numSlices == numSlices)
  {
  }

  /**
   * `FeedbackTexture::DecodeWidth`/`DecodeHeight`: the number of mip regions across a
   * dimension, `AlignTo(extent, region) / region` on 32 bits (which must not wrap).
   */
  function DecodeExtent(extent: u32, region: u32): (r: u32)
    requires region > 0 && extent + region - 1 < TWO_32
  {
    AlignTo32(extent, region) / region
  }

  /** DecodeExtent is the ceiling of extent / region: the least count of regions covering the extent. */
  lemma DecodeExtentIsCeiling(extent: u32, region: u32)
    requires region > 0 && extent + region - 1 < TWO_32
    ensures DecodeExtent(extent, region) * region >= extent
    ensures DecodeExtent(extent, region) == 0 || (DecodeExtent(extent, region) - 1) * region < extent
  {
    var a := AlignTo32(extent, region);
    var q := a / region;
    assert a == q * region;
    if q > 0 {
      assert (q - 1) * region == a - region;
    }
  }
}
