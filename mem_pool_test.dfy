/**
 * The benchmark application: whether the input buffer is CPU-writable, the sizes CreateBuffers
 * derives from the settings, the enumeration of benchmark configurations, the state machine
 * that applies each configuration, samples it for 64 frames after 8 warm-up frames and
 * aggregates the samples, the CSV report, and the settings changes that rebuild the buffers
 * or recompile the compute job.
 */
module MemPoolTest {
  import opened Wrappers
  import opened Ints
  import opened SF12Math
  import opened Utility
  import opened Settings
  import opened AppSettings
  import DX12
  import DX12Helpers

  const NUM_BENCHMARK_WARMUP_FRAMES: nat := 8
  const NUM_BENCHMARK_MEASURE_FRAMES: nat := 64
  const NUM_BENCHMARK_TOTAL_FRAMES: nat := NUM_BENCHMARK_WARMUP_FRAMES + NUM_BENCHMARK_MEASURE_FRAMES

  /** D3D12_REQ_CONSTANT_BUFFER_ELEMENT_COUNT (4096) elements of 16 bytes. */
  const MAX_CBUFFER_SIZE: nat := 4096 * 16
  /** The largest input buffer of any other type: 1 GiB. */
  const MAX_INPUT_BUFFER_SIZE: nat := 1024 * 1024 * 1024
  /** D3D12_DEFAULT_RESOURCE_PLACEMENT_ALIGNMENT. */
  const PLACEMENT_ALIGNMENT: nat := 65536
  const MB: nat := 1024 * 1024

  // ---------------------------------------------------------------------------------------
  // Configurations and CPU-writability

  datatype BenchmarkConfig = BenchmarkConfig(
    HeapType: HeapTypes,
    CPUPageProperty: CPUPageProperties,
    MemoryPool: MemoryPools,
    InputBufferType: BufferTypes,
    NumThreadGroups: u32,
    InputBufferSize: u64,
    ElemsPerThread: u32,
    ThreadElemStride: u32,
    GroupElemOffset: u32,
    ThreadElemOffset: u32)

  /** A default-constructed `BenchmarkConfig`. */
  const DEFAULT_CONFIG: BenchmarkConfig := BenchmarkConfig(Upload, NotAvailable, L0, Raw, 0, 0, 0, 0, 0, 0)

  /** `IsInputBufferCPUWritable(config)`. */
  predicate IsInputBufferCPUWritable(config: BenchmarkConfig)
  {
    if config.HeapType == Upload || config.HeapType == GPUUpload then true
    else if config.HeapType == Custom && config.CPUPageProperty != NotAvailable then true
    else false
  }

  /** The overload reading the live settings, which compares the stored values with the enumerators. */
  predicate IsLiveInputBufferCPUWritable(heapType: u32, cpuPageProperty: u32)
  {
    if heapType == Upload.Index() || heapType == GPUUpload.Index() then true
    else if heapType == Custom.Index() && cpuPageProperty != NotAvailable.Index() then true
    else false
  }

  /**
   * The two overloads agree on equal values, and the buffer is CPU-writable exactly when it
   * does not live in a default heap or in a custom heap without CPU access.
   */
  lemma CPUWritableOverloadsAgree(config: BenchmarkConfig)
    ensures IsLiveInputBufferCPUWritable(config.HeapType.Index(), config.CPUPageProperty.Index())
            == IsInputBufferCPUWritable(config)
    ensures IsInputBufferCPUWritable(config) <==>
            config.HeapType != Default && (config.HeapType == Custom ==> config.CPUPageProperty != NotAvailable)
  {
  }

  // ---------------------------------------------------------------------------------------
  // CreateBuffers arithmetic

  function InputBufferAlignment(bufferType: BufferTypes): (r: nat)
    ensures r > 0
  {
    if bufferType == Constant then DX12Helpers.CONSTANT_BUFFER_ALIGNMENT else 1
  }

  function MaxInputBufferSize(bufferType: BufferTypes): (r: nat)
    ensures r % InputBufferAlignment(bufferType) == 0
  {
    if bufferType == Constant then MAX_CBUFFER_SIZE else MAX_INPUT_BUFFER_SIZE
  }

  /** The size the three size settings request, in bytes. */
  function RequestedSize(sizeMB: int, sizeKB: int, sizeBytes: int): int
  {
    sizeMB * MB + sizeKB * 1024 + sizeBytes
  }

  /**
   * `inputBufferSize`: the requested size clamped to [1, max] and aligned, where max is 64 KiB
   * and the alignment 256 for a constant buffer, else 1 GiB and 1. The size settings' ranges
   * keep the int32 arithmetic from overflowing.
   */
  function InputBufferSize(sizeMB: int, sizeKB: int, sizeBytes: int, bufferType: BufferTypes): (r: u32)
    requires 0 <= sizeMB <= 256 && 0 <= sizeKB <= 1024 && 0 <= sizeBytes <= 1024
    ensures 1 <= r <= MaxInputBufferSize(bufferType)
    ensures r % InputBufferAlignment(bufferType) == 0
    ensures Clamp(RequestedSize(sizeMB, sizeKB, sizeBytes), 1, MaxInputBufferSize(bufferType)) <= r
    ensures bufferType != Constant ==> r == Clamp(RequestedSize(sizeMB, sizeKB, sizeBytes), 1, MAX_INPUT_BUFFER_SIZE)
  {
    var clamped := Clamp(RequestedSize(sizeMB, sizeKB, sizeBytes), 1, MaxInputBufferSize(bufferType));
    var r := AlignTo32(clamped, InputBufferAlignment(bufferType));
    AlignUpIsLeast(clamped, InputBufferAlignment(bufferType), MaxInputBufferSize(bufferType));
    r
  }

  /** The size is the least aligned value that is at least the clamped request. */
  lemma InputBufferSizeIsLeast(sizeMB: int, sizeKB: int, sizeBytes: int, bufferType: BufferTypes, m: nat)
    requires 0 <= sizeMB <= 256 && 0 <= sizeKB <= 1024 && 0 <= sizeBytes <= 1024
    requires m % InputBufferAlignment(bufferType) == 0
    requires m >= Clamp(RequestedSize(sizeMB, sizeKB, sizeBytes), 1, MaxInputBufferSize(bufferType))
    ensures m >= InputBufferSize(sizeMB, sizeKB, sizeBytes, bufferType)
  {
    AlignUpIsLeast(Clamp(RequestedSize(sizeMB, sizeKB, sizeBytes), 1, MaxInputBufferSize(bufferType)),
                   InputBufferAlignment(bufferType), m);
  }

  /**
   * The input buffer is created with `numInputElems * 4` raw elements, and a raw buffer needs
   * at least one: the size holds a 16-byte element exactly when the buffer is a constant buffer
   * (its size is a non-zero multiple of 256) or the request is at least 16 bytes.
   */
  lemma InputElementsIff(sizeMB: int, sizeKB: int, sizeBytes: int, bufferType: BufferTypes)
    requires 0 <= sizeMB <= 256 && 0 <= sizeKB <= 1024 && 0 <= sizeBytes <= 1024
    ensures InputBufferSize(sizeMB, sizeKB, sizeBytes, bufferType) / 16 > 0 <==>
            bufferType == Constant || RequestedSize(sizeMB, sizeKB, sizeBytes) >= 16
  {
    var r := InputBufferSize(sizeMB, sizeKB, sizeBytes, bufferType);
    if bufferType == Constant {
      assert r % 256 == 0 && r >= 1;
    } else {
      assert RequestedSize(sizeMB, sizeKB, sizeBytes) <= 256 * MB + 1024 * 1024 + 1024 < MAX_INPUT_BUFFER_SIZE;
    }
  }

  /** `totalInputBufferSize`: room for one copy per frame in flight, aligned for placement in the heap. */
  function InputHeapSize(inputBufferSize: u32): (r: u32)
    requires 1 <= inputBufferSize <= MAX_INPUT_BUFFER_SIZE
    ensures r % PLACEMENT_ALIGNMENT == 0
    ensures inputBufferSize * DX12.RENDER_LATENCY <= r < inputBufferSize * DX12.RENDER_LATENCY + PLACEMENT_ALIGNMENT
  {
    AlignTo32(inputBufferSize * DX12.RENDER_LATENCY, PLACEMENT_ALIGNMENT)
  }

  datatype SrvView = SrvView(FirstElement: nat, NumElements: nat, ElementSize: nat)

  /**
   * The views of the input buffer, one per frame in flight. A raw view counts 4-byte elements
   * (the buffer holds 4 of them per 16-byte element), the others 16-byte elements; a constant
   * buffer gets no view. Only a CPU-writable buffer has one copy per frame.
   */
  function InputBufferViews(bufferType: BufferTypes, cpuWritable: bool, numInputElems: nat): (r: seq<SrvView>)
    ensures bufferType == Constant ==> r == []
    ensures bufferType != Constant ==> |r| == DX12.RENDER_LATENCY
    ensures forall i :: 0 <= i < |r| ==>
              r[i].ElementSize * r[i].NumElements == 16 * numInputElems &&
              r[i].ElementSize * r[i].FirstElement == (if cpuWritable then i * 16 * numInputElems else 0)
  {
    if bufferType == Constant then []
    else
      var elemSize := if bufferType == Raw then 4 else 16;
      var numElements := if bufferType == Raw then numInputElems * 4 else numInputElems;
      seq(DX12.RENDER_LATENCY, i requires 0 <= i => SrvView(if cpuWritable then numElements * i else 0, numElements, elemSize))
  }

  /** View i of a CPU-writable buffer covers exactly the i-th copy, inside the heap. */
  lemma InputBufferViewsInHeap(bufferType: BufferTypes, inputBufferSize: u32, i: nat)
    requires 1 <= inputBufferSize <= MAX_INPUT_BUFFER_SIZE
    requires bufferType != Constant && i < DX12.RENDER_LATENCY
    ensures var v := InputBufferViews(bufferType, true, inputBufferSize / 16)[i];
            v.ElementSize * v.FirstElement == i * 16 * (inputBufferSize / 16) &&
            v.ElementSize * (v.FirstElement + v.NumElements) <= InputHeapSize(inputBufferSize)
  {
    var n := inputBufferSize / 16;
    var v := InputBufferViews(bufferType, true, n)[i];
    assert v.ElementSize * (v.FirstElement + v.NumElements) == (i + 1) * 16 * n;
    assert (i + 1) * 16 * n <= 2 * 16 * n;
  }

  // ---------------------------------------------------------------------------------------
  // The enumeration of InitBenchmark

  /** The numeric fields the six innermost loops of InitBenchmark sweep. */
  datatype SweptField = NumThreadGroupsField | InputBufferSizeField | ElemsPerThreadField
                      | ThreadElemStrideField | GroupElemOffsetField | ThreadElemOffsetField

  /** One loop of the nest: the field it sets and the table it walks. */
  datatype Level = Level(field: SweptField, values: seq<u32>)

  const THREAD_GROUP_COUNTS: seq<u32> := [32 * 1024]
  const INPUT_BUFFER_SIZES: seq<u32> := [32 * MB, 64 * MB, 96 * MB, 128 * MB]
  const ELEMS_PER_THREAD_COUNTS: seq<u32> := [1]
  const THREAD_ELEM_STRIDES: seq<u32> := [1]
  const GROUP_ELEM_OFFSETS: seq<u32> := [1]
  const THREAD_ELEM_OFFSETS: seq<u32> := [1]

  /** The loops inside the memory-pool loop, outermost first. */
  const SHAPE_LEVELS: seq<Level> := [
    Level(NumThreadGroupsField, THREAD_GROUP_COUNTS), Level(InputBufferSizeField, INPUT_BUFFER_SIZES),
    Level(ElemsPerThreadField, ELEMS_PER_THREAD_COUNTS), Level(ThreadElemStrideField, THREAD_ELEM_STRIDES),
    Level(GroupElemOffsetField, GROUP_ELEM_OFFSETS), Level(ThreadElemOffsetField, THREAD_ELEM_OFFSETS)]

  function With(c: BenchmarkConfig, field: SweptField, v: u32): (r: BenchmarkConfig)
    ensures r.HeapType == c.HeapType && r.CPUPageProperty == c.CPUPageProperty
    ensures r.MemoryPool == c.MemoryPool && r.InputBufferType == c.InputBufferType
  {
    match field
    case NumThreadGroupsField => c.(NumThreadGroups := v)
    case InputBufferSizeField => c.(InputBufferSize := v)
    case ElemsPerThreadField => c.(ElemsPerThread := v)
    case ThreadElemStrideField => c.(ThreadElemStride := v)
    case GroupElemOffsetField => c.(GroupElemOffset := v)
    case ThreadElemOffsetField => c.(ThreadElemOffset := v)
  }

  /** A constant buffer larger than the constant-buffer limit is skipped. */
  predicate SkipsValue(c: BenchmarkConfig, field: SweptField, v: u32)
  {
    field == InputBufferSizeField && c.InputBufferType == Constant && v > MAX_CBUFFER_SIZE
  }

  /** The configurations the loops `levels` append for the partial configuration `c`, in loop order. */
  function Product(c: BenchmarkConfig, levels: seq<Level>): seq<BenchmarkConfig>
    decreases |levels|, 1, 0
  {
    if levels == [] then [c] else ProductOver(c, levels, |levels[0].values|)
  }

  /** The same for the first `j` values of the outermost loop. */
  function ProductOver(c: BenchmarkConfig, levels: seq<Level>, j: nat): seq<BenchmarkConfig>
    requires levels != [] && j <= |levels[0].values|
    decreases |levels|, 0, j
  {
    if j == 0 then []
    else
      var v := levels[0].values[j - 1];
      ProductOver(c, levels, j - 1) +
      (if SkipsValue(c, levels[0].field, v) then [] else Product(With(c, levels[0].field, v), levels[1..]))
  }

  /** Unsupported GPU upload heaps are skipped, and so are custom heaps. */
  predicate HeapKept(heapType: HeapTypes, gpuUploadHeapAvailable: bool)
  {
    !(heapType == GPUUpload && !gpuUploadHeapAvailable) && heapType != Custom
  }

  /** Only custom heaps vary the CPU page property. */
  predicate PageKept(heapType: HeapTypes, page: CPUPageProperties)
  {
    !(heapType != Custom && page != NotAvailable)
  }

  /**
   * Only custom heaps vary the pool; a UMA device has no L1, and a NUMA device cannot cache
   * CPU pages in L1.
   */
  predicate PoolKept(heapType: HeapTypes, page: CPUPageProperties, pool: MemoryPools, uma: bool)
  {
    !(heapType != Custom && pool != L0) && !(uma && pool == L1) && !(!uma && pool == L1 && page == WriteBack)
  }

  /** The configuration as the pool loop hands it to the inner loops: the buffer type is always Raw. */
  function ShapeOf(heapType: HeapTypes, page: CPUPageProperties, pool: MemoryPools): BenchmarkConfig
  {
    DEFAULT_CONFIG.(HeapType := heapType, CPUPageProperty := page, MemoryPool := pool, InputBufferType := Raw)
  }

  function PoolConfigs(heapType: HeapTypes, page: CPUPageProperties, uma: bool, k: nat): seq<BenchmarkConfig>
    requires k <= |MEMORY_POOLS_VALUES|
  {
    if k == 0 then []
    else
      var pool := MEMORY_POOLS_VALUES[k - 1];
      PoolConfigs(heapType, page, uma, k - 1) +
      (if PoolKept(heapType, page, pool, uma) then Product(ShapeOf(heapType, page, pool), SHAPE_LEVELS) else [])
  }

  function PageConfigs(heapType: HeapTypes, uma: bool, k: nat): seq<BenchmarkConfig>
    requires k <= |CPU_PAGE_PROPERTIES_VALUES|
  {
    if k == 0 then []
    else
      var page := CPU_PAGE_PROPERTIES_VALUES[k - 1];
      PageConfigs(heapType, uma, k - 1) +
      (if PageKept(heapType, page) then PoolConfigs(heapType, page, uma, |MEMORY_POOLS_VALUES|) else [])
  }

  function HeapConfigs(gpuUploadHeapAvailable: bool, uma: bool, k: nat): seq<BenchmarkConfig>
    requires k <= |HEAP_TYPES_VALUES|
  {
    if k == 0 then []
    else
      var heapType := HEAP_TYPES_VALUES[k - 1];
      HeapConfigs(gpuUploadHeapAvailable, uma, k - 1) +
      (if HeapKept(heapType, gpuUploadHeapAvailable) then PageConfigs(heapType, uma, |CPU_PAGE_PROPERTIES_VALUES|) else [])
  }

  /** Every configuration InitBenchmark appends, in order. */
  function Enumeration(gpuUploadHeapAvailable: bool, uma: bool): seq<BenchmarkConfig>
  {
    HeapConfigs(gpuUploadHeapAvailable, uma, |HEAP_TYPES_VALUES|)
  }

  /** The four buffer sizes for one built-in heap type, with the single value of every other table. */
  function SizeSweep(heapType: HeapTypes): seq<BenchmarkConfig>
  {
    seq(|INPUT_BUFFER_SIZES|, i requires 0 <= i < |INPUT_BUFFER_SIZES| =>
      BenchmarkConfig(heapType, NotAvailable, L0, Raw, 32 * 1024, INPUT_BUFFER_SIZES[i], 1, 1, 1, 1))
  }

  /** A loop over a one-entry table that skips nothing runs its body once. */
  lemma SingleValueLevel(c: BenchmarkConfig, levels: seq<Level>)
    requires levels != [] && |levels[0].values| == 1
    requires !SkipsValue(c, levels[0].field, levels[0].values[0])
    ensures Product(c, levels) == Product(With(c, levels[0].field, levels[0].values[0]), levels[1..])
  {
    assert ProductOver(c, levels, 0) == [];
  }

  /** A loop over the one-entry table `[1]` of a field other than the buffer size runs its body once. */
  lemma UnitLevel(c: BenchmarkConfig, field: SweptField, rest: seq<Level>)
    requires field != InputBufferSizeField
    ensures Product(c, [Level(field, [1])] + rest) == Product(With(c, field, 1), rest)
  {
    var levels := [Level(field, [1])] + rest;
    assert levels[1..] == rest;
    SingleValueLevel(c, levels);
  }

  /** The four innermost loops each have one value. */
  lemma InnerLevels(c: BenchmarkConfig)
    ensures Product(c, SHAPE_LEVELS[2..]) == [c.(ElemsPerThread := 1, ThreadElemStride := 1, GroupElemOffset := 1, ThreadElemOffset := 1)]
  {
    var c1 := c.(ElemsPerThread := 1);
    var c2 := c1.(ThreadElemStride := 1);
    var c3 := c2.(GroupElemOffset := 1);
    var c4 := c3.(ThreadElemOffset := 1);
    var s4: seq<Level> := [];
    var s3 := [Level(ThreadElemOffsetField, [1])] + s4;
    var s2 := [Level(GroupElemOffsetField, [1])] + s3;
    var s1 := [Level(ThreadElemStrideField, [1])] + s2;
    var s0 := [Level(ElemsPerThreadField, [1])] + s1;
    assert SHAPE_LEVELS[2..] == s0;
    UnitLevel(c3, ThreadElemOffsetField, s4);
    assert With(c3, ThreadElemOffsetField, 1) == c4;
    UnitLevel(c2, GroupElemOffsetField, s3);
    assert With(c2, GroupElemOffsetField, 1) == c3;
    UnitLevel(c1, ThreadElemStrideField, s2);
    assert With(c1, ThreadElemStrideField, 1) == c2;
    UnitLevel(c, ElemsPerThreadField, s1);
    assert With(c, ElemsPerThreadField, 1) == c1;
  }

  /** The sweep below one pool: one thread-group count, then the four sizes in table order. */
  lemma ShapeProduct(heapType: HeapTypes)
    ensures Product(ShapeOf(heapType, NotAvailable, L0), SHAPE_LEVELS) == SizeSweep(heapType)
  {
    var c := ShapeOf(heapType, NotAvailable, L0).(NumThreadGroups := 32 * 1024);
    var sizes := SHAPE_LEVELS[1..];
    assert sizes[1..] == SHAPE_LEVELS[2..];
    forall i | 0 <= i < 4
      ensures Product(c.(InputBufferSize := INPUT_BUFFER_SIZES[i]), sizes[1..]) == [SizeSweep(heapType)[i]]
    {
      InnerLevels(c.(InputBufferSize := INPUT_BUFFER_SIZES[i]));
    }
    assert ProductOver(c, sizes, 4) == SizeSweep(heapType) by {
      assert ProductOver(c, sizes, 1) == SizeSweep(heapType)[..1];
      assert ProductOver(c, sizes, 2) == SizeSweep(heapType)[..2];
      assert ProductOver(c, sizes, 3) == SizeSweep(heapType)[..3];
    }
    assert Product(c, sizes) == SizeSweep(heapType);
    SingleValueLevel(ShapeOf(heapType, NotAvailable, L0), SHAPE_LEVELS);
  }

  /** Below a built-in heap type only NotAvailable and L0 survive the filters. */
  lemma BuiltInHeapConfigs(heapType: HeapTypes, uma: bool)
    requires heapType != Custom
    ensures PageConfigs(heapType, uma, |CPU_PAGE_PROPERTIES_VALUES|) == SizeSweep(heapType)
  {
    ShapeProduct(heapType);
    assert PoolConfigs(heapType, NotAvailable, uma, 1) == SizeSweep(heapType);
    assert PoolConfigs(heapType, NotAvailable, uma, 2) == SizeSweep(heapType);
    assert PageConfigs(heapType, uma, 1) == SizeSweep(heapType);
    assert PageConfigs(heapType, uma, 2) == SizeSweep(heapType);
  }

  /**
   * With the current tables the sweep is: the four sizes on an upload heap, the four on a
   * default heap, and the four on a GPU upload heap when the device has one; never a custom heap.
   */
  lemma EnumerationIs(gpuUploadHeapAvailable: bool, uma: bool)
    ensures Enumeration(gpuUploadHeapAvailable, uma) ==
            SizeSweep(Upload) + SizeSweep(Default) + (if gpuUploadHeapAvailable then SizeSweep(GPUUpload) else [])
  {
    BuiltInHeapConfigs(Upload, uma);
    BuiltInHeapConfigs(Default, uma);
    BuiltInHeapConfigs(GPUUpload, uma);
    assert HeapConfigs(gpuUploadHeapAvailable, uma, 1) == SizeSweep(Upload);
    assert HeapConfigs(gpuUploadHeapAvailable, uma, 2) == SizeSweep(Upload) + SizeSweep(Default);
    assert HeapConfigs(gpuUploadHeapAvailable, uma, 3) == SizeSweep(Upload) + SizeSweep(Default);
  }

  /** Four configurations per kept heap type. */
  lemma EnumerationLength(gpuUploadHeapAvailable: bool, uma: bool)
    ensures |Enumeration(gpuUploadHeapAvailable, uma)| == (if gpuUploadHeapAvailable then 12 else 8)
  {
    EnumerationIs(gpuUploadHeapAvailable, uma);
  }

  /** Configuration i of the sweep: heap type i / 4 of the kept ones, size (i % 4 + 1) * 32 MiB. */
  lemma EnumerationAt(gpuUploadHeapAvailable: bool, uma: bool, i: nat)
    requires i < |Enumeration(gpuUploadHeapAvailable, uma)|
    ensures Enumeration(gpuUploadHeapAvailable, uma)[i] ==
            BenchmarkConfig(if i < 4 then Upload else if i < 8 then Default else GPUUpload, NotAvailable, L0, Raw,
                            32 * 1024, (i % 4 + 1) * 32 * MB, 1, 1, 1, 1)
  {
    EnumerationIs(gpuUploadHeapAvailable, uma);
    var e := Enumeration(gpuUploadHeapAvailable, uma);
    if i < 4 {
      assert e[i] == SizeSweep(Upload)[i];
    } else if i < 8 {
      assert e[i] == SizeSweep(Default)[i - 4];
    } else {
      assert e[i] == SizeSweep(GPUUpload)[i - 8];
    }
  }

  /**
   * What the filters guarantee of every enumerated configuration: never a custom heap, a GPU
   * upload heap only when the device has one, built-in heaps only with NotAvailable and L0,
   * always a raw buffer, and sizes from the table.
   */
  lemma EnumerationFiltered(gpuUploadHeapAvailable: bool, uma: bool)
    ensures var e := Enumeration(gpuUploadHeapAvailable, uma);
            forall i :: 0 <= i < |e| ==>
              e[i].HeapType != Custom && (e[i].HeapType == GPUUpload ==> gpuUploadHeapAvailable) &&
              e[i].CPUPageProperty == NotAvailable && e[i].MemoryPool == L0 && e[i].InputBufferType == Raw &&
              32 * MB <= e[i].InputBufferSize <= 128 * MB
  {
    var e := Enumeration(gpuUploadHeapAvailable, uma);
    EnumerationLength(gpuUploadHeapAvailable, uma);
    forall i | 0 <= i < |e|
      ensures e[i].HeapType != Custom && (e[i].HeapType == GPUUpload ==> gpuUploadHeapAvailable)
      ensures e[i].CPUPageProperty == NotAvailable && e[i].MemoryPool == L0 && e[i].InputBufferType == Raw
      ensures 32 * MB <= e[i].InputBufferSize <= 128 * MB
    {
      EnumerationAt(gpuUploadHeapAvailable, uma, i);
    }
  }

  /** The order of the loops: heap types in table order, and sizes ascending within a heap type. */
  lemma EnumerationOrdered(gpuUploadHeapAvailable: bool, uma: bool)
    ensures var e := Enumeration(gpuUploadHeapAvailable, uma);
            forall i, j :: 0 <= i < j < |e| ==>
              e[i].HeapType.Index() <= e[j].HeapType.Index() &&
              (e[i].HeapType == e[j].HeapType ==> e[i].InputBufferSize < e[j].InputBufferSize)
  {
    var e := Enumeration(gpuUploadHeapAvailable, uma);
    EnumerationLength(gpuUploadHeapAvailable, uma);
    forall i, j | 0 <= i < j < |e|
      ensures e[i].HeapType.Index() <= e[j].HeapType.Index()
      ensures e[i].HeapType == e[j].HeapType ==> e[i].InputBufferSize < e[j].InputBufferSize
    {
      EnumerationAt(gpuUploadHeapAvailable, uma, i);
      EnumerationAt(gpuUploadHeapAvailable, uma, j);
    }
  }

  // ---------------------------------------------------------------------------------------
  // Splitting a configuration's size over the three size settings

  /** `uint32(size / 1 MiB)`, `uint32(size % 1 MiB) / 1024` and `uint32(size % 1024)`. */
  function SizeParts(size: u64): (r: (u32, u32, u32))
    ensures r.1 < 1024 && r.2 < 1024
    ensures size < 0x1_0000_0000 * MB ==> r.0 * MB + r.1 * 1024 + r.2 == size
    ensures size <= 256 * MB ==> r.0 <= 256
  {
    (Wrap32(size / MB), Wrap32(size % MB) / 1024, Wrap32(size % 1024))
  }

  /** What `IntSetting::SetValue(uint32 x)` stores: x converted to int32, then clamped. */
  function Stored(x: u32, minVal: i32, maxVal: i32): i32
    requires minVal <= maxVal
  {
    Clamp(AsSigned32(x), minVal, maxVal)
  }

  /**
   * For a size of at most 256 MiB the three parts survive the size settings' clamps, and the
   * size CreateBuffers then computes for a non-constant buffer is the configuration's size
   * again; for a constant buffer, the same holds when the size is a multiple of 256 within 64 KiB.
   */
  lemma AppliedSizeRoundTrip(size: u64, bufferType: BufferTypes)
    requires 1 <= size <= 256 * MB
    requires bufferType == Constant ==> size <= MAX_CBUFFER_SIZE && size % 256 == 0
    ensures var (mb, kb, b) := SizeParts(size);
            Stored(mb, 0, 256) == mb && Stored(kb, 0, 1024) == kb && Stored(b, 0, 1024) == b &&
            InputBufferSize(mb, kb, b, bufferType) == size
  {
    var (mb, kb, b) := SizeParts(size);
    assert RequestedSize(mb, kb, b) == size;
    if bufferType == Constant {
      AlignUpIdempotent(size, 256);
      AlignUpIsLeast(size, 256, size);
    }
  }

  // ---------------------------------------------------------------------------------------
  // The CSV report

  /** `numTotalThreads`, a uint32. */
  function NumTotalThreads(numThreadGroups: u32): u32
  {
    Wrap32(THREAD_GROUP_SIZE * numThreadGroups)
  }

  /** `bufferBytesRead`: 16 bytes per element read, in uint64. */
  function BytesRead(config: BenchmarkConfig): u64
  {
    Wrap64(config.ElemsPerThread * 16 * NumTotalThreads(config.NumThreadGroups))
  }

  /**
   * `uniqueBytesRead`: the distinct bytes a group reads (all threads' when threads are offset),
   * times the groups when groups are offset, at most the buffer size.
   */
  function UniqueBytesRead(config: BenchmarkConfig): (r: u64)
    ensures r <= config.InputBufferSize
  {
    var perGroup := Wrap64(config.ElemsPerThread * 16 * (if config.ThreadElemOffset > 0 then THREAD_GROUP_SIZE else 1));
    Min(Wrap64(perGroup * (if config.GroupElemOffset > 0 then config.NumThreadGroups else 1)), config.InputBufferSize)
  }

  /**
   * Without wrap-around the bytes read are ElemsPerThread * 16 * 256 * NumThreadGroups, and the
   * unique bytes never exceed them (given at least one group, as the setting's minimum ensures).
   */
  lemma BytesReadExact(config: BenchmarkConfig)
    requires 1 <= config.NumThreadGroups < 0x100_0000 && config.ElemsPerThread < 0x1000_0000
    ensures BytesRead(config) == config.ElemsPerThread * 16 * THREAD_GROUP_SIZE * config.NumThreadGroups
    ensures UniqueBytesRead(config) <= BytesRead(config)
  {
    var e, g := config.ElemsPerThread, config.NumThreadGroups;
    var perThread, threads := e * 16, THREAD_GROUP_SIZE * g;
    assert NumTotalThreads(g) == threads;
    Arith.MulMonotone(perThread, 0x1_0000_0000, threads);
    assert BytesRead(config) == perThread * threads;
    Arith.MulAssoc(perThread, THREAD_GROUP_SIZE, g);
    var t := if config.ThreadElemOffset > 0 then THREAD_GROUP_SIZE else 1;
    var n := if config.GroupElemOffset > 0 then g else 1;
    var perGroup := perThread * THREAD_GROUP_SIZE;
    Arith.MulMonotone(t, THREAD_GROUP_SIZE, perThread);
    Arith.MulMonotone(n, g, perThread * t);
    Arith.MulMonotone(perThread * t, perGroup, g);
  }

  datatype BenchmarkResults = BenchmarkResults(ComputeJobTime: real, CPUTimeUpdatingBuffer: real, CPUTimeReadingBuffer: real)

  const ZERO_RESULTS: BenchmarkResults := BenchmarkResults(0.0, 0.0, 0.0)

  /** One data row of the CSV file; the number formatting and the bandwidth column are not modelled. */
  datatype CsvRow = CsvRow(
    config: BenchmarkConfig,
    numTotalThreads: u32,
    cpuWritable: bool,
    bytesRead: u64,
    uniqueBytesRead: u64,
    results: BenchmarkResults)

  function RowOf(config: BenchmarkConfig, results: BenchmarkResults): CsvRow
  {
    CsvRow(config, NumTotalThreads(config.NumThreadGroups), IsInputBufferCPUWritable(config),
           BytesRead(config), UniqueBytesRead(config), results)
  }

  /** The rows of the report: one per configuration, in enumeration order. */
  function ReportRows(configs: seq<BenchmarkConfig>, results: seq<BenchmarkResults>): (r: seq<CsvRow>)
    requires |results| == |configs|
    ensures |r| == |configs|
    ensures forall i :: 0 <= i < |r| ==>
              r[i].config == configs[i] && r[i].results == results[i] &&
              r[i].uniqueBytesRead <= configs[i].InputBufferSize &&
              r[i].cpuWritable == IsInputBufferCPUWritable(configs[i])
  {
    seq(|configs|, i requires 0 <= i < |configs| => RowOf(configs[i], results[i]))
  }

  // ---------------------------------------------------------------------------------------
  // Sample aggregation

  function SumOf(samples: seq<BenchmarkResults>): BenchmarkResults
  {
    if samples == [] then ZERO_RESULTS
    else
      var s := SumOf(samples[..|samples| - 1]);
      var last := samples[|samples| - 1];
      BenchmarkResults(s.ComputeJobTime + last.ComputeJobTime,
                       s.CPUTimeUpdatingBuffer + last.CPUTimeUpdatingBuffer,
                       s.CPUTimeReadingBuffer + last.CPUTimeReadingBuffer)
  }

  /** The mean of the measured frames. */
  function Average(samples: seq<BenchmarkResults>): BenchmarkResults
  {
    var s := SumOf(samples);
    var n := NUM_BENCHMARK_MEASURE_FRAMES as real;
    BenchmarkResults(s.ComputeJobTime / n, s.CPUTimeUpdatingBuffer / n, s.CPUTimeReadingBuffer / n)
  }

  /** Sixty-four equal samples average to that sample. */
  lemma {:induction false} SumOfEqual(samples: seq<BenchmarkResults>, x: BenchmarkResults)
    requires forall i :: 0 <= i < |samples| ==> samples[i] == x
    ensures SumOf(samples) == BenchmarkResults(|samples| as real * x.ComputeJobTime,
                                               |samples| as real * x.CPUTimeUpdatingBuffer,
                                               |samples| as real * x.CPUTimeReadingBuffer)
  {
    if samples != [] {
      SumOfEqual(samples[..|samples| - 1], x);
    }
  }

  lemma AverageOfEqual(samples: seq<BenchmarkResults>, x: BenchmarkResults)
    requires |samples| == NUM_BENCHMARK_MEASURE_FRAMES
    requires forall i :: 0 <= i < |samples| ==> samples[i] == x
    ensures Average(samples) == x
  {
    SumOfEqual(samples, x);
  }

  /** The averaging loop of TickBenchmark. */
  method AverageSamples(samples: seq<BenchmarkResults>) returns (results: BenchmarkResults)
    requires |samples| == NUM_BENCHMARK_MEASURE_FRAMES
    ensures results == Average(samples)
  {
    results := ZERO_RESULTS;
    var sampleIdx := 0;
    while sampleIdx < NUM_BENCHMARK_MEASURE_FRAMES
      invariant 0 <= sampleIdx <= NUM_BENCHMARK_MEASURE_FRAMES
      invariant results == SumOf(samples[..sampleIdx])
    {
      assert samples[..sampleIdx + 1][..sampleIdx] == samples[..sampleIdx];
      results := BenchmarkResults(results.ComputeJobTime + samples[sampleIdx].ComputeJobTime,
                                  results.CPUTimeUpdatingBuffer + samples[sampleIdx].CPUTimeUpdatingBuffer,
                                  results.CPUTimeReadingBuffer + samples[sampleIdx].CPUTimeReadingBuffer);
      sampleIdx := sampleIdx + 1;
    }
    assert samples[..NUM_BENCHMARK_MEASURE_FRAMES] == samples;
    var n := NUM_BENCHMARK_MEASURE_FRAMES as real;
    results := BenchmarkResults(results.ComputeJobTime / n, results.CPUTimeUpdatingBuffer / n,
                                results.CPUTimeReadingBuffer / n);
  }

  /** The report loop of TickBenchmark. */
  method BuildReport(configs: seq<BenchmarkConfig>, results: seq<BenchmarkResults>) returns (rows: seq<CsvRow>)
    requires |results| == |configs|
    ensures rows == ReportRows(configs, results)
  {
    rows := [];
    var benchmarkIdx := 0;
    while benchmarkIdx < |configs|
      invariant 0 <= benchmarkIdx <= |configs|
      invariant rows == ReportRows(configs[..benchmarkIdx], results[..benchmarkIdx])
    {
      rows := rows + [RowOf(configs[benchmarkIdx], results[benchmarkIdx])];
      benchmarkIdx := benchmarkIdx + 1;
      assert rows == ReportRows(configs[..benchmarkIdx], results[..benchmarkIdx]);
    }
    assert configs[..|configs|] == configs && results[..|configs|] == results;
  }

  // ---------------------------------------------------------------------------------------
  // The live settings

  /** An int setting with the range [lo, hi] and its value inside it. */
  ghost predicate IntIn(s: IntSetting, lo: i32, hi: i32)
    reads s
  {
    s.minVal == lo && s.maxVal == hi && s.Valid()
  }

  /** An int setting whose range is [lo, hi]. */
  ghost predicate IntRange(s: IntSetting, lo: i32, hi: i32)
    reads s
  {
    s.minVal == lo && s.maxVal == hi
  }

  /** An enum setting with n values and its value among them. */
  ghost predicate EnumIn(e: EnumSetting, n: u32)
    reads e
  {
    e.numValues == n && e.val < n
  }

  /** The enum settings hold values inside the domains `AppSettings::Initialize` registers. */
  ghost predicate EnumsValid(app: AppSettings)
    reads app.HeapType, app.CPUPageProperty, app.MemoryPool, app.InputBufferType
  {
    EnumIn(app.HeapType, NUM_HEAP_TYPES) && EnumIn(app.CPUPageProperty, NUM_CPU_PAGE_PROPERTIES) &&
    EnumIn(app.MemoryPool, NUM_MEMORY_POOLS) && EnumIn(app.InputBufferType, NUM_BUFFER_TYPES)
  }

  /** The three size settings keep their registered ranges and values inside them. */
  ghost predicate SizesValid(app: AppSettings)
    reads app.InputBufferSizeMB, app.InputBufferSizeKB, app.InputBufferSizeBytes
  {
    IntIn(app.InputBufferSizeMB, 0, 256) && IntIn(app.InputBufferSizeKB, 0, 1024) &&
    IntIn(app.InputBufferSizeBytes, 0, 1024)
  }

  /** The dispatch settings keep their registered ranges. */
  ghost predicate ShapeValid(app: AppSettings)
    reads app.NumThreadGroups, app.ElemsPerThread, app.ThreadElemStride, app.GroupElemOffset, app.ThreadElemOffset
  {
    IntIn(app.NumThreadGroups, 1, 65535) && IntRange(app.ElemsPerThread, 1, 64) &&
    IntRange(app.ThreadElemStride, 1, 64) && IntRange(app.GroupElemOffset, 0, 16) &&
    IntRange(app.ThreadElemOffset, 0, 16)
  }

  /** The settings CreateBuffers writes back span all of int32. */
  ghost predicate IndicesValid(app: AppSettings)
    reads app.NumInputBufferElems, app.InputBufferIdx, app.OutputBufferIdx
  {
    IntRange(app.NumInputBufferElems, I32_MIN, I32_MAX) && IntRange(app.InputBufferIdx, I32_MIN, I32_MAX) &&
    IntRange(app.OutputBufferIdx, I32_MIN, I32_MAX)
  }

  /** What the application relies on in the settings: the registered domains. */
  ghost predicate SettingsValid(app: AppSettings)
    reads app.ValueObjects()
  {
    EnumsValid(app) && SizesValid(app) && ShapeValid(app) && IndicesValid(app)
  }

  /**
   * The size settings give the input buffer at least one element, as `RawBuffer::Initialize`
   * requires of every buffer CreateBuffers builds (`InputElementsIff`).
   */
  ghost predicate InputNonEmpty(app: AppSettings)
    reads app.InputBufferSizeMB, app.InputBufferSizeKB, app.InputBufferSizeBytes, app.InputBufferType
  {
    app.InputBufferType.val == Constant.Index() ||
    RequestedSize(app.InputBufferSizeMB.val, app.InputBufferSizeKB.val, app.InputBufferSizeBytes.val) >= 16
  }

  /** A configuration's size of 16 bytes to 256 MiB, once applied, gives the input buffer elements. */
  lemma AppliedSizeNonEmpty(app: AppSettings, config: BenchmarkConfig)
    requires SizeApplied(app, config) && 16 <= config.InputBufferSize <= 256 * MB
    ensures InputNonEmpty(app)
  {
    AppliedSizeRoundTrip(config.InputBufferSize, Raw);
  }

  /** The enum settings hold the enumerators of `config`. */
  ghost predicate EnumsApplied(app: AppSettings, config: BenchmarkConfig)
    reads app.HeapType, app.CPUPageProperty, app.MemoryPool, app.InputBufferType
  {
    app.HeapType.val == config.HeapType.Index() && app.CPUPageProperty.val == config.CPUPageProperty.Index() &&
    app.MemoryPool.val == config.MemoryPool.Index() && app.InputBufferType.val == config.InputBufferType.Index()
  }

  /** The dispatch settings hold the fields of `config`, converted to int32 and clamped to their ranges. */
  ghost predicate ShapeApplied(app: AppSettings, config: BenchmarkConfig)
    reads app.NumThreadGroups, app.ElemsPerThread, app.ThreadElemStride, app.GroupElemOffset, app.ThreadElemOffset
  {
    app.NumThreadGroups.val == Stored(config.NumThreadGroups, 1, 65535) &&
    app.ElemsPerThread.val == Stored(config.ElemsPerThread, 1, 64) &&
    app.ThreadElemStride.val == Stored(config.ThreadElemStride, 1, 64) &&
    app.GroupElemOffset.val == Stored(config.GroupElemOffset, 0, 16) &&
    app.ThreadElemOffset.val == Stored(config.ThreadElemOffset, 0, 16)
  }

  /** The size settings hold the MiB, KiB and byte parts of the size of `config`, clamped to their ranges. */
  ghost predicate SizeApplied(app: AppSettings, config: BenchmarkConfig)
    reads app.InputBufferSizeMB, app.InputBufferSizeKB, app.InputBufferSizeBytes
  {
    var (mb, kb, b) := SizeParts(config.InputBufferSize);
    app.InputBufferSizeMB.val == Stored(mb, 0, 256) && app.InputBufferSizeKB.val == Stored(kb, 0, 1024) &&
    app.InputBufferSizeBytes.val == Stored(b, 0, 1024)
  }

  /** Every setting a configuration names holds its value, and VSync is off. */
  ghost predicate ConfigApplied(app: AppSettings, config: BenchmarkConfig)
    reads app.HeapType, app.CPUPageProperty, app.MemoryPool, app.InputBufferType, app.NumThreadGroups,
          app.ElemsPerThread, app.ThreadElemStride, app.GroupElemOffset, app.ThreadElemOffset,
          app.InputBufferSizeMB, app.InputBufferSizeKB, app.InputBufferSizeBytes, app.EnableVSync
  {
    EnumsApplied(app, config) && ShapeApplied(app, config) && SizeApplied(app, config) && app.EnableVSync.val == 0
  }

  /** The enum settings of a configuration take its enumerators. */
  method ApplyConfigEnums(app: AppSettings, config: BenchmarkConfig)
    requires app.EnumsDistinct() && EnumsValid(app)
    modifies app.HeapType, app.HeapType.base, app.CPUPageProperty, app.CPUPageProperty.base,
             app.MemoryPool, app.MemoryPool.base, app.InputBufferType, app.InputBufferType.base
    ensures EnumsValid(app)
    ensures EnumsApplied(app, config)
  {
    app.HeapType.SetValue(config.HeapType.Index());
    app.CPUPageProperty.SetValue(config.CPUPageProperty.Index());
    app.MemoryPool.SetValue(config.MemoryPool.Index());
    app.InputBufferType.SetValue(config.InputBufferType.Index());
  }

  /** The dispatch settings of a configuration, each converted to int32 and clamped by its setting. */
  method ApplyConfigShape(app: AppSettings, config: BenchmarkConfig)
    requires app.IntsDistinct() && ShapeValid(app)
    modifies app.NumThreadGroups, app.NumThreadGroups.base, app.ElemsPerThread, app.ElemsPerThread.base,
             app.ThreadElemStride, app.ThreadElemStride.base, app.GroupElemOffset, app.GroupElemOffset.base,
             app.ThreadElemOffset, app.ThreadElemOffset.base
    ensures ShapeValid(app)
    ensures ShapeApplied(app, config)
  {
    app.NumThreadGroups.SetValue(AsSigned32(config.NumThreadGroups));
    app.ElemsPerThread.SetValue(AsSigned32(config.ElemsPerThread));
    app.ThreadElemStride.SetValue(AsSigned32(config.ThreadElemStride));
    app.GroupElemOffset.SetValue(AsSigned32(config.GroupElemOffset));
    app.ThreadElemOffset.SetValue(AsSigned32(config.ThreadElemOffset));
  }

  /** The size of a configuration, split over the three size settings. */
  method ApplyConfigSize(app: AppSettings, config: BenchmarkConfig)
    requires app.IntsDistinct() && SizesValid(app)
    modifies app.InputBufferSizeMB, app.InputBufferSizeMB.base, app.InputBufferSizeKB, app.InputBufferSizeKB.base,
             app.InputBufferSizeBytes, app.InputBufferSizeBytes.base
    ensures SizesValid(app)
    ensures SizeApplied(app, config)
  {
    var inputBufferBytes := Wrap32(config.InputBufferSize % 1024);
    var inputBufferKB := Wrap32(config.InputBufferSize % MB) / 1024;
    var inputBufferMB := Wrap32(config.InputBufferSize / MB);
    app.InputBufferSizeMB.SetValue(AsSigned32(inputBufferMB));
    app.InputBufferSizeKB.SetValue(AsSigned32(inputBufferKB));
    app.InputBufferSizeBytes.SetValue(AsSigned32(inputBufferBytes));
  }

  /** The int settings of a configuration: its dispatch shape, then its size. */
  method ApplyConfigInts(app: AppSettings, config: BenchmarkConfig)
    requires app.IntsDistinct() && ShapeValid(app) && SizesValid(app) && IndicesValid(app)
    modifies app.NumThreadGroups, app.NumThreadGroups.base, app.ElemsPerThread, app.ElemsPerThread.base,
             app.ThreadElemStride, app.ThreadElemStride.base, app.GroupElemOffset, app.GroupElemOffset.base,
             app.ThreadElemOffset, app.ThreadElemOffset.base
    modifies app.InputBufferSizeMB, app.InputBufferSizeMB.base, app.InputBufferSizeKB, app.InputBufferSizeKB.base,
             app.InputBufferSizeBytes, app.InputBufferSizeBytes.base
    ensures ShapeValid(app) && SizesValid(app) && IndicesValid(app)
    ensures ShapeApplied(app, config)
    ensures SizeApplied(app, config)
  {
    ApplyConfigShape(app, config);
    ApplyConfigSize(app, config);
  }

  /** Every field of a configuration, written to its setting. */
  method ApplyConfigFields(app: AppSettings, config: BenchmarkConfig)
    requires app.EnumsDistinct() && app.IntsDistinct() && SettingsValid(app)
    modifies app.HeapType, app.HeapType.base, app.CPUPageProperty, app.CPUPageProperty.base,
             app.MemoryPool, app.MemoryPool.base, app.InputBufferType, app.InputBufferType.base
    modifies app.NumThreadGroups, app.NumThreadGroups.base, app.ElemsPerThread, app.ElemsPerThread.base,
             app.ThreadElemStride, app.ThreadElemStride.base, app.GroupElemOffset, app.GroupElemOffset.base,
             app.ThreadElemOffset, app.ThreadElemOffset.base
    modifies app.InputBufferSizeMB, app.InputBufferSizeMB.base, app.InputBufferSizeKB, app.InputBufferSizeKB.base,
             app.InputBufferSizeBytes, app.InputBufferSizeBytes.base
    ensures SettingsValid(app)
    ensures EnumsApplied(app, config) && ShapeApplied(app, config) && SizeApplied(app, config)
  {
    ApplyConfigEnums(app, config);
    ApplyConfigInts(app, config);
  }

  /**
   * The first tick of a configuration: every field of the configuration is written to its
   * setting, and VSync is switched off.
   */
  method ApplyConfig(app: AppSettings, config: BenchmarkConfig)
    requires app.EnumsDistinct() && app.IntsDistinct() && SettingsValid(app)
    modifies app.HeapType, app.HeapType.base, app.CPUPageProperty, app.CPUPageProperty.base,
             app.MemoryPool, app.MemoryPool.base, app.InputBufferType, app.InputBufferType.base
    modifies app.NumThreadGroups, app.NumThreadGroups.base, app.ElemsPerThread, app.ElemsPerThread.base,
             app.ThreadElemStride, app.ThreadElemStride.base, app.GroupElemOffset, app.GroupElemOffset.base,
             app.ThreadElemOffset, app.ThreadElemOffset.base
    modifies app.InputBufferSizeMB, app.InputBufferSizeMB.base, app.InputBufferSizeKB, app.InputBufferSizeKB.base,
             app.InputBufferSizeBytes, app.InputBufferSizeBytes.base, app.EnableVSync, app.EnableVSync.base
    ensures SettingsValid(app) && ConfigApplied(app, config)
  {
    ApplyConfigFields(app, config);
    app.EnableVSync.SetValue(0);
  }

  // ---------------------------------------------------------------------------------------
  // The enumeration as InitBenchmark runs it

  /** The six innermost loops of InitBenchmark for the partial configuration `c`, appending to `configs`. */
  method AppendProduct(configs: seq<BenchmarkConfig>, c: BenchmarkConfig, levels: seq<Level>) returns (r: seq<BenchmarkConfig>)
    ensures r == configs + Product(c, levels)
    decreases |levels|
  {
    if levels == [] {
      return configs + [c];
    }
    r := configs;
    var j := 0;
    while j < |levels[0].values|
      invariant 0 <= j <= |levels[0].values|
      invariant r == configs + ProductOver(c, levels, j)
    {
      var v := levels[0].values[j];
      if !SkipsValue(c, levels[0].field, v) {
        r := AppendProduct(r, With(c, levels[0].field, v), levels[1..]);
      }
      j := j + 1;
    }
  }

  /** The pool loop of InitBenchmark for one heap type and page property. */
  method AppendPools(configs: seq<BenchmarkConfig>, heapType: HeapTypes, page: CPUPageProperties, uma: bool)
    returns (r: seq<BenchmarkConfig>)
    ensures r == configs + PoolConfigs(heapType, page, uma, |MEMORY_POOLS_VALUES|)
  {
    r := configs;
    for q := 0 to |MEMORY_POOLS_VALUES|
      invariant r == configs + PoolConfigs(heapType, page, uma, q)
    {
      var pool := MEMORY_POOLS_VALUES[q];
      if heapType != Custom && pool != L0 {
        continue;
      }
      if uma && pool == L1 {
        continue;
      }
      if !uma && pool == L1 && page == WriteBack {
        continue;
      }
      r := AppendProduct(r, ShapeOf(heapType, page, pool), SHAPE_LEVELS);
    }
  }

  /** The heap-type and page-property loops of InitBenchmark: the configurations in loop order. */
  method EnumerateConfigs(gpuUploadHeapAvailable: bool, uma: bool) returns (configs: seq<BenchmarkConfig>)
    ensures configs == Enumeration(gpuUploadHeapAvailable, uma)
  {
    configs := [];
    for h := 0 to |HEAP_TYPES_VALUES|
      invariant configs == HeapConfigs(gpuUploadHeapAvailable, uma, h)
    {
      var heapType := HEAP_TYPES_VALUES[h];
      if heapType == GPUUpload && !gpuUploadHeapAvailable {
        continue;
      }
      if heapType == Custom {
        continue;
      }
      ghost var before := configs;
      for p := 0 to |CPU_PAGE_PROPERTIES_VALUES|
        invariant configs == before + PageConfigs(heapType, uma, p)
      {
        var page := CPU_PAGE_PROPERTIES_VALUES[p];
        if heapType != Custom && page != NotAvailable {
          continue;
        }
        configs := AppendPools(configs, heapType, page, uma);
      }
    }
    assert HEAP_TYPES_VALUES[..] == HEAP_TYPES_VALUES;
  }

  // ---------------------------------------------------------------------------------------
  // The settings that invalidate the buffers and the compute job

  /** The settings the two invalidation lists of `Update` name. */
  datatype SettingId = SizeMB | SizeKB | SizeBytes | ThreadGroups | Heap | PageProperty | Pool | BufferType
                     | Elems | Stride | GroupOffset | ThreadOffset

  /** Settings whose change makes `Update` call CreateBuffers. */
  const REBUILD_SETTINGS: seq<SettingId> := [SizeMB, SizeKB, SizeBytes, ThreadGroups, Heap, PageProperty, Pool, BufferType]
  /** Settings whose change makes `Update` recompile the compute job. */
  const RECOMPILE_SETTINGS: seq<SettingId> := [SizeMB, SizeKB, SizeBytes, Elems, Stride, GroupOffset, ThreadOffset, BufferType]

  /** The common part (with the changed flag) of a listed setting. */
  function BaseOf(app: AppSettings, id: SettingId): Setting
  {
    match id
    case SizeMB => app.InputBufferSizeMB.base
    case SizeKB => app.InputBufferSizeKB.base
    case SizeBytes => app.InputBufferSizeBytes.base
    case ThreadGroups => app.NumThreadGroups.base
    case Heap => app.HeapType.base
    case PageProperty => app.CPUPageProperty.base
    case Pool => app.MemoryPool.base
    case BufferType => app.InputBufferType.base
    case Elems => app.ElemsPerThread.base
    case Stride => app.ThreadElemStride.base
    case GroupOffset => app.GroupElemOffset.base
    case ThreadOffset => app.ThreadElemOffset.base
  }

  /** The common parts of the listed settings. */
  function BasesOf(app: AppSettings, ids: seq<SettingId>): set<Setting>
  {
    set i | 0 <= i < |ids| :: BaseOf(app, ids[i])
  }

  /** Some listed setting reports a change. */
  ghost predicate AnyChanged(app: AppSettings, ids: seq<SettingId>)
    reads BasesOf(app, ids)
  {
    exists i :: 0 <= i < |ids| && BaseOf(app, ids[i]).changed
  }

  /** The loop over an invalidation list: stops at the first setting that reports a change. */
  method FindChanged(app: AppSettings, ids: seq<SettingId>) returns (found: bool)
    ensures found <==> AnyChanged(app, ids)
  {
    found := false;
    var i := 0;
    while i < |ids|
      invariant 0 <= i <= |ids|
      invariant forall k :: 0 <= k < i ==> !BaseOf(app, ids[k]).changed
    {
      if BaseOf(app, ids[i]).Changed() {
        return true;
      }
      i := i + 1;
    }
  }

  /** A change to a setting in both lists triggers both the rebuild and the recompile. */
  lemma SharedSettingTriggersBoth(app: AppSettings, id: SettingId)
    requires id in REBUILD_SETTINGS && id in RECOMPILE_SETTINGS && BaseOf(app, id).changed
    ensures AnyChanged(app, REBUILD_SETTINGS) && AnyChanged(app, RECOMPILE_SETTINGS)
  {
    var i :| 0 <= i < |REBUILD_SETTINGS| && REBUILD_SETTINGS[i] == id;
    var j :| 0 <= j < |RECOMPILE_SETTINGS| && RECOMPILE_SETTINGS[j] == id;
  }

  /** Only a change to a listed setting triggers the list's work. */
  lemma AnyChangedNames(app: AppSettings, ids: seq<SettingId>)
    ensures AnyChanged(app, ids) <==> exists id :: id in ids && BaseOf(app, id).changed
  {
    if exists id :: id in ids && BaseOf(app, id).changed {
      var id :| id in ids && BaseOf(app, id).changed;
      var i :| 0 <= i < |ids| && ids[i] == id;
    }
  }

  /** The changed flags of the rebuild list, in its order. */
  ghost function RebuildFlags(app: AppSettings): seq<bool>
    reads app.InputBufferSizeMB.base, app.InputBufferSizeKB.base, app.InputBufferSizeBytes.base,
          app.NumThreadGroups.base, app.HeapType.base, app.CPUPageProperty.base, app.MemoryPool.base,
          app.InputBufferType.base
  {
    [app.InputBufferSizeMB.base.changed, app.InputBufferSizeKB.base.changed, app.InputBufferSizeBytes.base.changed,
     app.NumThreadGroups.base.changed, app.HeapType.base.changed, app.CPUPageProperty.base.changed,
     app.MemoryPool.base.changed, app.InputBufferType.base.changed]
  }

  /**
   * The changed flags read after CreateBuffers: those of the recompile list, in its order,
   * and the upload path's.
   */
  ghost function WatchedFlags(app: AppSettings): seq<bool>
    reads app.InputBufferSizeMB.base, app.InputBufferSizeKB.base, app.InputBufferSizeBytes.base,
          app.ElemsPerThread.base, app.ThreadElemStride.base, app.GroupElemOffset.base,
          app.ThreadElemOffset.base, app.InputBufferType.base, app.BufferUploadPath.base
  {
    [app.InputBufferSizeMB.base.changed, app.InputBufferSizeKB.base.changed, app.InputBufferSizeBytes.base.changed,
     app.ElemsPerThread.base.changed, app.ThreadElemStride.base.changed, app.GroupElemOffset.base.changed,
     app.ThreadElemOffset.base.changed, app.InputBufferType.base.changed, app.BufferUploadPath.base.changed]
  }

  /** The two lists report a change exactly when one of their flags is set. */
  lemma ListFlags(app: AppSettings)
    ensures AnyChanged(app, REBUILD_SETTINGS) <==> true in RebuildFlags(app)
    ensures AnyChanged(app, RECOMPILE_SETTINGS) <==> true in WatchedFlags(app)[..8]
    ensures WatchedFlags(app)[8] == app.BufferUploadPath.base.changed
  {
    var rebuild, watched := RebuildFlags(app), WatchedFlags(app)[..8];
    assert forall k :: 0 <= k < 8 ==> rebuild[k] == BaseOf(app, REBUILD_SETTINGS[k]).changed;
    assert forall k :: 0 <= k < 8 ==> watched[k] == BaseOf(app, RECOMPILE_SETTINGS[k]).changed;
  }

  /** The settings CreateBuffers reads. */
  predicate ReadByCreateBuffers(id: SettingId)
  {
    id in {SizeMB, SizeKB, SizeBytes, BufferType, ThreadGroups, Heap, PageProperty, Pool}
  }

  /**
   * The settings the compute job is compiled from: the dispatch settings and the buffer type,
   * and, through NumInputBufferElems, the size settings.
   */
  predicate ReadByCompileComputeJob(id: SettingId)
  {
    id in {Elems, Stride, GroupOffset, ThreadOffset, BufferType, SizeMB, SizeKB, SizeBytes}
  }

  /**
   * Each invalidation list names exactly the settings its rebuild reads, so the settings that
   * feed the element count are in both lists and ThreadGroups, heap, page and pool only in the first.
   */
  lemma InvalidationListsComplete(id: SettingId)
    ensures id in REBUILD_SETTINGS <==> ReadByCreateBuffers(id)
    ensures id in RECOMPILE_SETTINGS <==> ReadByCompileComputeJob(id)
    ensures id in REBUILD_SETTINGS && id in RECOMPILE_SETTINGS <==> id in {SizeMB, SizeKB, SizeBytes, BufferType}
  {
  }

  // ---------------------------------------------------------------------------------------
  // The compute job

  /** The defines CompileComputeJob passes to the shader compiler. */
  datatype CompileOptions = CompileOptions(
    ElemsPerThread: i32,
    ThreadElemOffset: i32,
    GroupElemOffset: i32,
    NumInputBufferElems: i32,
    ThreadElemStride: i32,
    RawBuffer: bool,
    FormattedBuffer: bool,
    StructuredBuffer: bool,
    ConstantBuffer: bool)

  /** The options before any compilation. */
  const NO_OPTIONS: CompileOptions := CompileOptions(0, 0, 0, 0, 0, false, false, false, false)

  /** The buffer type the options select, when they select exactly one. */
  function SelectedBufferType(opts: CompileOptions): (r: Option<BufferTypes>)
    ensures r.Some? ==> (opts.RawBuffer <==> r.value == Raw) && (opts.FormattedBuffer <==> r.value == Formatted) &&
                        (opts.StructuredBuffer <==> r.value == Structured) && (opts.ConstantBuffer <==> r.value == Constant)
  {
    match (opts.RawBuffer, opts.FormattedBuffer, opts.StructuredBuffer, opts.ConstantBuffer)
    case (true, false, false, false) => Some(Raw)
    case (false, true, false, false) => Some(Formatted)
    case (false, false, true, false) => Some(Structured)
    case (false, false, false, true) => Some(Constant)
    case _ => None
  }

  // ---------------------------------------------------------------------------------------
  // The output buffer index that CreateBuffers stores

  /** The index a freed descriptor slot is left with, uint32(-1). */
  const FREED_DESCRIPTOR_INDEX: u32 := U32_MAX

  /**
   * The value OutputBufferIdx receives from CreateBuffers as written: the output buffer's UAV
   * is read after `outputBuffer.Shutdown()` freed it and before `outputBuffer.Initialize`
   * allocates the new one, so whatever UAV the new buffer gets, the setting stores the freed index.
   */
  function OutputBufferIdxAsWritten(newUAV: u32): i32
  {
    var uavWhenRead := FREED_DESCRIPTOR_INDEX;
    Stored(uavWhenRead, I32_MIN, I32_MAX)
  }

  /**
   * As written, the index the shaders receive for the output buffer is -1 and never the UAV
   * the output buffer owns (a persistent descriptor index, which is below 2^31).
   */
  lemma OutputBufferIdxAsWrittenIsStale(newUAV: u32)
    requires newUAV < 0x8000_0000
    ensures OutputBufferIdxAsWritten(newUAV) == -1
    ensures OutputBufferIdxAsWritten(newUAV) != Stored(newUAV, I32_MIN, I32_MAX)
  {
  }

  /** A full-range int setting stores an index below 2^31 as it is. */
  lemma StoredIndex(x: u32)
    requires x < 0x8000_0000
    ensures Stored(x, I32_MIN, I32_MAX) == x
  {
  }

  /** The compile options the current settings call for. */
  function CurrentOptions(app: AppSettings): (r: CompileOptions)
    reads app.ElemsPerThread, app.ThreadElemOffset, app.GroupElemOffset, app.NumInputBufferElems,
          app.ThreadElemStride, app.InputBufferType
    ensures app.InputBufferType.val < NUM_BUFFER_TYPES ==> SelectedBufferType(r) == Some(BufferTypeOf(app.InputBufferType.val))
    ensures app.InputBufferType.val >= NUM_BUFFER_TYPES ==> SelectedBufferType(r) == None
  {
    var bufferType := app.InputBufferType.val;
    CompileOptions(app.ElemsPerThread.val, app.ThreadElemOffset.val, app.GroupElemOffset.val,
                   app.NumInputBufferElems.val, app.ThreadElemStride.val,
                   bufferType == Raw.Index(), bufferType == Formatted.Index(),
                   bufferType == Structured.Index(), bufferType == Constant.Index())
  }

  /** The sample TickBenchmark records for one measured frame from the profiler's timings. */
  function FrameSample(app: AppSettings, computeJobTime: real, updateTime: real, readTime: real): BenchmarkResults
    reads app.HeapType, app.CPUPageProperty, app.ReadFromGPUMem
  {
    var readsBuffer := IsLiveInputBufferCPUWritable(app.HeapType.val, app.CPUPageProperty.val) && app.ReadFromGPUMem.val != 0;
    BenchmarkResults(computeJobTime, updateTime, if readsBuffer then readTime else 0.0)
  }

  /** The buffers CreateBuffers builds: their sizes, views and descriptor indices. */
  datatype InputBuffers = InputBuffers(
    inputBufferSize: u32, numInputElems: u32, totalInputBufferSize: u32, numComputeJobThreads: u32,
    cpuWritable: bool, inputBufferElems: nat, inputViews: seq<SrvView>, hasUploadBuffer: bool,
    inputBufferSRV: u32, outputBufferUAV: u32, outputBufferElems: nat)

  /** No buffers yet: the member initializers of MemPoolTest.h. */
  const NO_BUFFERS := InputBuffers(0, 0, 0, 0, false, 0, [], false, FREED_DESCRIPTOR_INDEX, FREED_DESCRIPTOR_INDEX, 0)

  /** The application state besides the benchmark. */
  datatype ResourceState = ResourceState(
    buffers: InputBuffers, buffersCreated: nat,
    computeJobOptions: CompileOptions, computeJobsCompiled: nat, gpuFlushes: nat,
    vsyncEnabled: bool, stablePowerState: bool, driverThreads: bool, gpuUploadHeapAvailable: bool, uma: bool)

  /**
   * The resources after the invalidation lists ran on `r`: the buffers are recreated (one more
   * creation and one more flush) only when `rebuilt`, the job recompiled only when
   * `recompiled`, one more flush when the upload path changed, and nothing else moves.
   */
  ghost predicate ListsApplied(r: ResourceState, r2: ResourceState, rebuilt: bool, recompiled: bool, uploadPathChanged: bool)
  {
    r2 == r.(buffers := r2.buffers, computeJobOptions := r2.computeJobOptions,
             buffersCreated := r.buffersCreated + (if rebuilt then 1 else 0),
             computeJobsCompiled := r.computeJobsCompiled + (if recompiled then 1 else 0),
             gpuFlushes := r.gpuFlushes + (if rebuilt then 1 else 0) + (if uploadPathChanged then 1 else 0)) &&
    (!rebuilt ==> r2.buffers == r.buffers) && (!recompiled ==> r2.computeJobOptions == r.computeJobOptions)
  }

  /** The benchmark part of the application state. */
  datatype BenchmarkState = BenchmarkState(
    configs: seq<BenchmarkConfig>, samples: seq<BenchmarkResults>, results: seq<BenchmarkResults>,
    configIdx: u32, numBenchmarks: u32, frameIdx: u32, reports: seq<seq<CsvRow>>)

  /**
   * One tick of the benchmark, from state `b` with samples `m` to `b2` with `m2`, where `s` is
   * the frame's sample: nothing once every configuration has run; the counter restarts when a
   * configuration is due; otherwise the frame counts, a frame past the warm-up stores `s` in
   * its sample slot, the last frame of a configuration stores the average of its 64 samples
   * and moves to the next configuration, earlier frames keep the results and the configuration,
   * and the frame after the last configuration appends the report.
   */
  ghost predicate BenchmarkTicked(b: BenchmarkState, m: seq<BenchmarkResults>, b2: BenchmarkState, m2: seq<BenchmarkResults>,
                                  s: BenchmarkResults)
  {
    if b.configIdx >= b.numBenchmarks then b2 == b && m2 == m
    else if b.frameIdx >= NUM_BENCHMARK_TOTAL_FRAMES then b2 == b.(frameIdx := 0) && m2 == []
    else
      b2.frameIdx == b.frameIdx + 1 && b2.configs == b.configs && b2.numBenchmarks == b.numBenchmarks &&
      b2.numBenchmarks as int <= |b2.configs| && |b2.results| == b2.numBenchmarks as int &&
      m2 == m + (if b.frameIdx >= NUM_BENCHMARK_WARMUP_FRAMES then [s] else []) &&
      (b.frameIdx >= NUM_BENCHMARK_WARMUP_FRAMES ==>
         b.frameIdx as int - NUM_BENCHMARK_WARMUP_FRAMES < |b.samples| &&
         b2.samples == b.samples[b.frameIdx as int - NUM_BENCHMARK_WARMUP_FRAMES := s]) &&
      (b.frameIdx < NUM_BENCHMARK_WARMUP_FRAMES ==> b2.samples == b.samples) &&
      (b2.frameIdx < NUM_BENCHMARK_TOTAL_FRAMES ==> b2.results == b.results && b2.configIdx == b.configIdx) &&
      (b2.frameIdx == NUM_BENCHMARK_TOTAL_FRAMES ==>
         |m2| == NUM_BENCHMARK_MEASURE_FRAMES &&
         b.configIdx as int < |b.results| && b2.results == b.results[b.configIdx := Average(m2)] &&
         b2.configIdx == b.configIdx + 1) &&
      b2.reports == b.reports + (if b2.configIdx == b2.numBenchmarks then [ReportRows(b2.configs[..b2.numBenchmarks], b2.results)] else [])
  }

  /**
   * The application: the buffers CreateBuffers builds, the compute job, the device state
   * Update keeps in sync, and the benchmark state machine. D3D objects are represented by
   * what the model needs of them (sizes, views, descriptor indices); the descriptor indices
   * the SRV heap and the output buffer hand out are inputs.
   */
  class MemPoolTest {
    const app: AppSettings


    /** The res.buffers, the compiled job, the counters and the device state. */
    var res: ResourceState

    var benchmarkConfigIdx: u32
    var numBenchmarks: u32
    var benchmarkFrameIdx: u32
    var benchmarkConfigs: seq<BenchmarkConfig>
    var benchmarkSamples: seq<BenchmarkResults>
    var benchmarkResults: seq<BenchmarkResults>
    /** The CSV files written, one list of rows each. */
    var reports: seq<seq<CsvRow>>
    /** The samples recorded since the current configuration was applied. */
    ghost var measured: seq<BenchmarkResults>

    ghost function Benchmark(): BenchmarkState
      reads this
    {
      BenchmarkState(benchmarkConfigs, benchmarkSamples, benchmarkResults, benchmarkConfigIdx, numBenchmarks,
                     benchmarkFrameIdx, reports)
    }

    /**
     * The benchmark invariant: the result list has one slot per benchmark, the frame counter
     * never passes the total, and while a configuration is measured the samples recorded so
     * far are the frames after the warm-up, in the first slots of the sample array.
     */
    ghost predicate BenchmarkValid()
      reads this
    {
      numBenchmarks <= |benchmarkConfigs| && |benchmarkResults| == numBenchmarks &&
      benchmarkFrameIdx <= NUM_BENCHMARK_TOTAL_FRAMES &&
      (numBenchmarks > 0 ==> |benchmarkSamples| == NUM_BENCHMARK_MEASURE_FRAMES) &&
      (benchmarkConfigIdx < numBenchmarks && benchmarkFrameIdx < NUM_BENCHMARK_TOTAL_FRAMES ==>
         |measured| == (if benchmarkFrameIdx >= NUM_BENCHMARK_WARMUP_FRAMES then benchmarkFrameIdx - NUM_BENCHMARK_WARMUP_FRAMES else 0) &&
         measured == benchmarkSamples[..|measured|])
    }

    /** The benchmark applies its next configuration on this tick. */
    ghost predicate ConfigDue()
      reads this
    {
      benchmarkConfigIdx < numBenchmarks && benchmarkFrameIdx >= NUM_BENCHMARK_TOTAL_FRAMES
    }

    /** Every configuration's size is one the size settings hold with at least one input element. */
    ghost predicate ConfigSizesValid()
      reads this
    {
      forall i :: 0 <= i < |benchmarkConfigs| ==> 16 <= benchmarkConfigs[i].InputBufferSize <= 256 * MB
    }

    /** The buffer sizes are the ones CreateBuffers derives from the current settings. */
    ghost predicate SizesMatch()
      reads this, app.InputBufferSizeMB, app.InputBufferSizeKB, app.InputBufferSizeBytes, app.InputBufferType,
            app.NumThreadGroups
    {
      SizesValid(app) && app.InputBufferType.val < NUM_BUFFER_TYPES && 0 <= app.NumThreadGroups.val &&
      res.buffers.inputBufferSize == InputBufferSize(app.InputBufferSizeMB.val, app.InputBufferSizeKB.val,
                                                 app.InputBufferSizeBytes.val, BufferTypeOf(app.InputBufferType.val)) &&
      res.buffers.numInputElems == res.buffers.inputBufferSize / 16 &&
      res.buffers.totalInputBufferSize == InputHeapSize(res.buffers.inputBufferSize) &&
      res.buffers.numComputeJobThreads == NumTotalThreads(app.NumThreadGroups.val)
    }

    /** The res.buffers and their views are the ones CreateBuffers derives from the sizes and the heap settings. */
    ghost predicate ViewsMatch()
      reads this, app.InputBufferType, app.HeapType, app.CPUPageProperty
    {
      var b := res.buffers;
      app.InputBufferType.val < NUM_BUFFER_TYPES &&
      b.cpuWritable == IsLiveInputBufferCPUWritable(app.HeapType.val, app.CPUPageProperty.val) &&
      b.inputBufferElems == b.numInputElems * 4 &&
      b.inputViews == InputBufferViews(BufferTypeOf(app.InputBufferType.val), b.cpuWritable, b.numInputElems) &&
      b.hasUploadBuffer == !b.cpuWritable &&
      b.outputBufferElems == b.numComputeJobThreads
    }

    /** The res.buffers are the ones CreateBuffers derives from the current settings. */
    ghost predicate BuffersMatch()
      reads this, app.InputBufferSizeMB, app.InputBufferSizeKB, app.InputBufferSizeBytes, app.InputBufferType,
            app.NumThreadGroups, app.HeapType, app.CPUPageProperty
    {
      SizesMatch() && ViewsMatch()
    }

    /** The compute job was compiled from the current settings. */
    ghost predicate JobMatches()
      reads this, app.ElemsPerThread, app.ThreadElemOffset, app.GroupElemOffset, app.NumInputBufferElems,
            app.ThreadElemStride, app.InputBufferType
    {
      res.computeJobOptions == CurrentOptions(app)
    }

    /** The member initializers of MemPoolTest.h. */
    constructor (app: AppSettings)
      ensures this.app == app
      ensures benchmarkConfigIdx == U32_MAX && numBenchmarks == 0 && benchmarkFrameIdx == 0
      ensures benchmarkConfigs == [] && benchmarkSamples == [] && benchmarkResults == [] && reports == []
      ensures res.buffers == NO_BUFFERS && !res.stablePowerState && !res.driverThreads && !res.gpuUploadHeapAvailable
      ensures res.buffersCreated == 0 && res.computeJobsCompiled == 0 && res.gpuFlushes == 0
      ensures BenchmarkValid()
    {
      this.app := app;
      res := ResourceState(NO_BUFFERS, 0, NO_OPTIONS, 0, 0, false, false, false, false, false);
      benchmarkConfigIdx, numBenchmarks, benchmarkFrameIdx := U32_MAX, 0, 0;
      benchmarkConfigs, benchmarkSamples, benchmarkResults, reports := [], [], [], [];
      measured := [];
    }

    // -------------------------------------------------------------------------------------
    // The benchmark

    /** The "Run Benchmark" button of the HUD, shown while no benchmark runs. */
    method RunBenchmark()
      requires BenchmarkValid()
      modifies this
      ensures BenchmarkValid() && res == old(res)
      ensures old(benchmarkConfigIdx >= numBenchmarks) ==>
                benchmarkConfigIdx == 0 && benchmarkFrameIdx == NUM_BENCHMARK_TOTAL_FRAMES &&
                Benchmark() == old(Benchmark()).(configIdx := 0, frameIdx := NUM_BENCHMARK_TOTAL_FRAMES)
      ensures old(benchmarkConfigIdx < numBenchmarks) ==> Benchmark() == old(Benchmark())
    {
      if benchmarkConfigIdx >= numBenchmarks {
        benchmarkConfigIdx := 0;
        benchmarkFrameIdx := NUM_BENCHMARK_TOTAL_FRAMES;
      }
    }

    /** The first tick of a configuration: its settings are applied and the frame counter restarts. */
    method ApplyNextConfig()
      requires BenchmarkValid() && benchmarkConfigIdx < numBenchmarks && benchmarkFrameIdx >= NUM_BENCHMARK_TOTAL_FRAMES
      requires app.EnumsDistinct() && app.IntsDistinct() && SettingsValid(app)
      modifies this, app.HeapType, app.HeapType.base, app.CPUPageProperty, app.CPUPageProperty.base,
               app.MemoryPool, app.MemoryPool.base, app.InputBufferType, app.InputBufferType.base,
               app.NumThreadGroups, app.NumThreadGroups.base, app.ElemsPerThread, app.ElemsPerThread.base,
               app.ThreadElemStride, app.ThreadElemStride.base, app.GroupElemOffset, app.GroupElemOffset.base,
               app.ThreadElemOffset, app.ThreadElemOffset.base, app.InputBufferSizeMB, app.InputBufferSizeMB.base,
               app.InputBufferSizeKB, app.InputBufferSizeKB.base, app.InputBufferSizeBytes, app.InputBufferSizeBytes.base,
               app.EnableVSync, app.EnableVSync.base
      ensures BenchmarkValid() && SettingsValid(app) && res == old(res)
      ensures var config := old(benchmarkConfigs[benchmarkConfigIdx]);
              ConfigApplied(app, config)
      ensures Benchmark() == old(Benchmark()).(frameIdx := 0) && measured == []
    {
      ApplyConfig(app, benchmarkConfigs[benchmarkConfigIdx]);
      RestartMeasurement();
    }

    /** The frame counter restarts for the configuration just applied. */
    method RestartMeasurement()
      modifies this
      ensures res == old(res)
      ensures Benchmark() == old(Benchmark()).(frameIdx := 0) && measured == []
    {
      benchmarkFrameIdx := 0;
      measured := [];
    }

    /**
     * A later tick: past the warm-up the profiler's timings go to the frame's sample slot;
     * on the last frame the configuration's result is the average of its samples, and after
     * the last configuration the report is written.
     */
    method RecordFrame(computeJobTime: real, updateTime: real, readTime: real)
      requires BenchmarkValid() && benchmarkConfigIdx < numBenchmarks && benchmarkFrameIdx < NUM_BENCHMARK_TOTAL_FRAMES
      modifies this
      ensures BenchmarkValid() && res == old(res)
      ensures benchmarkConfigs == old(benchmarkConfigs) && numBenchmarks == old(numBenchmarks)
      ensures benchmarkFrameIdx == old(benchmarkFrameIdx) + 1
      ensures measured == old(measured) +
                (if old(benchmarkFrameIdx) >= NUM_BENCHMARK_WARMUP_FRAMES
                 then [FrameSample(app, computeJobTime, updateTime, readTime)] else [])
      ensures benchmarkFrameIdx == NUM_BENCHMARK_TOTAL_FRAMES ==>
                |measured| == NUM_BENCHMARK_MEASURE_FRAMES &&
                benchmarkResults == old(benchmarkResults)[old(benchmarkConfigIdx) := Average(measured)] &&
                benchmarkConfigIdx == old(benchmarkConfigIdx) + 1
      ensures benchmarkFrameIdx < NUM_BENCHMARK_TOTAL_FRAMES ==>
                benchmarkResults == old(benchmarkResults) && benchmarkConfigIdx == old(benchmarkConfigIdx)
      ensures old(benchmarkFrameIdx) >= NUM_BENCHMARK_WARMUP_FRAMES ==>
                benchmarkSamples == old(benchmarkSamples)[old(benchmarkFrameIdx) - NUM_BENCHMARK_WARMUP_FRAMES :=
                                                          FrameSample(app, computeJobTime, updateTime, readTime)]
      ensures old(benchmarkFrameIdx) < NUM_BENCHMARK_WARMUP_FRAMES ==> benchmarkSamples == old(benchmarkSamples)
      ensures reports == old(reports) +
                (if benchmarkConfigIdx == numBenchmarks then [ReportRows(benchmarkConfigs[..numBenchmarks], benchmarkResults)] else [])
    {
      RecordSample(computeJobTime, updateTime, readTime);
      benchmarkFrameIdx := benchmarkFrameIdx + 1;
      if benchmarkFrameIdx == NUM_BENCHMARK_TOTAL_FRAMES {
        FinishConfig();
      }
      if benchmarkConfigIdx == numBenchmarks {
        WriteReport();
      }
    }

    /** Past the warm-up, the frame's timings go to its sample slot. */
    method RecordSample(computeJobTime: real, updateTime: real, readTime: real)
      requires BenchmarkValid() && benchmarkConfigIdx < numBenchmarks && benchmarkFrameIdx < NUM_BENCHMARK_TOTAL_FRAMES
      modifies this
      ensures res == old(res)
      ensures old(benchmarkFrameIdx) >= NUM_BENCHMARK_WARMUP_FRAMES ==>
                var sample := FrameSample(app, computeJobTime, updateTime, readTime);
                var k := old(benchmarkFrameIdx) - NUM_BENCHMARK_WARMUP_FRAMES;
                Benchmark() == old(Benchmark()).(samples := old(benchmarkSamples)[k := sample]) &&
                measured == old(measured) + [sample]
      ensures old(benchmarkFrameIdx) < NUM_BENCHMARK_WARMUP_FRAMES ==> Benchmark() == old(Benchmark()) && measured == old(measured)
      ensures |measured| == (if benchmarkFrameIdx + 1 >= NUM_BENCHMARK_WARMUP_FRAMES then benchmarkFrameIdx + 1 - NUM_BENCHMARK_WARMUP_FRAMES else 0)
      ensures measured == benchmarkSamples[..|measured|] && |benchmarkSamples| == NUM_BENCHMARK_MEASURE_FRAMES
    {
      if benchmarkFrameIdx >= NUM_BENCHMARK_WARMUP_FRAMES {
        var sampleIdx := benchmarkFrameIdx - NUM_BENCHMARK_WARMUP_FRAMES;
        var sample := FrameSample(app, computeJobTime, updateTime, readTime);
        benchmarkSamples := benchmarkSamples[sampleIdx := sample];
        measured := measured + [sample];
      }
    }

    /** The last frame of a configuration: its result is the average of its samples. */
    method FinishConfig()
      requires numBenchmarks <= |benchmarkConfigs| && |benchmarkResults| == numBenchmarks
      requires benchmarkConfigIdx < numBenchmarks && |benchmarkSamples| == NUM_BENCHMARK_MEASURE_FRAMES
      modifies this
      ensures res == old(res) && measured == old(measured)
      ensures Benchmark() == old(Benchmark()).(results := old(benchmarkResults)[old(benchmarkConfigIdx) := Average(benchmarkSamples)],
                                               configIdx := old(benchmarkConfigIdx) + 1)
    {
      var results := AverageSamples(benchmarkSamples);
      benchmarkResults := benchmarkResults[benchmarkConfigIdx := results];
      benchmarkConfigIdx := benchmarkConfigIdx + 1;
    }

    /** After the last configuration: the CSV report of every configuration with its result. */
    method WriteReport()
      requires numBenchmarks <= |benchmarkConfigs| && |benchmarkResults| == numBenchmarks
      modifies this
      ensures res == old(res) && measured == old(measured)
      ensures Benchmark() == old(Benchmark()).(reports := old(reports) + [ReportRows(old(benchmarkConfigs[..numBenchmarks]), old(benchmarkResults))])
    {
      var rows := BuildReport(benchmarkConfigs[..numBenchmarks], benchmarkResults);
      reports := reports + [rows];
    }

    /** `TickBenchmark`, given the profiler's timings of the previous frame. */
    method TickBenchmark(computeJobTime: real, updateTime: real, readTime: real)
      requires BenchmarkValid() && ConfigSizesValid() && app.EnumsDistinct() && app.IntsDistinct()
      requires SettingsValid(app) && InputNonEmpty(app)
      modifies this, app.HeapType, app.HeapType.base, app.CPUPageProperty, app.CPUPageProperty.base,
               app.MemoryPool, app.MemoryPool.base, app.InputBufferType, app.InputBufferType.base,
               app.NumThreadGroups, app.NumThreadGroups.base, app.ElemsPerThread, app.ElemsPerThread.base,
               app.ThreadElemStride, app.ThreadElemStride.base, app.GroupElemOffset, app.GroupElemOffset.base,
               app.ThreadElemOffset, app.ThreadElemOffset.base, app.InputBufferSizeMB, app.InputBufferSizeMB.base,
               app.InputBufferSizeKB, app.InputBufferSizeKB.base, app.InputBufferSizeBytes, app.InputBufferSizeBytes.base,
               app.EnableVSync, app.EnableVSync.base
      ensures BenchmarkValid() && ConfigSizesValid() && SettingsValid(app) && InputNonEmpty(app) && res == old(res)
      ensures !old(ConfigDue()) ==> RebuildFlags(app) == old(RebuildFlags(app)) && WatchedFlags(app) == old(WatchedFlags(app))
      ensures old(benchmarkConfigIdx >= numBenchmarks) ==> Benchmark() == old(Benchmark()) && measured == old(measured)
      ensures old(benchmarkConfigIdx < numBenchmarks && benchmarkFrameIdx >= NUM_BENCHMARK_TOTAL_FRAMES) ==>
                var config := old(benchmarkConfigs[benchmarkConfigIdx]);
                ConfigApplied(app, config) && Benchmark() == old(Benchmark()).(frameIdx := 0) && measured == []
      ensures old(benchmarkConfigIdx < numBenchmarks && benchmarkFrameIdx < NUM_BENCHMARK_TOTAL_FRAMES) ==>
                var sample := old(FrameSample(app, computeJobTime, updateTime, readTime));
                benchmarkFrameIdx == old(benchmarkFrameIdx) + 1 &&
                benchmarkConfigs == old(benchmarkConfigs) && numBenchmarks == old(numBenchmarks) &&
                measured == old(measured) + (if old(benchmarkFrameIdx) >= NUM_BENCHMARK_WARMUP_FRAMES then [sample] else []) &&
                benchmarkSamples == (if old(benchmarkFrameIdx) >= NUM_BENCHMARK_WARMUP_FRAMES
                                     then old(benchmarkSamples)[old(benchmarkFrameIdx) - NUM_BENCHMARK_WARMUP_FRAMES := sample]
                                     else old(benchmarkSamples)) &&
                (benchmarkFrameIdx < NUM_BENCHMARK_TOTAL_FRAMES ==>
                   benchmarkResults == old(benchmarkResults) && benchmarkConfigIdx == old(benchmarkConfigIdx)) &&
                (benchmarkFrameIdx == NUM_BENCHMARK_TOTAL_FRAMES ==>
                   |measured| == NUM_BENCHMARK_MEASURE_FRAMES &&
                   benchmarkResults == old(benchmarkResults)[old(benchmarkConfigIdx) := Average(measured)] &&
                   benchmarkConfigIdx == old(benchmarkConfigIdx) + 1) &&
                reports == old(reports) +
                  (if benchmarkConfigIdx == numBenchmarks then [ReportRows(benchmarkConfigs[..numBenchmarks], benchmarkResults)] else [])
    {
      if benchmarkConfigIdx >= numBenchmarks {
        return;
      }
      if benchmarkFrameIdx >= NUM_BENCHMARK_TOTAL_FRAMES {
        ghost var config := benchmarkConfigs[benchmarkConfigIdx];
        ApplyNextConfig();
        AppliedSizeNonEmpty(app, config);
        return;
      }
      RecordFrame(computeJobTime, updateTime, readTime);
    }

    // -------------------------------------------------------------------------------------
    // Buffers and the compute job

    /**
     * The sizes, views and res.buffers CreateBuffers derives from the settings, after a GPU flush.
     * The old res.buffers' descriptor indices, freed first, are replaced in the same step (the
     * freed values are only observable through OutputBufferIdxAsWritten).
     */
    method ComputeBuffers(srvIndex: u32, outputUAV: u32)
      requires SettingsValid(app) && InputNonEmpty(app)
      modifies this
      ensures BuffersMatch() && res.buffers.numInputElems > 0
      ensures res.buffers.inputBufferSRV == srvIndex && res.buffers.outputBufferUAV == outputUAV
      ensures res == old(res).(buffers := res.buffers, buffersCreated := old(res.buffersCreated) + 1,
                               gpuFlushes := old(res.gpuFlushes) + 1)
      ensures Benchmark() == old(Benchmark()) && measured == old(measured)
    {
      var bufferType := BufferTypeOf(app.InputBufferType.val);
      var size := InputBufferSize(app.InputBufferSizeMB.val, app.InputBufferSizeKB.val,
                                  app.InputBufferSizeBytes.val, bufferType);
      var numElems := size / 16;
      InputElementsIff(app.InputBufferSizeMB.val, app.InputBufferSizeKB.val, app.InputBufferSizeBytes.val, bufferType);
      var numThreads := NumTotalThreads(app.NumThreadGroups.val);
      var writable := IsLiveInputBufferCPUWritable(app.HeapType.val, app.CPUPageProperty.val);
      var built := InputBuffers(size, numElems, InputHeapSize(size), numThreads, writable, numElems * 4,
                                InputBufferViews(bufferType, writable, numElems), !writable, srvIndex, outputUAV,
                                numThreads);
      res := res.(buffers := built, gpuFlushes := res.gpuFlushes + 1, buffersCreated := res.buffersCreated + 1);
    }

    /**
     * The three settings CreateBuffers writes back for the shaders: the input buffer's SRV,
     * the output buffer's UAV (the one it owns once initialized) and the element count.
     */
    method StoreBufferIndices()
      requires IndicesValid(app) && app.IndicesApart() && app.WrittenBasesDistinct()
      modifies app.InputBufferIdx, app.InputBufferIdx.base, app.OutputBufferIdx, app.OutputBufferIdx.base,
               app.NumInputBufferElems, app.NumInputBufferElems.base
      ensures IndicesValid(app)
      ensures app.InputBufferIdx.val == AsSigned32(res.buffers.inputBufferSRV)
      ensures app.OutputBufferIdx.val == AsSigned32(res.buffers.outputBufferUAV)
      ensures app.NumInputBufferElems.val == AsSigned32(res.buffers.numInputElems)
      ensures WatchedFlags(app) == old(WatchedFlags(app))
    {
      app.InputBufferIdx.SetValue(AsSigned32(res.buffers.inputBufferSRV));
      app.OutputBufferIdx.SetValue(AsSigned32(res.buffers.outputBufferUAV));
      app.NumInputBufferElems.SetValue(AsSigned32(res.buffers.numInputElems));
    }

    /**
     * `CreateBuffers`, given the persistent SRV index the descriptor heap hands out and the
     * UAV index the new output buffer receives. The element count stored for the shaders is
     * the new buffer's, and the output index is the new output buffer's UAV.
     */
    method CreateBuffers(srvIndex: u32, outputUAV: u32)
      requires SettingsValid(app) && InputNonEmpty(app) && app.IndicesApart() && app.WrittenBasesDistinct()
      modifies this, app.InputBufferIdx, app.InputBufferIdx.base, app.OutputBufferIdx, app.OutputBufferIdx.base,
               app.NumInputBufferElems, app.NumInputBufferElems.base
      ensures SettingsValid(app) && InputNonEmpty(app) && BuffersMatch() && res.buffers.numInputElems > 0
      ensures res.buffers.inputBufferSRV == srvIndex && res.buffers.outputBufferUAV == outputUAV
      ensures app.InputBufferIdx.val == AsSigned32(srvIndex) && app.OutputBufferIdx.val == AsSigned32(outputUAV)
      ensures app.NumInputBufferElems.val == res.buffers.numInputElems
      ensures res == old(res).(buffers := res.buffers, buffersCreated := old(res.buffersCreated) + 1,
                               gpuFlushes := old(res.gpuFlushes) + 1)
      ensures Benchmark() == old(Benchmark()) && measured == old(measured)
      ensures WatchedFlags(app) == old(WatchedFlags(app))
    {
      ComputeBuffers(srvIndex, outputUAV);
      StoreBufferIndices();
    }

    /** `CompileComputeJob`: the defines come from the current settings. */
    method CompileComputeJob()
      modifies this
      ensures JobMatches()
      ensures app.InputBufferType.val < NUM_BUFFER_TYPES ==>
                SelectedBufferType(res.computeJobOptions) == Some(BufferTypeOf(app.InputBufferType.val))
      ensures res.computeJobsCompiled == old(res.computeJobsCompiled) + 1
      ensures Benchmark() == old(Benchmark()) && measured == old(measured)
      ensures res == old(res).(computeJobOptions := res.computeJobOptions, computeJobsCompiled := res.computeJobsCompiled)
    {
      var bufferType := app.InputBufferType.val;
      var options := CompileOptions(
        app.ElemsPerThread.val, app.ThreadElemOffset.val, app.GroupElemOffset.val, app.NumInputBufferElems.val,
        app.ThreadElemStride.val, bufferType == Raw.Index(), bufferType == Formatted.Index(),
        bufferType == Structured.Index(), bufferType == Constant.Index());
      res := res.(computeJobOptions := options, computeJobsCompiled := res.computeJobsCompiled + 1);
    }

    // -------------------------------------------------------------------------------------
    // Update

    /** The page property and memory pool are shown only for the custom heap. No changed flag moves. */
    method ShowCustomHeapSettings()
      modifies app.CPUPageProperty.base, app.MemoryPool.base
      ensures var customHeap := app.HeapType.val == Custom.Index();
              app.CPUPageProperty.base.visible == customHeap && app.MemoryPool.base.visible == customHeap
      ensures RebuildFlags(app) == old(RebuildFlags(app)) && WatchedFlags(app) == old(WatchedFlags(app))
      ensures app.BufferUploadPath.base.changed == old(app.BufferUploadPath.base.changed)
    {
      var customHeap := app.HeapType.val == Custom.Index();
      app.CPUPageProperty.base.SetVisible(customHeap);
      app.MemoryPool.base.SetVisible(customHeap);
    }

    /** For L1 on a discrete GPU only NotAvailable is offered; otherwise all three page properties. */
    method ClampPageProperty()
      requires EnumsValid(app) && app.EnumsDistinct()
      modifies app.CPUPageProperty
      ensures EnumsValid(app)
      ensures var num := if !res.uma && app.MemoryPool.val == L1.Index() then NotAvailable.Index() + 1
                         else NUM_CPU_PAGE_PROPERTIES;
              app.CPUPageProperty.numValuesClamp == num &&
              app.CPUPageProperty.val == (if old(app.CPUPageProperty.val) >= num then num - 1 else old(app.CPUPageProperty.val))
    {
      if !res.uma && app.MemoryPool.val == L1.Index() {
        app.CPUPageProperty.ClampNumValues(NotAvailable.Index() + 1);
      } else {
        app.CPUPageProperty.ClampNumValues(NUM_CPU_PAGE_PROPERTIES);
      }
    }

    /** The visibility part of Update: the shown settings and the page-property clamp. */
    method UpdateVisibility()
      requires SettingsValid(app) && app.EnumsDistinct()
      modifies app.CPUPageProperty, app.CPUPageProperty.base, app.MemoryPool.base
      ensures SettingsValid(app)
      ensures RebuildFlags(app) == old(RebuildFlags(app)) && WatchedFlags(app) == old(WatchedFlags(app))
      ensures app.BufferUploadPath.base.changed == old(app.BufferUploadPath.base.changed)
    {
      ShowCustomHeapSettings();
      ClampPageProperty();
    }

    /** The first invalidation list: one CreateBuffers if any of its settings changed. */
    method RebuildIfChanged(srvIndex: u32, outputUAV: u32) returns (rebuilt: bool)
      requires SettingsValid(app) && InputNonEmpty(app) && app.IndicesApart() && app.WrittenBasesDistinct()
      modifies this, app.InputBufferIdx, app.InputBufferIdx.base, app.OutputBufferIdx, app.OutputBufferIdx.base,
               app.NumInputBufferElems, app.NumInputBufferElems.base
      ensures rebuilt <==> true in old(RebuildFlags(app))
      ensures SettingsValid(app) && InputNonEmpty(app)
      ensures rebuilt ==> BuffersMatch() && res.buffers.inputBufferSRV == srvIndex && res.buffers.outputBufferUAV == outputUAV
      ensures rebuilt ==> app.NumInputBufferElems.val == res.buffers.numInputElems
      ensures res == if rebuilt then old(res).(buffers := res.buffers, buffersCreated := old(res.buffersCreated) + 1,
                                               gpuFlushes := old(res.gpuFlushes) + 1)
                     else old(res)
      ensures Benchmark() == old(Benchmark()) && measured == old(measured)
      ensures WatchedFlags(app) == old(WatchedFlags(app))
    {
      ghost var flags := RebuildFlags(app);
      rebuilt := FindChanged(app, REBUILD_SETTINGS);
      assert rebuilt <==> true in flags by { ListFlags(app); }
      if rebuilt {
        CreateBuffers(srvIndex, outputUAV);
      }
    }

    /** The second invalidation list: one CompileComputeJob if any of its settings changed. */
    method RecompileIfChanged() returns (recompiled: bool)
      modifies this
      ensures recompiled <==> true in WatchedFlags(app)[..8]
      ensures recompiled ==> JobMatches()
      ensures res == if recompiled then old(res).(computeJobOptions := res.computeJobOptions,
                                                                   computeJobsCompiled := old(res.computeJobsCompiled) + 1)
                             else old(res)
      ensures Benchmark() == old(Benchmark()) && measured == old(measured)
    {
      recompiled := FindChanged(app, RECOMPILE_SETTINGS);
      ListFlags(app);
      if recompiled {
        CompileComputeJob();
      }
    }

    /** Switching the upload path flushes the GPU, so two queues never write the same buffer. */
    method FlushIfUploadPathChanged()
      modifies this
      ensures res == old(res).(gpuFlushes := old(res.gpuFlushes) + if app.BufferUploadPath.base.changed then 1 else 0)
      ensures Benchmark() == old(Benchmark()) && measured == old(measured)
    {
      if app.BufferUploadPath.base.Changed() {
        res := res.(gpuFlushes := res.gpuFlushes + 1);
      }
    }

    /** What Update does after the res.buffers: the recompile list, then the upload-path flush. */
    method RecompileAndFlush() returns (recompiled: bool)
      modifies this
      ensures recompiled <==> true in WatchedFlags(app)[..8]
      ensures recompiled ==> JobMatches()
      ensures !recompiled ==> res.computeJobOptions == old(res.computeJobOptions)
      ensures res == old(res).(computeJobOptions := res.computeJobOptions,
                                               computeJobsCompiled := old(res.computeJobsCompiled) + (if recompiled then 1 else 0),
                                               gpuFlushes := old(res.gpuFlushes) + if app.BufferUploadPath.base.changed then 1 else 0)
      ensures Benchmark() == old(Benchmark()) && measured == old(measured)
    {
      recompiled := RecompileIfChanged();
      FlushIfUploadPathChanged();
    }

    /**
     * The two invalidation lists and the upload-path flush, in the order Update runs them. The
     * rebuild runs first, so a job recompiled in the same frame sees the new element count.
     */
    method RebuildAndRecompile(srvIndex: u32, outputUAV: u32) returns (rebuilt: bool, recompiled: bool)
      requires SettingsValid(app) && InputNonEmpty(app) && app.IndicesApart() && app.WrittenBasesDistinct()
      modifies this, app.InputBufferIdx, app.InputBufferIdx.base, app.OutputBufferIdx, app.OutputBufferIdx.base,
               app.NumInputBufferElems, app.NumInputBufferElems.base
      ensures SettingsValid(app) && InputNonEmpty(app)
      ensures rebuilt <==> old(AnyChanged(app, REBUILD_SETTINGS))
      ensures recompiled <==> old(AnyChanged(app, RECOMPILE_SETTINGS))
      ensures rebuilt ==> BuffersMatch() && res.buffers.inputBufferSRV == srvIndex && res.buffers.outputBufferUAV == outputUAV
      ensures recompiled ==> JobMatches()
      ensures rebuilt && recompiled ==> res.computeJobOptions.NumInputBufferElems == res.buffers.numInputElems
      ensures res ==
                old(res).(buffers := res.buffers, computeJobOptions := res.computeJobOptions,
                          buffersCreated := old(res.buffersCreated) + (if rebuilt then 1 else 0),
                          computeJobsCompiled := old(res.computeJobsCompiled) + (if recompiled then 1 else 0),
                          gpuFlushes := old(res.gpuFlushes) + (if rebuilt then 1 else 0) +
                                        (if old(app.BufferUploadPath.base.changed) then 1 else 0))
      ensures !rebuilt ==> res.buffers == old(res.buffers)
      ensures !recompiled ==> res.computeJobOptions == old(res.computeJobOptions)
      ensures Benchmark() == old(Benchmark()) && measured == old(measured)
    {
      ListFlags(app);
      rebuilt := RebuildIfChanged(srvIndex, outputUAV);
      recompiled := RecompileAndFlush();
    }

    /**
     * The settings part of Update: visibility and the page-property clamp, then the
     * invalidation lists. A setting in the rebuild list recreates the res.buffers exactly once,
     * one in the recompile list recompiles the job exactly once.
     */
    method UpdateSettings(srvIndex: u32, outputUAV: u32) returns (rebuilt: bool, recompiled: bool)
      requires SettingsValid(app) && InputNonEmpty(app) && app.EnumsDistinct() && app.IntsDistinct() && app.WrittenBasesDistinct()
      modifies this, app.CPUPageProperty, app.CPUPageProperty.base, app.MemoryPool.base,
               app.InputBufferIdx, app.InputBufferIdx.base, app.OutputBufferIdx, app.OutputBufferIdx.base,
               app.NumInputBufferElems, app.NumInputBufferElems.base
      ensures SettingsValid(app) && InputNonEmpty(app)
      ensures rebuilt <==> old(AnyChanged(app, REBUILD_SETTINGS))
      ensures recompiled <==> old(AnyChanged(app, RECOMPILE_SETTINGS))
      ensures rebuilt ==> BuffersMatch() && res.buffers.inputBufferSRV == srvIndex && res.buffers.outputBufferUAV == outputUAV
      ensures recompiled ==> JobMatches()
      ensures rebuilt && recompiled ==> res.computeJobOptions.NumInputBufferElems == res.buffers.numInputElems
      ensures res ==
                old(res).(buffers := res.buffers, computeJobOptions := res.computeJobOptions,
                          buffersCreated := old(res.buffersCreated) + (if rebuilt then 1 else 0),
                          computeJobsCompiled := old(res.computeJobsCompiled) + (if recompiled then 1 else 0),
                          gpuFlushes := old(res.gpuFlushes) + (if rebuilt then 1 else 0) +
                                        (if old(app.BufferUploadPath.base.changed) then 1 else 0))
      ensures !rebuilt ==> res.buffers == old(res.buffers)
      ensures !recompiled ==> res.computeJobOptions == old(res.computeJobOptions)
      ensures Benchmark() == old(Benchmark()) && measured == old(measured)
    {
      ListFlags(app);
      UpdateVisibility();
      ListFlags(app);
      rebuilt, recompiled := RebuildAndRecompile(srvIndex, outputUAV);
    }

    /** The stable power state and the driver's background processing follow their settings. */
    method SyncDeviceState()
      modifies this
      ensures res == old(res).(stablePowerState := app.StablePowerState.val != 0,
                               driverThreads := app.EnableDriverBackgroundThreads.val != 0)
      ensures Benchmark() == old(Benchmark()) && measured == old(measured)
    {
      if (app.StablePowerState.val != 0) != res.stablePowerState {
        res := res.(stablePowerState := app.StablePowerState.val != 0);
      }
      if (app.EnableDriverBackgroundThreads.val != 0) != res.driverThreads {
        res := res.(driverThreads := app.EnableDriverBackgroundThreads.val != 0);
      }
    }

    /**
     * The first half of `Update`: VSync follows its setting, then the benchmark ticks. A tick
     * with no configuration due leaves every changed flag of the invalidation lists as it was.
     */
    method TickWithVSync(computeJobTime: real, updateTime: real, readTime: real)
      requires BenchmarkValid() && ConfigSizesValid() && SettingsValid(app) && InputNonEmpty(app)
      requires app.EnumsDistinct() && app.IntsDistinct() && app.UploadPathBaseApart()
      modifies this, app.HeapType, app.HeapType.base, app.CPUPageProperty, app.CPUPageProperty.base,
               app.MemoryPool, app.MemoryPool.base, app.InputBufferType, app.InputBufferType.base,
               app.NumThreadGroups, app.NumThreadGroups.base, app.ElemsPerThread, app.ElemsPerThread.base,
               app.ThreadElemStride, app.ThreadElemStride.base, app.GroupElemOffset, app.GroupElemOffset.base,
               app.ThreadElemOffset, app.ThreadElemOffset.base, app.InputBufferSizeMB, app.InputBufferSizeMB.base,
               app.InputBufferSizeKB, app.InputBufferSizeKB.base, app.InputBufferSizeBytes, app.InputBufferSizeBytes.base,
               app.EnableVSync, app.EnableVSync.base
      ensures BenchmarkValid() && ConfigSizesValid() && SettingsValid(app) && InputNonEmpty(app)
      ensures res == old(res).(vsyncEnabled := old(app.EnableVSync.val) != 0)
      ensures app.BufferUploadPath.base.changed == old(app.BufferUploadPath.base.changed)
      ensures !old(ConfigDue()) ==> RebuildFlags(app) == old(RebuildFlags(app)) && WatchedFlags(app) == old(WatchedFlags(app))
      ensures old(ConfigDue()) ==> ConfigApplied(app, old(benchmarkConfigs[benchmarkConfigIdx]))
      ensures BenchmarkTicked(old(Benchmark()), old(measured), Benchmark(), measured,
                              old(FrameSample(app, computeJobTime, updateTime, readTime)))
    {
      res := res.(vsyncEnabled := app.EnableVSync.val != 0);
      TickBenchmark(computeJobTime, updateTime, readTime);
    }

    /**
     * The second half of `Update`: the device state, then the settings-driven rebuilds, each
     * list firing exactly when one of its settings reports a change.
     */
    method SyncAndUpdateSettings(srvIndex: u32, outputUAV: u32) returns (rebuilt: bool, recompiled: bool)
      requires SettingsValid(app) && InputNonEmpty(app) && app.EnumsDistinct() && app.IntsDistinct() && app.WrittenBasesDistinct()
      modifies this, app.CPUPageProperty, app.CPUPageProperty.base, app.MemoryPool.base,
               app.InputBufferIdx, app.InputBufferIdx.base, app.OutputBufferIdx, app.OutputBufferIdx.base,
               app.NumInputBufferElems, app.NumInputBufferElems.base
      ensures SettingsValid(app) && InputNonEmpty(app)
      ensures rebuilt <==> old(AnyChanged(app, REBUILD_SETTINGS))
      ensures recompiled <==> old(AnyChanged(app, RECOMPILE_SETTINGS))
      ensures rebuilt ==> BuffersMatch() && res.buffers.inputBufferSRV == srvIndex && res.buffers.outputBufferUAV == outputUAV
      ensures recompiled ==> JobMatches()
      ensures rebuilt && recompiled ==> res.computeJobOptions.NumInputBufferElems == res.buffers.numInputElems
      ensures ListsApplied(old(res).(stablePowerState := app.StablePowerState.val != 0,
                                     driverThreads := app.EnableDriverBackgroundThreads.val != 0),
                           res, rebuilt, recompiled, old(app.BufferUploadPath.base.changed))
      ensures Benchmark() == old(Benchmark()) && measured == old(measured)
    {
      ListFlags(app);
      SyncDeviceState();
      ListFlags(app);
      rebuilt, recompiled := UpdateSettings(srvIndex, outputUAV);
    }

    /**
     * `Update`, given the profiler's timings of the previous frame and the descriptor indices a
     * rebuild would receive: VSync follows its setting as it was before the benchmark's tick,
     * the device state follows its settings, and the buffers and the job are rebuilt from the
     * settings as they are after the tick. On a frame with no configuration due the lists fire
     * exactly when one of their settings reported a change before the call.
     */
    method Update(computeJobTime: real, updateTime: real, readTime: real, srvIndex: u32, outputUAV: u32)
      returns (rebuilt: bool, recompiled: bool)
      requires BenchmarkValid() && ConfigSizesValid() && SettingsValid(app) && InputNonEmpty(app) && app.Distinct()
      modifies this, app.HeapType, app.HeapType.base, app.CPUPageProperty, app.CPUPageProperty.base,
               app.MemoryPool, app.MemoryPool.base, app.InputBufferType, app.InputBufferType.base,
               app.NumThreadGroups, app.NumThreadGroups.base, app.ElemsPerThread, app.ElemsPerThread.base,
               app.ThreadElemStride, app.ThreadElemStride.base, app.GroupElemOffset, app.GroupElemOffset.base,
               app.ThreadElemOffset, app.ThreadElemOffset.base, app.InputBufferSizeMB, app.InputBufferSizeMB.base,
               app.InputBufferSizeKB, app.InputBufferSizeKB.base, app.InputBufferSizeBytes, app.InputBufferSizeBytes.base,
               app.EnableVSync, app.EnableVSync.base,
               app.InputBufferIdx, app.InputBufferIdx.base, app.OutputBufferIdx, app.OutputBufferIdx.base,
               app.NumInputBufferElems, app.NumInputBufferElems.base
      ensures BenchmarkValid() && ConfigSizesValid() && SettingsValid(app) && InputNonEmpty(app)
      ensures !old(ConfigDue()) ==> (rebuilt <==> old(AnyChanged(app, REBUILD_SETTINGS))) &&
                                    (recompiled <==> old(AnyChanged(app, RECOMPILE_SETTINGS)))
      ensures rebuilt ==> BuffersMatch() && res.buffers.inputBufferSRV == srvIndex && res.buffers.outputBufferUAV == outputUAV
      ensures recompiled ==> JobMatches()
      ensures rebuilt && recompiled ==> res.computeJobOptions.NumInputBufferElems == res.buffers.numInputElems
      ensures ListsApplied(old(res).(vsyncEnabled := old(app.EnableVSync.val) != 0,
                                     stablePowerState := app.StablePowerState.val != 0,
                                     driverThreads := app.EnableDriverBackgroundThreads.val != 0),
                           res, rebuilt, recompiled, old(app.BufferUploadPath.base.changed))
      ensures BenchmarkTicked(old(Benchmark()), old(measured), Benchmark(), measured,
                              old(FrameSample(app, computeJobTime, updateTime, readTime)))
    {
      ListFlags(app);
      TickWithVSync(computeJobTime, updateTime, readTime);
      ghost var ticked, measuredTicked := Benchmark(), measured;
      ListFlags(app);
      rebuilt, recompiled := SyncAndUpdateSettings(srvIndex, outputUAV);
      assert Benchmark() == ticked && measured == measuredTicked;
    }

    // -------------------------------------------------------------------------------------
    // Initialization

    /** `InitBenchmark`: the sample slots, the configuration sweep and one result slot per configuration. */
    method InitBenchmark()
      requires BenchmarkValid() && benchmarkConfigs == [] && benchmarkConfigIdx == U32_MAX
      modifies this
      ensures benchmarkConfigs == Enumeration(res.gpuUploadHeapAvailable, res.uma)
      ensures numBenchmarks as int == |benchmarkConfigs| == (if res.gpuUploadHeapAvailable then 12 else 8)
      ensures benchmarkSamples == seq(NUM_BENCHMARK_MEASURE_FRAMES, _ => ZERO_RESULTS)
      ensures benchmarkResults == seq(numBenchmarks, _ => ZERO_RESULTS)
      ensures benchmarkConfigIdx == U32_MAX && benchmarkFrameIdx == old(benchmarkFrameIdx) && reports == old(reports)
      ensures res == old(res) && measured == old(measured)
      ensures BenchmarkValid()
    {
      benchmarkSamples := seq(NUM_BENCHMARK_MEASURE_FRAMES, _ => ZERO_RESULTS);
      var configs := EnumerateConfigs(res.gpuUploadHeapAvailable, res.uma);
      EnumerationLength(res.gpuUploadHeapAvailable, res.uma);
      benchmarkConfigs := benchmarkConfigs + configs;
      numBenchmarks := |benchmarkConfigs| as u32;
      benchmarkResults := seq(numBenchmarks, _ => ZERO_RESULTS);
    }

    /** Without GPU upload heaps the last heap type cannot be selected. */
    method SetUploadHeapSupport(gpuUploadHeapAvailable: bool)
      requires EnumsValid(app)
      modifies this, app.HeapType
      ensures EnumsValid(app)
      ensures res == old(res).(gpuUploadHeapAvailable := gpuUploadHeapAvailable)
      ensures !gpuUploadHeapAvailable ==> app.HeapType.numValuesClamp == NUM_HEAP_TYPES - 1 &&
                                          app.HeapType.val != GPUUpload.Index()
      ensures gpuUploadHeapAvailable ==> app.HeapType.numValuesClamp == old(app.HeapType.numValuesClamp) &&
                                         app.HeapType.val == old(app.HeapType.val)
      ensures Benchmark() == old(Benchmark()) && measured == old(measured)
    {
      res := res.(gpuUploadHeapAvailable := gpuUploadHeapAvailable);
      if !gpuUploadHeapAvailable {
        app.HeapType.ClampNumValues(NUM_HEAP_TYPES - 1);
      }
    }

    /** A UMA device has a single memory pool. */
    method SetUma(uma: bool)
      requires EnumsValid(app)
      modifies this, app.MemoryPool
      ensures EnumsValid(app)
      ensures res == old(res).(uma := uma)
      ensures uma ==> app.MemoryPool.numValuesClamp == 1 && app.MemoryPool.val == L0.Index()
      ensures !uma ==> app.MemoryPool.numValuesClamp == old(app.MemoryPool.numValuesClamp) &&
                       app.MemoryPool.val == old(app.MemoryPool.val)
      ensures Benchmark() == old(Benchmark()) && measured == old(measured)
    {
      res := res.(uma := uma);
      if uma {
        app.MemoryPool.ClampNumValues(1);
      }
    }

    /** The first part of `Initialize`: the upload heap's availability, the buffers and the job. */
    method InitializeResources(gpuUploadHeapAvailable: bool, srvIndex: u32, outputUAV: u32)
      requires SettingsValid(app) && InputNonEmpty(app) && app.Distinct()
      modifies this, app.HeapType, app.InputBufferIdx, app.InputBufferIdx.base, app.OutputBufferIdx, app.OutputBufferIdx.base,
               app.NumInputBufferElems, app.NumInputBufferElems.base
      ensures SettingsValid(app) && InputNonEmpty(app) && BuffersMatch() && JobMatches() && res.buffers.numInputElems > 0
      ensures res.computeJobOptions.NumInputBufferElems == res.buffers.numInputElems
      ensures res.gpuUploadHeapAvailable == gpuUploadHeapAvailable && res.uma == old(res.uma)
      ensures !gpuUploadHeapAvailable ==> app.HeapType.val != GPUUpload.Index()
      ensures Benchmark() == old(Benchmark()) && measured == old(measured)
    {
      SetUploadHeapSupport(gpuUploadHeapAvailable);
      CreateBuffers(srvIndex, outputUAV);
      CompileComputeJob();
    }

    /** The second part of `Initialize`: the UMA clamp and the benchmark's configurations. */
    method InitializeBenchmark(uma: bool)
      requires EnumsValid(app) && BenchmarkValid() && benchmarkConfigs == [] && benchmarkConfigIdx == U32_MAX
      modifies this, app.MemoryPool
      ensures EnumsValid(app) && BenchmarkValid() && ConfigSizesValid()
      ensures res == old(res).(uma := uma)
      ensures uma ==> app.MemoryPool.val == L0.Index()
      ensures !uma ==> app.MemoryPool.val == old(app.MemoryPool.val)
      ensures benchmarkConfigs == Enumeration(res.gpuUploadHeapAvailable, uma) && numBenchmarks as int == |benchmarkConfigs|
      ensures benchmarkConfigIdx == U32_MAX
    {
      SetUma(uma);
      InitBenchmark();
      EnumerationFiltered(res.gpuUploadHeapAvailable, uma);
    }

    /**
     * `Initialize`, given the device's GPU-upload-heap support, whether it is UMA, and the
     * descriptor indices the first buffers receive. The job is compiled after the buffers, so
     * it sees their element count.
     */
    method Initialize(gpuUploadHeapAvailable: bool, uma: bool, srvIndex: u32, outputUAV: u32)
      requires SettingsValid(app) && InputNonEmpty(app) && app.Distinct()
      requires BenchmarkValid() && benchmarkConfigs == [] && benchmarkConfigIdx == U32_MAX
      modifies this, app.HeapType, app.MemoryPool, app.InputBufferIdx, app.InputBufferIdx.base, app.OutputBufferIdx, app.OutputBufferIdx.base,
               app.NumInputBufferElems, app.NumInputBufferElems.base
      ensures SettingsValid(app) && InputNonEmpty(app) && BuffersMatch() && JobMatches()
      ensures BenchmarkValid() && ConfigSizesValid() && res.buffers.numInputElems > 0
      ensures res.computeJobOptions.NumInputBufferElems == res.buffers.numInputElems
      ensures res.gpuUploadHeapAvailable == gpuUploadHeapAvailable && res.uma == uma
      ensures !gpuUploadHeapAvailable ==> app.HeapType.val != GPUUpload.Index()
      ensures uma ==> app.MemoryPool.val == L0.Index()
      ensures benchmarkConfigs == Enumeration(gpuUploadHeapAvailable, uma) && numBenchmarks as int == |benchmarkConfigs|
      ensures benchmarkConfigIdx == U32_MAX
    {
      InitializeResources(gpuUploadHeapAvailable, srvIndex, outputUAV);
      InitializeBenchmark(uma);
    }
  }
}
