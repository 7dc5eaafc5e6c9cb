/**
 * MemPoolTest's application settings: the enumerations the benchmark sweeps over, the
 * registration of every setting (its group, domain and default) and the constant block
 * handed to the shaders.
 */
module AppSettings {
  import opened Ints
  import opened SF12Math
  import opened Settings

  // ---------------------------------------------------------------------------------------
  // Enumerations (the value of an enum setting is the index of the enumerator)

  datatype HeapTypes = Upload | Default | Custom | GPUUpload
  {
    function Index(): (r: u32)
      ensures r < NUM_HEAP_TYPES
    {
      match this
      case Upload => 0
      case Default => 1
      case Custom => 2
      case GPUUpload => 3
    }
  }

  datatype CPUPageProperties = NotAvailable | WriteCombine | WriteBack
  {
    function Index(): (r: u32)
      ensures r < NUM_CPU_PAGE_PROPERTIES
    {
      match this
      case NotAvailable => 0
      case WriteCombine => 1
      case WriteBack => 2
    }
  }

  datatype MemoryPools = L0 | L1
  {
    function Index(): (r: u32)
      ensures r < NUM_MEMORY_POOLS
    {
      match this
      case L0 => 0
      case L1 => 1
    }
  }

  datatype BufferTypes = Raw | Formatted | Structured | Constant
  {
    function Index(): (r: u32)
      ensures r < NUM_BUFFER_TYPES
    {
      match this
      case Raw => 0
      case Formatted => 1
      case Structured => 2
      case Constant => 3
    }
  }

  datatype BufferUploadPaths = DirectQueue | UploadCopyQueue | FastUploadCopyQueue
  {
    function Index(): (r: u32)
      ensures r < NUM_BUFFER_UPLOAD_PATHS
    {
      match this
      case DirectQueue => 0
      case UploadCopyQueue => 1
      case FastUploadCopyQueue => 2
    }
  }

  const NUM_HEAP_TYPES: u32 := 4
  const NUM_CPU_PAGE_PROPERTIES: u32 := 3
  const NUM_MEMORY_POOLS: u32 := 2
  const NUM_BUFFER_TYPES: u32 := 4
  const NUM_BUFFER_UPLOAD_PATHS: u32 := 3

  /** The enumerators of each enum in declaration order, as the `...Values` tables list them. */
  const HEAP_TYPES_VALUES: seq<HeapTypes> := [Upload, Default, Custom, GPUUpload]
  const CPU_PAGE_PROPERTIES_VALUES: seq<CPUPageProperties> := [NotAvailable, WriteCombine, WriteBack]
  const MEMORY_POOLS_VALUES: seq<MemoryPools> := [L0, L1]
  const BUFFER_TYPES_VALUES: seq<BufferTypes> := [Raw, Formatted, Structured, Constant]

  /** Each table holds every enumerator once, at the position of its value. */
  lemma ValuesTablesInOrder()
    ensures |HEAP_TYPES_VALUES| == NUM_HEAP_TYPES as int
    ensures forall i :: 0 <= i < |HEAP_TYPES_VALUES| ==> HEAP_TYPES_VALUES[i].Index() == i
    ensures |CPU_PAGE_PROPERTIES_VALUES| == NUM_CPU_PAGE_PROPERTIES as int
    ensures forall i :: 0 <= i < |CPU_PAGE_PROPERTIES_VALUES| ==> CPU_PAGE_PROPERTIES_VALUES[i].Index() == i
    ensures |MEMORY_POOLS_VALUES| == NUM_MEMORY_POOLS as int
    ensures forall i :: 0 <= i < |MEMORY_POOLS_VALUES| ==> MEMORY_POOLS_VALUES[i].Index() == i
    ensures |BUFFER_TYPES_VALUES| == NUM_BUFFER_TYPES as int
    ensures forall i :: 0 <= i < |BUFFER_TYPES_VALUES| ==> BUFFER_TYPES_VALUES[i].Index() == i
  {
  }

  /** `operator T()` of the typed enum setting: the enumerator with that index. */
  function HeapTypeOf(v: u32): (r: HeapTypes)
    requires v < NUM_HEAP_TYPES
    ensures r.Index() == v
  {
    if v == 0 then Upload else if v == 1 then Default else if v == 2 then Custom else GPUUpload
  }

  function CPUPagePropertyOf(v: u32): (r: CPUPageProperties)
    requires v < NUM_CPU_PAGE_PROPERTIES
    ensures r.Index() == v
  {
    if v == 0 then NotAvailable else if v == 1 then WriteCombine else WriteBack
  }

  function MemoryPoolOf(v: u32): (r: MemoryPools)
    requires v < NUM_MEMORY_POOLS
    ensures r.Index() == v
  {
    if v == 0 then L0 else L1
  }

  function BufferTypeOf(v: u32): (r: BufferTypes)
    requires v < NUM_BUFFER_TYPES
    ensures r.Index() == v
  {
    if v == 0 then Raw else if v == 1 then Formatted else if v == 2 then Structured else Constant
  }

  /** Converting an enumerator to its index and back is the identity. */
  lemma EnumIndexRoundTrip(h: HeapTypes, c: CPUPageProperties, m: MemoryPools, b: BufferTypes)
    ensures HeapTypeOf(h.Index()) == h
    ensures CPUPagePropertyOf(c.Index()) == c
    ensures MemoryPoolOf(m.Index()) == m
    ensures BufferTypeOf(b.Index()) == b
  {
  }

  /** `AppSettings::ThreadGroupSize`. */
  const THREAD_GROUP_SIZE: nat := 256

  const TEST_CONFIG: string := "Test Config"
  const DEBUG: string := "Debug"

  // ---------------------------------------------------------------------------------------
  // Registration: `X.Initialize(...)` followed by `Settings.AddSetting(&X)`

  /** Every setting name, in registration order: the 19 of "Test Config", then the 3 of "Debug". */
  const ALL_NAMES: seq<string> := [
    "HeapType", "CPUPageProperty", "MemoryPool", "InputBufferType", "InputBufferSizeMB",
    "InputBufferSizeKB", "InputBufferSizeBytes", "ElemsPerThread", "ThreadElemStride",
    "GroupElemOffset", "ThreadElemOffset", "NumThreadGroups", "ReadFromGPUMem",
    "BufferUploadPath", "BackgroundUploadSize", "BackgroundUploadWaitTime",
    "NumInputBufferElems", "InputBufferIdx", "OutputBufferIdx",
    "EnableVSync", "StablePowerState", "EnableDriverBackgroundThreads"]

  /** How many of the names belong to "Test Config". */
  const NUM_TEST_CONFIG: nat := 19

  lemma AllNamesDistinct()
    ensures forall i, j :: 0 <= i < j < |ALL_NAMES| ==> ALL_NAMES[i] != ALL_NAMES[j]
  {
  }

  /** The group the `p`-th registration goes to. */
  function GroupOf(p: nat): string
  {
    if p < NUM_TEST_CONFIG then TEST_CONFIG else DEBUG
  }

  /**
   * The container after the first `p` of the registrations `names`: the two groups of
   * `Initialize`, in order, "Test Config" holding the first `split` names and "Debug" the
   * rest, each in registration order.
   */
  ghost predicate Laid(gs: seq<Group>, names: seq<string>, split: nat, p: nat)
  {
    var inFirst := if p < split then p else split;
    p <= |names| && split <= |names| &&
    |gs| == 2 && gs[0].name == TEST_CONFIG && gs[0].expanded && gs[1].name == DEBUG && gs[1].expanded &&
    |gs[0].settings| == inFirst && |gs[1].settings| == p - inFirst &&
    (forall k :: 0 <= k < |gs[0].settings| ==> gs[0].settings[k].name == names[k]) &&
    (forall k :: 0 <= k < |gs[1].settings| ==> gs[1].settings[k].name == names[split + k])
  }

  /** The container after the first `p` registrations of `Initialize`. */
  ghost predicate RegisteredUpTo(gs: seq<Group>, p: nat)
  {
    Laid(gs, ALL_NAMES, NUM_TEST_CONFIG, p)
  }

  /** Where `AddSetting` finds the two groups. */
  lemma GroupIndices(gs: seq<Group>)
    requires |gs| == 2 && gs[0].name == TEST_CONFIG && gs[1].name == DEBUG
    ensures GroupIndex(gs, TEST_CONFIG) == 0 && GroupIndex(gs, DEBUG) == 1
  {
    assert TEST_CONFIG != DEBUG by {
      assert |TEST_CONFIG| != |DEBUG|;
    }
  }

  /** With distinct names, the `p`-th registration passes the container's duplicate-name check. */
  lemma LaidIsNew(gs: seq<Group>, names: seq<string>, split: nat, p: nat)
    requires Laid(gs, names, split, p) && p < |names|
    requires forall i, j :: 0 <= i < j < |names| ==> names[i] != names[j]
    ensures Find(gs, names[p]).None?
  {
    forall i, k | 0 <= i < |gs| && 0 <= k < |gs[i].settings|
      ensures gs[i].settings[k].name != names[p]
    {
      if i == 0 {
        assert gs[0].settings[k].name == names[k];
      } else {
        assert gs[1].settings[k].name == names[split + k];
      }
    }
    FindNoneIff(gs, names[p]);
  }

  /** The `p`-th registration finds its group and leaves the first `p + 1` names registered. */
  lemma LaidStep(gs: seq<Group>, names: seq<string>, split: nat, p: nat, s: Setting)
    requires Laid(gs, names, split, p) && p < |names|
    ensures var group := if p < split then TEST_CONFIG else DEBUG;
      GroupIndex(gs, group) < |gs| &&
      Laid(AddedTo(gs, SettingEntry(names[p], group, s)), names, split, p + 1)
  {
    GroupIndices(gs);
    if p < split {
      LaidStepFirst(gs, names, split, p, s);
    } else {
      LaidStepSecond(gs, names, split, p, s);
    }
  }

  /** A registration into the first group appends its entry there and leaves the second group alone. */
  lemma LaidStepFirst(gs: seq<Group>, names: seq<string>, split: nat, p: nat, s: Setting)
    requires Laid(gs, names, split, p) && p < |names| && p < split
    requires GroupIndex(gs, TEST_CONFIG) == 0
    ensures Laid(AddedTo(gs, SettingEntry(names[p], TEST_CONFIG, s)), names, split, p + 1)
  {
    var entry := SettingEntry(names[p], TEST_CONFIG, s);
    var gs' := AddedTo(gs, entry);
    assert gs' == [Group(TEST_CONFIG, true, gs[0].settings + [entry]), gs[1]];
    forall k | 0 <= k < |gs'[0].settings| ensures gs'[0].settings[k].name == names[k] {
      if k < p { assert gs'[0].settings[k] == gs[0].settings[k]; }
    }
  }

  /** A registration into the second group appends its entry there and leaves the first group alone. */
  lemma LaidStepSecond(gs: seq<Group>, names: seq<string>, split: nat, p: nat, s: Setting)
    requires Laid(gs, names, split, p) && p < |names| && split <= p
    requires GroupIndex(gs, DEBUG) == 1
    ensures Laid(AddedTo(gs, SettingEntry(names[p], DEBUG, s)), names, split, p + 1)
  {
    var entry := SettingEntry(names[p], DEBUG, s);
    var gs' := AddedTo(gs, entry);
    assert gs' == [gs[0], Group(DEBUG, true, gs[1].settings + [entry])];
    forall k | 0 <= k < |gs'[1].settings| ensures gs'[1].settings[k].name == names[split + k] {
      if k < p - split { assert gs'[1].settings[k] == gs[1].settings[k]; }
    }
  }

  /** Once every name is registered, and the names are distinct, no name is registered twice. */
  lemma LaidUnique(gs: seq<Group>, names: seq<string>, split: nat)
    requires Laid(gs, names, split, |names|)
    requires forall i, j :: 0 <= i < j < |names| ==> names[i] != names[j]
    ensures UniqueNames(gs)
  {
    GroupIndices(gs);
    forall i, k, j, l | 0 <= i < |gs| && 0 <= k < |gs[i].settings| && 0 <= j < |gs| && 0 <= l < |gs[j].settings| &&
                        (i, k) != (j, l)
      ensures gs[i].settings[k].name != gs[j].settings[l].name
    {
      var a := if i == 0 then k else split + k;
      var b := if j == 0 then l else split + l;
      assert gs[i].settings[k].name == names[a] && gs[j].settings[l].name == names[b];
      assert a != b;
    }
  }

  /** After the registrations of `Initialize` no name is registered twice. */
  lemma AllRegisteredUnique(gs: seq<Group>)
    requires RegisteredUpTo(gs, |ALL_NAMES|)
    ensures UniqueNames(gs)
  {
    AllNamesDistinct();
    LaidUnique(gs, ALL_NAMES, NUM_TEST_CONFIG);
  }

  /** The container side of the `p`-th registration. */
  method Register(c: SettingsContainer, p: nat, s: Setting)
    requires c.initialized && RegisteredUpTo(c.groups, p) && p < |ALL_NAMES|
    modifies c
    ensures c.initialized && RegisteredUpTo(c.groups, p + 1)
    ensures c.groups == AddedTo(old(c.groups), SettingEntry(ALL_NAMES[p], GroupOf(p), s))
  {
    AllNamesDistinct();
    LaidIsNew(c.groups, ALL_NAMES, NUM_TEST_CONFIG, p);
    LaidStep(c.groups, ALL_NAMES, NUM_TEST_CONFIG, p, s);
    c.AddSetting(SettingEntry(ALL_NAMES[p], GroupOf(p), s));
  }

  method RegisterInt(c: SettingsContainer, p: nat, labelText: string,
                     initialVal: i32, minVal: i32, maxVal: i32) returns (s: IntSetting)
    requires c.initialized && RegisteredUpTo(c.groups, p) && p < |ALL_NAMES|
    requires minVal <= initialVal <= maxVal
    modifies c
    ensures fresh(s) && fresh(s.base)
    ensures s.val == initialVal && s.oldVal == initialVal && s.minVal == minVal && s.maxVal == maxVal
    ensures s.base.name == ALL_NAMES[p] && s.base.group == GroupOf(p) && s.base.visible && !s.base.changed && s.base.initialized
    ensures c.initialized && RegisteredUpTo(c.groups, p + 1)
  {
    s := new IntSetting();
    s.Initialize(ALL_NAMES[p], GroupOf(p), labelText, "", initialVal, minVal, maxVal);
    Register(c, p, s.base);
  }

  method RegisterBool(c: SettingsContainer, p: nat, labelText: string,
                      helpText: string, initialVal: i32) returns (s: BoolSetting)
    requires c.initialized && RegisteredUpTo(c.groups, p) && p < |ALL_NAMES|
    modifies c
    ensures fresh(s) && fresh(s.base)
    ensures s.val == Normalised(initialVal) && s.oldVal == s.val
    ensures s.base.name == ALL_NAMES[p] && s.base.group == GroupOf(p) && s.base.visible && !s.base.changed && s.base.initialized
    ensures c.initialized && RegisteredUpTo(c.groups, p + 1)
  {
    s := new BoolSetting();
    s.Initialize(ALL_NAMES[p], GroupOf(p), labelText, helpText, initialVal);
    Register(c, p, s.base);
  }

  method RegisterEnum(c: SettingsContainer, p: nat, labelText: string,
                      initialVal: u32, numValues: u32, labels: seq<string>) returns (s: EnumSetting)
    requires c.initialized && RegisteredUpTo(c.groups, p) && p < |ALL_NAMES|
    modifies c
    ensures fresh(s) && fresh(s.base)
    ensures s.val == initialVal && s.oldVal == initialVal
    ensures s.numValues == numValues && s.numValuesClamp == numValues && s.valueLabels == labels
    ensures s.base.name == ALL_NAMES[p] && s.base.group == GroupOf(p) && s.base.visible && !s.base.changed && s.base.initialized
    ensures c.initialized && RegisteredUpTo(c.groups, p + 1)
  {
    s := new EnumSetting();
    s.Initialize(ALL_NAMES[p], GroupOf(p), labelText, "", initialVal, numValues, labels);
    Register(c, p, s.base);
  }

  /** A registration whose setting starts hidden (`Setting::SetVisible(false)` right after it). */
  method RegisterHiddenEnum(c: SettingsContainer, p: nat, labelText: string,
                            initialVal: u32, numValues: u32, labels: seq<string>) returns (s: EnumSetting)
    requires c.initialized && RegisteredUpTo(c.groups, p) && p < |ALL_NAMES|
    modifies c
    ensures fresh(s) && fresh(s.base)
    ensures s.val == initialVal && s.oldVal == initialVal
    ensures s.numValues == numValues && s.numValuesClamp == numValues && s.valueLabels == labels
    ensures s.base.name == ALL_NAMES[p] && s.base.group == GroupOf(p) && !s.base.visible && !s.base.changed && s.base.initialized
    ensures c.initialized && RegisteredUpTo(c.groups, p + 1)
  {
    s := RegisterEnum(c, p, labelText, initialVal, numValues, labels);
    s.base.SetVisible(false);
  }

  method RegisterHiddenInt(c: SettingsContainer, p: nat, labelText: string,
                           initialVal: i32, minVal: i32, maxVal: i32) returns (s: IntSetting)
    requires c.initialized && RegisteredUpTo(c.groups, p) && p < |ALL_NAMES|
    requires minVal <= initialVal <= maxVal
    modifies c
    ensures fresh(s) && fresh(s.base)
    ensures s.val == initialVal && s.oldVal == initialVal && s.minVal == minVal && s.maxVal == maxVal
    ensures s.base.name == ALL_NAMES[p] && s.base.group == GroupOf(p) && !s.base.visible && !s.base.changed && s.base.initialized
    ensures c.initialized && RegisteredUpTo(c.groups, p + 1)
  {
    s := RegisterInt(c, p, labelText, initialVal, minVal, maxVal);
    s.base.SetVisible(false);
  }

  // ---------------------------------------------------------------------------------------
  // The registrations of `Initialize`, in source order, a few at a time

  /** The heap the input buffer lives in: its type, and the custom-heap page property and pool (both hidden). */
  method RegisterHeapSettings(c: SettingsContainer) returns (heapType: EnumSetting,
      cpuPageProperty: EnumSetting, memoryPool: EnumSetting)
    requires c.initialized && RegisteredUpTo(c.groups, 0)
    modifies c
    ensures fresh(heapType) && fresh(heapType.base) && fresh(cpuPageProperty) && fresh(cpuPageProperty.base) && fresh(memoryPool) && fresh(memoryPool.base)
    ensures c.initialized && RegisteredUpTo(c.groups, 3)
    ensures heapType != cpuPageProperty && heapType != memoryPool && cpuPageProperty != memoryPool
    ensures heapType.numValues == NUM_HEAP_TYPES && heapType.val == Upload.Index() && heapType.base.visible
    ensures cpuPageProperty.numValues == NUM_CPU_PAGE_PROPERTIES && cpuPageProperty.val == NotAvailable.Index() && !cpuPageProperty.base.visible
    ensures memoryPool.numValues == NUM_MEMORY_POOLS && memoryPool.val == L0.Index() && !memoryPool.base.visible
  {
    heapType := RegisterEnum(c, 0 /* HeapType */, "Heap Type", Upload.Index(), NUM_HEAP_TYPES,
        ["Upload", "Default", "Custom", "GPU Upload"]);
    cpuPageProperty := RegisterHiddenEnum(c, 1 /* CPUPageProperty */, "Heap CPUPageProperty",
        NotAvailable.Index(), NUM_CPU_PAGE_PROPERTIES,
        ["Not Available (No CPU Access)", "Write-Combined (Uncached)", "Write-Back (Cached)"]);
    memoryPool := RegisterHiddenEnum(c, 2 /* MemoryPool */, "Heap MemoryPool", L0.Index(),
        NUM_MEMORY_POOLS,
        ["L0 (CPU RAM)", "L1 (VRAM)"]);
  }

  /** The input buffer's view type and the first two parts of its size. */
  method RegisterBufferSettings(c: SettingsContainer) returns (inputBufferType: EnumSetting,
      sizeMB: IntSetting, sizeKB: IntSetting)
    requires c.initialized && RegisteredUpTo(c.groups, 3)
    modifies c
    ensures fresh(inputBufferType) && fresh(inputBufferType.base) && fresh(sizeMB) && fresh(sizeMB.base) && fresh(sizeKB) && fresh(sizeKB.base)
    ensures c.initialized && RegisteredUpTo(c.groups, 6)
    ensures sizeMB != sizeKB
    ensures inputBufferType.numValues == NUM_BUFFER_TYPES && inputBufferType.val == Raw.Index() && inputBufferType.base.visible
    ensures sizeMB.minVal == 0 && sizeMB.maxVal == 256 && sizeMB.val == 16 && sizeMB.base.visible
    ensures sizeKB.minVal == 0 && sizeKB.maxVal == 1024 && sizeKB.val == 0 && sizeKB.base.visible
  {
    inputBufferType := RegisterEnum(c, 3 /* InputBufferType */, "Input Buffer Type",
        Raw.Index(), NUM_BUFFER_TYPES,
        ["Raw", "Formatted", "Structured", "Constant"]);
    sizeMB := RegisterInt(c, 4 /* InputBufferSizeMB */, "Input Buffer Size MB", 16, 0, 256);
    sizeKB := RegisterInt(c, 5 /* InputBufferSizeKB */, "Input Buffer Size KB", 0, 0, 1024);
  }

  /** The last part of the input buffer size and how many elements each thread reads, how far apart. */
  method RegisterThreadSettings(c: SettingsContainer) returns (sizeBytes: IntSetting,
      elemsPerThread: IntSetting, threadElemStride: IntSetting)
    requires c.initialized && RegisteredUpTo(c.groups, 6)
    modifies c
    ensures fresh(sizeBytes) && fresh(sizeBytes.base) && fresh(elemsPerThread) && fresh(elemsPerThread.base) && fresh(threadElemStride) && fresh(threadElemStride.base)
    ensures c.initialized && RegisteredUpTo(c.groups, 9)
    ensures sizeBytes != elemsPerThread && sizeBytes != threadElemStride && elemsPerThread != threadElemStride
    ensures sizeBytes.minVal == 0 && sizeBytes.maxVal == 1024 && sizeBytes.val == 0 && sizeBytes.base.visible
    ensures elemsPerThread.minVal == 1 && elemsPerThread.maxVal == 64 && elemsPerThread.val == 1 && elemsPerThread.base.visible
    ensures threadElemStride.minVal == 1 && threadElemStride.maxVal == 64 && threadElemStride.val == 1 && threadElemStride.base.visible
  {
    sizeBytes := RegisterInt(c, 6 /* InputBufferSizeBytes */, "Input Buffer Size Bytes", 0,
        0, 1024);
    elemsPerThread := RegisterInt(c, 7 /* ElemsPerThread */, "Elems Per Thread", 1, 1, 64);
    threadElemStride := RegisterInt(c, 8 /* ThreadElemStride */, "Thread Elem Stride", 1, 1, 64);
  }

  /** The offsets of each group's and each thread's first element, and the number of thread groups. */
  method RegisterDispatchSettings(c: SettingsContainer) returns (groupElemOffset: IntSetting,
      threadElemOffset: IntSetting, numThreadGroups: IntSetting)
    requires c.initialized && RegisteredUpTo(c.groups, 9)
    modifies c
    ensures fresh(groupElemOffset) && fresh(groupElemOffset.base) && fresh(threadElemOffset) && fresh(threadElemOffset.base) && fresh(numThreadGroups) && fresh(numThreadGroups.base)
    ensures c.initialized && RegisteredUpTo(c.groups, 12)
    ensures groupElemOffset != threadElemOffset && groupElemOffset != numThreadGroups && threadElemOffset != numThreadGroups
    ensures groupElemOffset.minVal == 0 && groupElemOffset.maxVal == 16 && groupElemOffset.val == 1 && groupElemOffset.base.visible
    ensures threadElemOffset.minVal == 0 && threadElemOffset.maxVal == 16 && threadElemOffset.val == 1 && threadElemOffset.base.visible
    ensures numThreadGroups.minVal == 1 && numThreadGroups.maxVal == 65535 && numThreadGroups.val == 4096 && numThreadGroups.base.visible
  {
    groupElemOffset := RegisterInt(c, 9 /* GroupElemOffset */, "Group Elem Offset", 1, 0, 16);
    threadElemOffset := RegisterInt(c, 10 /* ThreadElemOffset */, "Thread Elem Offset", 1, 0, 16);
    numThreadGroups := RegisterInt(c, 11 /* NumThreadGroups */, "Num Thread Groups", 4096,
        1, 65535);
  }

  /** Reading back from GPU memory, the upload path and the size of the background upload. */
  method RegisterUploadSettings(c: SettingsContainer) returns (readFromGPUMem: BoolSetting,
      uploadPath: EnumSetting, bgSize: IntSetting)
    requires c.initialized && RegisteredUpTo(c.groups, 12)
    modifies c
    ensures fresh(readFromGPUMem) && fresh(readFromGPUMem.base) && fresh(uploadPath) && fresh(uploadPath.base) && fresh(bgSize) && fresh(bgSize.base)
    ensures c.initialized && RegisteredUpTo(c.groups, 15)
    ensures readFromGPUMem.val == 0 && readFromGPUMem.base.visible
    ensures uploadPath.numValues == NUM_BUFFER_UPLOAD_PATHS && uploadPath.val == FastUploadCopyQueue.Index() && uploadPath.base.visible
    ensures bgSize.minVal == 0 && bgSize.maxVal == 256 && bgSize.val == 0 && bgSize.base.visible
  {
    readFromGPUMem := RegisterBool(c, 12 /* ReadFromGPUMem */, "Read From GPU Memory",
        "", 0);
    uploadPath := RegisterEnum(c, 13 /* BufferUploadPath */, "Buffer Upload Path",
        FastUploadCopyQueue.Index(), NUM_BUFFER_UPLOAD_PATHS,
        ["DIRECT Queue", "Upload COPY Queue", "Fast Upload COPY Queue"]);
    bgSize := RegisterInt(c, 14 /* BackgroundUploadSize */, "Background Upload Size (MB)",
        0, 0, 256);
  }

  /** The wait of the background upload and the hidden element count. */
  method RegisterBackgroundSettings(c: SettingsContainer) returns (bgWait: IntSetting, numElems: IntSetting)
    requires c.initialized && RegisteredUpTo(c.groups, 15)
    modifies c
    ensures fresh(bgWait) && fresh(bgWait.base) && fresh(numElems) && fresh(numElems.base)
    ensures c.initialized && RegisteredUpTo(c.groups, 17)
    ensures bgWait != numElems
    ensures bgWait.minVal == 0 && bgWait.maxVal == 100 && bgWait.val == 0 && bgWait.base.visible
    ensures numElems.minVal == I32_MIN && numElems.maxVal == I32_MAX && numElems.val == 0 && !numElems.base.visible
  {
    bgWait := RegisterInt(c, 15 /* BackgroundUploadWaitTime */, "Background Upload Size Wait Time (ms)", 0, 0, 100);
    numElems := RegisterHiddenInt(c, 16 /* NumInputBufferElems */, "Num Input Buffer Elems", 0,
        I32_MIN, I32_MAX);
  }

  /** The hidden bindless indices of the input and output buffers. */
  method RegisterIndexSettings(c: SettingsContainer) returns (inIdx: IntSetting, outIdx: IntSetting)
    requires c.initialized && RegisteredUpTo(c.groups, 17)
    modifies c
    ensures fresh(inIdx) && fresh(inIdx.base) && fresh(outIdx) && fresh(outIdx.base)
    ensures c.initialized && RegisteredUpTo(c.groups, 19)
    ensures inIdx != outIdx
    ensures inIdx.minVal == I32_MIN && inIdx.maxVal == I32_MAX && inIdx.val == -1 && !inIdx.base.visible
    ensures outIdx.minVal == I32_MIN && outIdx.maxVal == I32_MAX && outIdx.val == -1 && !outIdx.base.visible
  {
    inIdx := RegisterHiddenInt(c, 17 /* InputBufferIdx */, "Input Buffer Idx", -1, I32_MIN, I32_MAX);
    outIdx := RegisterHiddenInt(c, 18 /* OutputBufferIdx */, "Output Buffer Idx", -1, I32_MIN, I32_MAX);
  }

  /** The help texts of the "Debug" switches. */
  const VSYNC_HELP: string := "Enables or disables vertical sync during Present"
  const STABLE_POWER_HELP: string := "Enables the stable power state, which stabilizes GPU clocks for more consistent performance"

  /** The "Debug" group's switches. */
  method RegisterDebugSettings(c: SettingsContainer) returns (vsync: BoolSetting,
      stablePower: BoolSetting, driverThreads: BoolSetting)
    requires c.initialized && RegisteredUpTo(c.groups, 19)
    modifies c
    ensures fresh(vsync) && fresh(vsync.base) && fresh(stablePower) && fresh(stablePower.base) && fresh(driverThreads) && fresh(driverThreads.base)
    ensures c.initialized && RegisteredUpTo(c.groups, 22)
    ensures vsync != stablePower && vsync != driverThreads && stablePower != driverThreads
    ensures vsync.val == 1 && vsync.base.visible
    ensures stablePower.val == 1 && stablePower.base.visible
    ensures driverThreads.val == 0 && driverThreads.base.visible
  {
    vsync := RegisterBool(c, 19 /* EnableVSync */, "Enable VSync",
        VSYNC_HELP, 1);
    stablePower := RegisterBool(c, 20 /* StablePowerState */, "Stable Power State",
        STABLE_POWER_HELP, 1);
    driverThreads := RegisterBool(c, 21 /* EnableDriverBackgroundThreads */, "Enable Driver Background Threads",
        "", 0);
  }

  /** The settings of the heap, the input buffer and the dispatch, in source order. */
  method RegisterFirstSettings(c: SettingsContainer) returns (heapType: EnumSetting,
      cpuPageProperty: EnumSetting, memoryPool: EnumSetting, inputBufferType: EnumSetting,
      sizeMB: IntSetting, sizeKB: IntSetting, sizeBytes: IntSetting, elemsPerThread: IntSetting,
      threadElemStride: IntSetting, groupElemOffset: IntSetting, threadElemOffset: IntSetting,
      numThreadGroups: IntSetting)
    requires c.initialized && RegisteredUpTo(c.groups, 0)
    modifies c
    ensures fresh(heapType) && fresh(heapType.base) && fresh(cpuPageProperty) && fresh(cpuPageProperty.base) && fresh(memoryPool) && fresh(memoryPool.base) && fresh(inputBufferType) && fresh(inputBufferType.base) && fresh(sizeMB) && fresh(sizeMB.base) && fresh(sizeKB) && fresh(sizeKB.base) && fresh(sizeBytes) && fresh(sizeBytes.base) && fresh(elemsPerThread) && fresh(elemsPerThread.base) && fresh(threadElemStride) && fresh(threadElemStride.base) && fresh(groupElemOffset) && fresh(groupElemOffset.base) && fresh(threadElemOffset) && fresh(threadElemOffset.base) && fresh(numThreadGroups) && fresh(numThreadGroups.base)
    ensures c.initialized && RegisteredUpTo(c.groups, 12)
    ensures heapType != cpuPageProperty && heapType != memoryPool && heapType != inputBufferType && cpuPageProperty != memoryPool
    ensures cpuPageProperty != inputBufferType && memoryPool != inputBufferType && sizeMB != sizeKB && sizeMB != sizeBytes
    ensures sizeMB != elemsPerThread && sizeMB != threadElemStride && sizeMB != groupElemOffset && sizeMB != threadElemOffset
    ensures sizeMB != numThreadGroups && sizeKB != sizeBytes && sizeKB != elemsPerThread && sizeKB != threadElemStride
    ensures sizeKB != groupElemOffset && sizeKB != threadElemOffset && sizeKB != numThreadGroups && sizeBytes != elemsPerThread
    ensures sizeBytes != threadElemStride && sizeBytes != groupElemOffset && sizeBytes != threadElemOffset && sizeBytes != numThreadGroups
    ensures elemsPerThread != threadElemStride && elemsPerThread != groupElemOffset && elemsPerThread != threadElemOffset && elemsPerThread != numThreadGroups
    ensures threadElemStride != groupElemOffset && threadElemStride != threadElemOffset && threadElemStride != numThreadGroups && groupElemOffset != threadElemOffset
    ensures groupElemOffset != numThreadGroups && threadElemOffset != numThreadGroups
    ensures heapType.numValues == NUM_HEAP_TYPES && heapType.val == Upload.Index() && heapType.base.visible
    ensures cpuPageProperty.numValues == NUM_CPU_PAGE_PROPERTIES && cpuPageProperty.val == NotAvailable.Index() && !cpuPageProperty.base.visible
    ensures memoryPool.numValues == NUM_MEMORY_POOLS && memoryPool.val == L0.Index() && !memoryPool.base.visible
    ensures inputBufferType.numValues == NUM_BUFFER_TYPES && inputBufferType.val == Raw.Index() && inputBufferType.base.visible
    ensures sizeMB.minVal == 0 && sizeMB.maxVal == 256 && sizeMB.val == 16 && sizeMB.base.visible
    ensures sizeKB.minVal == 0 && sizeKB.maxVal == 1024 && sizeKB.val == 0 && sizeKB.base.visible
    ensures sizeBytes.minVal == 0 && sizeBytes.maxVal == 1024 && sizeBytes.val == 0 && sizeBytes.base.visible
    ensures elemsPerThread.minVal == 1 && elemsPerThread.maxVal == 64 && elemsPerThread.val == 1 && elemsPerThread.base.visible
    ensures threadElemStride.minVal == 1 && threadElemStride.maxVal == 64 && threadElemStride.val == 1 && threadElemStride.base.visible
    ensures groupElemOffset.minVal == 0 && groupElemOffset.maxVal == 16 && groupElemOffset.val == 1 && groupElemOffset.base.visible
    ensures threadElemOffset.minVal == 0 && threadElemOffset.maxVal == 16 && threadElemOffset.val == 1 && threadElemOffset.base.visible
    ensures numThreadGroups.minVal == 1 && numThreadGroups.maxVal == 65535 && numThreadGroups.val == 4096 && numThreadGroups.base.visible
  {
    heapType, cpuPageProperty, memoryPool := RegisterHeapSettings(c);
    inputBufferType, sizeMB, sizeKB := RegisterBufferSettings(c);
    sizeBytes, elemsPerThread, threadElemStride := RegisterThreadSettings(c);
    groupElemOffset, threadElemOffset, numThreadGroups := RegisterDispatchSettings(c);
  }

  /** The upload, background and index settings, then the "Debug" group's switches. */
  method RegisterLastSettings(c: SettingsContainer) returns (readFromGPUMem: BoolSetting,
      uploadPath: EnumSetting, bgSize: IntSetting, bgWait: IntSetting, numElems: IntSetting,
      inIdx: IntSetting, outIdx: IntSetting, vsync: BoolSetting, stablePower: BoolSetting,
      driverThreads: BoolSetting)
    requires c.initialized && RegisteredUpTo(c.groups, 12)
    modifies c
    ensures fresh(readFromGPUMem) && fresh(readFromGPUMem.base) && fresh(uploadPath) && fresh(uploadPath.base) && fresh(bgSize) && fresh(bgSize.base) && fresh(bgWait) && fresh(bgWait.base) && fresh(numElems) && fresh(numElems.base) && fresh(inIdx) && fresh(inIdx.base) && fresh(outIdx) && fresh(outIdx.base) && fresh(vsync) && fresh(vsync.base) && fresh(stablePower) && fresh(stablePower.base) && fresh(driverThreads) && fresh(driverThreads.base)
    ensures c.initialized && RegisteredUpTo(c.groups, 22)
    ensures readFromGPUMem != vsync && readFromGPUMem != stablePower && readFromGPUMem != driverThreads && bgSize != bgWait
    ensures bgSize != numElems && bgSize != inIdx && bgSize != outIdx && bgWait != numElems
    ensures bgWait != inIdx && bgWait != outIdx && numElems != inIdx && numElems != outIdx
    ensures inIdx != outIdx && vsync != stablePower && vsync != driverThreads && stablePower != driverThreads
    ensures uploadPath.base != numElems.base && uploadPath.base != inIdx.base && uploadPath.base != outIdx.base
    ensures uploadPath.base != vsync.base
    ensures readFromGPUMem.val == 0 && readFromGPUMem.base.visible
    ensures uploadPath.numValues == NUM_BUFFER_UPLOAD_PATHS && uploadPath.val == FastUploadCopyQueue.Index() && uploadPath.base.visible
    ensures bgSize.minVal == 0 && bgSize.maxVal == 256 && bgSize.val == 0 && bgSize.base.visible
    ensures bgWait.minVal == 0 && bgWait.maxVal == 100 && bgWait.val == 0 && bgWait.base.visible
    ensures numElems.minVal == I32_MIN && numElems.maxVal == I32_MAX && numElems.val == 0 && !numElems.base.visible
    ensures inIdx.minVal == I32_MIN && inIdx.maxVal == I32_MAX && inIdx.val == -1 && !inIdx.base.visible
    ensures outIdx.minVal == I32_MIN && outIdx.maxVal == I32_MAX && outIdx.val == -1 && !outIdx.base.visible
    ensures vsync.val == 1 && vsync.base.visible
    ensures stablePower.val == 1 && stablePower.base.visible
    ensures driverThreads.val == 0 && driverThreads.base.visible
  {
    readFromGPUMem, uploadPath, bgSize := RegisterUploadSettings(c);
    bgWait, numElems := RegisterBackgroundSettings(c);
    inIdx, outIdx := RegisterIndexSettings(c);
    vsync, stablePower, driverThreads := RegisterDebugSettings(c);
  }

  /** The container `Initialize` starts from: two expanded groups, "Test Config" then "Debug", and no settings yet. */
  method NewContainer() returns (c: SettingsContainer)
    ensures fresh(c)
    ensures c.initialized && RegisteredUpTo(c.groups, 0)
  {
    c := new SettingsContainer();
    c.Initialize(2);
    c.AddGroup(TEST_CONFIG, true);
    c.AddGroup(DEBUG, true);
  }

  /** The constant block of the application settings, as the shaders see it. */
  datatype AppSettingsCBuffer = AppSettingsCBuffer(HeapType: i32, InputBufferIdx: i32, OutputBufferIdx: i32)

  // ---------------------------------------------------------------------------------------
  // The settings of the application

  class AppSettings {
    const Settings: SettingsContainer
    const HeapType: EnumSetting
    const CPUPageProperty: EnumSetting
    const MemoryPool: EnumSetting
    const InputBufferType: EnumSetting
    const InputBufferSizeMB: IntSetting
    const InputBufferSizeKB: IntSetting
    const InputBufferSizeBytes: IntSetting
    const ElemsPerThread: IntSetting
    const ThreadElemStride: IntSetting
    const GroupElemOffset: IntSetting
    const ThreadElemOffset: IntSetting
    const NumThreadGroups: IntSetting
    const ReadFromGPUMem: BoolSetting
    const BufferUploadPath: EnumSetting
    const BackgroundUploadSize: IntSetting
    const BackgroundUploadWaitTime: IntSetting
    const NumInputBufferElems: IntSetting
    const InputBufferIdx: IntSetting
    const OutputBufferIdx: IntSetting
    const EnableVSync: BoolSetting
    const StablePowerState: BoolSetting
    const EnableDriverBackgroundThreads: BoolSetting


    /**
     * The static construction of the setting objects followed by `AppSettings::Initialize`:
     * the two groups, then every setting with its domain and default. No name is registered
     * twice, so none of the container's duplicate-name assertions can fire.
     */
    constructor ()
      ensures Settings.initialized && RegisteredUpTo(Settings.groups, |ALL_NAMES|)
      ensures UniqueNames(Settings.groups) && Distinct()
      ensures HeapType.numValues == NUM_HEAP_TYPES && HeapType.val == Upload.Index() && HeapType.base.visible
      ensures CPUPageProperty.numValues == NUM_CPU_PAGE_PROPERTIES && CPUPageProperty.val == NotAvailable.Index() && !CPUPageProperty.base.visible
      ensures MemoryPool.numValues == NUM_MEMORY_POOLS && MemoryPool.val == L0.Index() && !MemoryPool.base.visible
      ensures InputBufferType.numValues == NUM_BUFFER_TYPES && InputBufferType.val == Raw.Index() && InputBufferType.base.visible
      ensures InputBufferSizeMB.minVal == 0 && InputBufferSizeMB.maxVal == 256 && InputBufferSizeMB.val == 16 && InputBufferSizeMB.base.visible
      ensures InputBufferSizeKB.minVal == 0 && InputBufferSizeKB.maxVal == 1024 && InputBufferSizeKB.val == 0 && InputBufferSizeKB.base.visible
      ensures InputBufferSizeBytes.minVal == 0 && InputBufferSizeBytes.maxVal == 1024 && InputBufferSizeBytes.val == 0 && InputBufferSizeBytes.base.visible
      ensures ElemsPerThread.minVal == 1 && ElemsPerThread.maxVal == 64 && ElemsPerThread.val == 1 && ElemsPerThread.base.visible
      ensures ThreadElemStride.minVal == 1 && ThreadElemStride.maxVal == 64 && ThreadElemStride.val == 1 && ThreadElemStride.base.visible
      ensures GroupElemOffset.minVal == 0 && GroupElemOffset.maxVal == 16 && GroupElemOffset.val == 1 && GroupElemOffset.base.visible
      ensures ThreadElemOffset.minVal == 0 && ThreadElemOffset.maxVal == 16 && ThreadElemOffset.val == 1 && ThreadElemOffset.base.visible
      ensures NumThreadGroups.minVal == 1 && NumThreadGroups.maxVal == 65535 && NumThreadGroups.val == 4096 && NumThreadGroups.base.visible
      ensures ReadFromGPUMem.val == 0 && ReadFromGPUMem.base.visible
      ensures BufferUploadPath.numValues == NUM_BUFFER_UPLOAD_PATHS && BufferUploadPath.val == FastUploadCopyQueue.Index() && BufferUploadPath.base.visible
      ensures BackgroundUploadSize.minVal == 0 && BackgroundUploadSize.maxVal == 256 && BackgroundUploadSize.val == 0 && BackgroundUploadSize.base.visible
      ensures BackgroundUploadWaitTime.minVal == 0 && BackgroundUploadWaitTime.maxVal == 100 && BackgroundUploadWaitTime.val == 0 && BackgroundUploadWaitTime.base.visible
      ensures NumInputBufferElems.minVal == I32_MIN && NumInputBufferElems.maxVal == I32_MAX && NumInputBufferElems.val == 0 && !NumInputBufferElems.base.visible
      ensures InputBufferIdx.minVal == I32_MIN && InputBufferIdx.maxVal == I32_MAX && InputBufferIdx.val == -1 && !InputBufferIdx.base.visible
      ensures OutputBufferIdx.minVal == I32_MIN && OutputBufferIdx.maxVal == I32_MAX && OutputBufferIdx.val == -1 && !OutputBufferIdx.base.visible
      ensures EnableVSync.val == 1 && EnableVSync.base.visible
      ensures StablePowerState.val == 1 && StablePowerState.base.visible
      ensures EnableDriverBackgroundThreads.val == 0 && EnableDriverBackgroundThreads.base.visible
    {
      var c := NewContainer();
      var heapType, cpuPageProperty, memoryPool, inputBufferType, sizeMB, sizeKB, sizeBytes,
          elemsPerThread, threadElemStride, groupElemOffset, threadElemOffset,
          numThreadGroups := RegisterFirstSettings(c);
      var readFromGPUMem, uploadPath, bgSize, bgWait, numElems, inIdx, outIdx, vsync, stablePower,
          driverThreads := RegisterLastSettings(c);
      AllRegisteredUnique(c.groups);
      Settings := c;
      HeapType := heapType;
      CPUPageProperty := cpuPageProperty;
      MemoryPool := memoryPool;
      InputBufferType := inputBufferType;
      InputBufferSizeMB := sizeMB;
      InputBufferSizeKB := sizeKB;
      InputBufferSizeBytes := sizeBytes;
      ElemsPerThread := elemsPerThread;
      ThreadElemStride := threadElemStride;
      GroupElemOffset := groupElemOffset;
      ThreadElemOffset := threadElemOffset;
      NumThreadGroups := numThreadGroups;
      ReadFromGPUMem := readFromGPUMem;
      BufferUploadPath := uploadPath;
      BackgroundUploadSize := bgSize;
      BackgroundUploadWaitTime := bgWait;
      NumInputBufferElems := numElems;
      InputBufferIdx := inIdx;
      OutputBufferIdx := outIdx;
      EnableVSync := vsync;
      StablePowerState := stablePower;
      EnableDriverBackgroundThreads := driverThreads;
    }

    /** The enum settings are distinct objects. */
    ghost predicate EnumsDistinct()
    {
      HeapType != CPUPageProperty &&
      HeapType != MemoryPool &&
      HeapType != InputBufferType &&
      HeapType != BufferUploadPath &&
      CPUPageProperty != MemoryPool &&
      CPUPageProperty != InputBufferType &&
      CPUPageProperty != BufferUploadPath &&
      MemoryPool != InputBufferType &&
      MemoryPool != BufferUploadPath &&
      InputBufferType != BufferUploadPath
    }

    /** The integer settings the benchmark reads and writes are distinct objects. */
    ghost predicate IntsDistinct()
    {
      InputBufferSizeMB != InputBufferSizeKB &&
      InputBufferSizeMB != InputBufferSizeBytes &&
      InputBufferSizeMB != ElemsPerThread &&
      InputBufferSizeMB != ThreadElemStride &&
      InputBufferSizeMB != GroupElemOffset &&
      InputBufferSizeMB != ThreadElemOffset &&
      InputBufferSizeMB != NumThreadGroups &&
      InputBufferSizeKB != InputBufferSizeBytes &&
      InputBufferSizeKB != ElemsPerThread &&
      InputBufferSizeKB != ThreadElemStride &&
      InputBufferSizeKB != GroupElemOffset &&
      InputBufferSizeKB != ThreadElemOffset &&
      InputBufferSizeKB != NumThreadGroups &&
      InputBufferSizeBytes != ElemsPerThread &&
      InputBufferSizeBytes != ThreadElemStride &&
      InputBufferSizeBytes != GroupElemOffset &&
      InputBufferSizeBytes != ThreadElemOffset &&
      InputBufferSizeBytes != NumThreadGroups &&
      ElemsPerThread != ThreadElemStride &&
      ElemsPerThread != GroupElemOffset &&
      ElemsPerThread != ThreadElemOffset &&
      ElemsPerThread != NumThreadGroups &&
      ThreadElemStride != GroupElemOffset &&
      ThreadElemStride != ThreadElemOffset &&
      ThreadElemStride != NumThreadGroups &&
      GroupElemOffset != ThreadElemOffset &&
      GroupElemOffset != NumThreadGroups &&
      ThreadElemOffset != NumThreadGroups &&
      IndicesApart()
    }

    /** The three settings CreateBuffers writes are distinct from each other and from the other integer settings. */
    ghost predicate IndicesApart()
    {
      InputBufferSizeMB != NumInputBufferElems &&
      InputBufferSizeMB != InputBufferIdx &&
      InputBufferSizeMB != OutputBufferIdx &&
      InputBufferSizeKB != NumInputBufferElems &&
      InputBufferSizeKB != InputBufferIdx &&
      InputBufferSizeKB != OutputBufferIdx &&
      InputBufferSizeBytes != NumInputBufferElems &&
      InputBufferSizeBytes != InputBufferIdx &&
      InputBufferSizeBytes != OutputBufferIdx &&
      ElemsPerThread != NumInputBufferElems &&
      ElemsPerThread != InputBufferIdx &&
      ElemsPerThread != OutputBufferIdx &&
      ThreadElemStride != NumInputBufferElems &&
      ThreadElemStride != InputBufferIdx &&
      ThreadElemStride != OutputBufferIdx &&
      GroupElemOffset != NumInputBufferElems &&
      GroupElemOffset != InputBufferIdx &&
      GroupElemOffset != OutputBufferIdx &&
      ThreadElemOffset != NumInputBufferElems &&
      ThreadElemOffset != InputBufferIdx &&
      ThreadElemOffset != OutputBufferIdx &&
      NumThreadGroups != NumInputBufferElems &&
      NumThreadGroups != InputBufferIdx &&
      NumThreadGroups != OutputBufferIdx &&
      NumInputBufferElems != InputBufferIdx &&
      NumInputBufferElems != OutputBufferIdx &&
      InputBufferIdx != OutputBufferIdx
    }

    /** The remaining settings of each kind are distinct objects. */
    ghost predicate OthersDistinct()
    {
      BackgroundUploadSize != InputBufferSizeMB &&
      BackgroundUploadSize != InputBufferSizeKB &&
      BackgroundUploadSize != InputBufferSizeBytes &&
      BackgroundUploadSize != ElemsPerThread &&
      BackgroundUploadSize != ThreadElemStride &&
      BackgroundUploadSize != GroupElemOffset &&
      BackgroundUploadSize != ThreadElemOffset &&
      BackgroundUploadSize != NumThreadGroups &&
      BackgroundUploadSize != NumInputBufferElems &&
      BackgroundUploadSize != InputBufferIdx &&
      BackgroundUploadSize != OutputBufferIdx &&
      BackgroundUploadWaitTime != InputBufferSizeMB &&
      BackgroundUploadWaitTime != InputBufferSizeKB &&
      BackgroundUploadWaitTime != InputBufferSizeBytes &&
      BackgroundUploadWaitTime != ElemsPerThread &&
      BackgroundUploadWaitTime != ThreadElemStride &&
      BackgroundUploadWaitTime != GroupElemOffset &&
      BackgroundUploadWaitTime != ThreadElemOffset &&
      BackgroundUploadWaitTime != NumThreadGroups &&
      BackgroundUploadWaitTime != NumInputBufferElems &&
      BackgroundUploadWaitTime != InputBufferIdx &&
      BackgroundUploadWaitTime != OutputBufferIdx &&
      BackgroundUploadSize != BackgroundUploadWaitTime &&
      ReadFromGPUMem != EnableVSync &&
      ReadFromGPUMem != StablePowerState &&
      ReadFromGPUMem != EnableDriverBackgroundThreads &&
      EnableVSync != StablePowerState &&
      EnableVSync != EnableDriverBackgroundThreads &&
      StablePowerState != EnableDriverBackgroundThreads
    }

    /**
     * The common parts of the settings `CreateBuffers` writes are not those of the settings
     * whose flags are read after it.
     */
    ghost predicate WrittenBasesDistinct()
    {
      NumInputBufferElems.base != InputBufferSizeMB.base &&
      NumInputBufferElems.base != InputBufferSizeKB.base &&
      NumInputBufferElems.base != InputBufferSizeBytes.base &&
      NumInputBufferElems.base != ElemsPerThread.base &&
      NumInputBufferElems.base != ThreadElemStride.base &&
      NumInputBufferElems.base != GroupElemOffset.base &&
      NumInputBufferElems.base != ThreadElemOffset.base &&
      NumInputBufferElems.base != InputBufferType.base &&
      NumInputBufferElems.base != BufferUploadPath.base &&
      InputBufferIdx.base != InputBufferSizeMB.base &&
      InputBufferIdx.base != InputBufferSizeKB.base &&
      InputBufferIdx.base != InputBufferSizeBytes.base &&
      InputBufferIdx.base != ElemsPerThread.base &&
      InputBufferIdx.base != ThreadElemStride.base &&
      InputBufferIdx.base != GroupElemOffset.base &&
      InputBufferIdx.base != ThreadElemOffset.base &&
      InputBufferIdx.base != InputBufferType.base &&
      InputBufferIdx.base != BufferUploadPath.base &&
      OutputBufferIdx.base != InputBufferSizeMB.base &&
      OutputBufferIdx.base != InputBufferSizeKB.base &&
      OutputBufferIdx.base != InputBufferSizeBytes.base &&
      OutputBufferIdx.base != ElemsPerThread.base &&
      OutputBufferIdx.base != ThreadElemStride.base &&
      OutputBufferIdx.base != GroupElemOffset.base &&
      OutputBufferIdx.base != ThreadElemOffset.base &&
      OutputBufferIdx.base != InputBufferType.base &&
      OutputBufferIdx.base != BufferUploadPath.base
    }

    /**
     * The upload path's common part is not that of any setting a benchmark tick writes, so the
     * tick leaves its changed flag alone.
     */
    ghost predicate UploadPathBaseApart()
    {
      BufferUploadPath.base != HeapType.base &&
      BufferUploadPath.base != CPUPageProperty.base &&
      BufferUploadPath.base != MemoryPool.base &&
      BufferUploadPath.base != InputBufferType.base &&
      BufferUploadPath.base != NumThreadGroups.base &&
      BufferUploadPath.base != ElemsPerThread.base &&
      BufferUploadPath.base != ThreadElemStride.base &&
      BufferUploadPath.base != GroupElemOffset.base &&
      BufferUploadPath.base != ThreadElemOffset.base &&
      BufferUploadPath.base != InputBufferSizeMB.base &&
      BufferUploadPath.base != InputBufferSizeKB.base &&
      BufferUploadPath.base != InputBufferSizeBytes.base &&
      BufferUploadPath.base != EnableVSync.base
    }

    /** Settings of the same kind are distinct objects, and so are the common parts whose flags must be told apart. */
    ghost predicate Distinct()
    {
      EnumsDistinct() && IntsDistinct() && OthersDistinct() && WrittenBasesDistinct() && UploadPathBaseApart()
    }

    /** The setting objects (not their common parts). */
    function ValueObjects(): set<object>
    {
      {HeapType, CPUPageProperty, MemoryPool, InputBufferType, InputBufferSizeMB,
       InputBufferSizeKB, InputBufferSizeBytes, ElemsPerThread, ThreadElemStride, GroupElemOffset,
       ThreadElemOffset, NumThreadGroups, ReadFromGPUMem, BufferUploadPath, BackgroundUploadSize,
       BackgroundUploadWaitTime, NumInputBufferElems, InputBufferIdx, OutputBufferIdx, EnableVSync,
       StablePowerState, EnableDriverBackgroundThreads}
    }

    /** `UpdateCBuffer`: copies exactly the heap type and the two buffer indices. */
    method UpdateCBuffer() returns (cb: AppSettingsCBuffer)
      ensures cb.HeapType == AsSigned32(HeapType.val)
      ensures HeapType.val < NUM_HEAP_TYPES ==> cb.HeapType == HeapTypeOf(HeapType.val).Index()
      ensures cb.InputBufferIdx == InputBufferIdx.val && cb.OutputBufferIdx == OutputBufferIdx.val
    {
      cb := AppSettingsCBuffer(AsSigned32(HeapType.val), InputBufferIdx.val, OutputBufferIdx.val);
    }
  }
}
