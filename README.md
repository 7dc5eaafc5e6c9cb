# MemPoolTest in Dafny

A model of MemPoolTest, a D3D12 benchmark of GPU memory pools. It runs a compute kernel that reads
an input buffer placed in one of several heap types and memory pools. Around it, the model covers
the integer bookkeeping that MemPoolTest and its sample framework, SampleFramework12 v1.04, build
on:

- **The benchmark (`MemPoolTest`, `AppSettings`).**
  - Whether the input buffer is CPU-writable.
  - The filtered, nested enumeration of benchmark configurations.
  - The warm-up, measure and aggregate state machine.
  - The input-buffer size arithmetic.
  - The CSV report rows.
  - The two invalidation sets of `Update`: rebuild the buffers or recompile the kernel.
  - The registration of every setting with its group, domain and default.
- **Settings (`Settings`).** Integer, boolean and enum settings with clamping and a latched `changed` flag, and the container that groups them by name.
- **Graphics types (`GraphicsTypes`, `GraphicsBuffers`).**
  - The descriptor heap: a stack-style dead list of persistent indices, a per-frame bump allocator of temporary ones, and handle/index conversion.
  - The per-frame cycling of dynamic buffers.
  - The sizing helpers of raw and structured buffers, textures and feedback textures.
- **Uploads (`DX12Upload`, `UploadRingSpec`).**
  - The upload ring buffer: a byte ring with wrap padding, plus a 16-entry ring of pending submissions retired in order against fence values.
  - The copy queues, the fast uploader and the per-frame temporary-memory bump allocator.
- **Frame pacing (`DX12`).** The CPU and GPU frame counters, the per-slot deferred-release lists and deferred SRV creation. A deferred resource is released only once the GPU has finished the frame that deferred it.
- **Containers and utilities (`Containers`, `Utility`, `SF12Math`).**
  - `Array` and `List`.
  - `AlignTo`, `Split` and `GetIndex`.
  - `Min`/`Max`/`Clamp`/`Saturate`, `Swap` and the Fisher-Yates `Shuffle`.
  - The integer random generator and the integer vector types.
- **Smaller framework parts.**
  - `DX12Helpers`: the dispatch and barrier helpers and the temporary buffers.
  - `ShaderDebug`: the shader debug-print parser.
  - `Profiler`: the profiler registry and its sample ring.
  - `Geometry`, `Model`: index generation for procedural meshes and the mesh and material bookkeeping of models.
  - `PostProcessing`: the post-processing pool and pipeline-state cache.
  - `DXRHelper`: the DXR state-object builder.
  - `Sprites`: sprite batching.

Each source file is one Dafny module. Code that updates state in place is a class with
`modifies` clauses, or a method with loop invariants over an `array` or a sequence field. Code
that only computes is a function or a lemma.

Abstractions used throughout:

- **D3D12 objects are opaque handles.** Resources, heaps, pipeline states, command lists, descriptor handles and texture pointers are numbers, with 0 (or `None`) as null.
- **Device answers are inputs.** The device's answers are parameters: which files exist, the timestamp frequency, the bits per pixel of a format. So are a fence's completed value and the pipeline state the device would create.
- **Commands as sequences.** A command list is the sequence of the commands the model cares about: barrier groups, timestamp queries, instanced draws.
- **Fixed-width integers.** C++ fixed-width integers are ranges of `int`. Where the source's `uint32` or `uint64` arithmetic wraps, or a cast truncates, the wrap is written out with `Wrap32`, `Wrap16` and `% 2^32`. Elsewhere the requires clauses rule overflow out.
- **Asserts.** An `Assert_` of the source is a `requires` of the member that holds it. A null return or a failure is an `Option` or a `Result`.

## Model

| member | source | states |
|---|---|---|
| AppSettings.HeapTypes.Index | MemPoolTest/AppSettings.h:9-17 | the enumerator's value is below `NumValues` |
| AppSettings.CPUPageProperties.Index | MemPoolTest/AppSettings.h:25-32 | the enumerator's value is below `NumValues` |
| AppSettings.MemoryPools.Index | MemPoolTest/AppSettings.h:40-46 | the enumerator's value is below `NumValues` |
| AppSettings.BufferTypes.Index | MemPoolTest/AppSettings.h:54-62 | the enumerator's value is below `NumValues` |
| AppSettings.BufferUploadPaths.Index | MemPoolTest/AppSettings.h:70-77 | the enumerator's value is below `NumValues` |
| AppSettings.ValuesTablesInOrder | MemPoolTest/AppSettings.cpp:15-77 | each values table has `NumValues` entries and entry `i` is the enumerator whose value is `i` |
| AppSettings.HeapTypeOf | SampleFramework12/v1.04/Settings.h:301 | the typed enum setting's conversion yields the enumerator whose value is the stored index |
| AppSettings.CPUPagePropertyOf | SampleFramework12/v1.04/Settings.h:301 | as `HeapTypeOf`, for the page property |
| AppSettings.MemoryPoolOf | SampleFramework12/v1.04/Settings.h:301 | as `HeapTypeOf`, for the memory pool |
| AppSettings.BufferTypeOf | SampleFramework12/v1.04/Settings.h:301 | as `HeapTypeOf`, for the buffer type |
| AppSettings.EnumIndexRoundTrip | SampleFramework12/v1.04/Settings.h:301-310 | converting an enumerator to its index (`SetValue`) and back (`operator T`) is the identity |
| AppSettings.AllNamesDistinct | MemPoolTest/AppSettings.cpp:118-187 | the 22 setting names registered by `Initialize` are pairwise distinct |
| AppSettings.GroupIndices | MemPoolTest/AppSettings.cpp:114-116 | after the two `AddGroup` calls "Test Config" is group 0 and "Debug" group 1 |
| AppSettings.LaidIsNew | SampleFramework12/v1.04/Settings.cpp:940-958 | with distinct names each registration passes the container's duplicate-name assertion |
| AppSettings.LaidUnique | SampleFramework12/v1.04/Settings.cpp:940-958 | once all distinct names are registered, no name appears twice in the container |
| AppSettings.AllRegisteredUnique | MemPoolTest/AppSettings.cpp:118-187 | after `Initialize`'s registrations no name is registered twice |
| AppSettings.Register | SampleFramework12/v1.04/Settings.cpp:940-958 | the `p`-th registration appends its entry to its group and leaves the first `p + 1` names laid out in order |
| AppSettings.RegisterInt | SampleFramework12/v1.04/Settings.cpp:237-248 | a fresh integer setting with its value, minimum and maximum, visible, unchanged, registered in its group |
| AppSettings.RegisterBool | SampleFramework12/v1.04/Settings.cpp:301-308 | a fresh boolean setting with the normalised initial value, registered in its group |
| AppSettings.RegisterEnum | SampleFramework12/v1.04/Settings.cpp:346-358 | a fresh enum setting with its value, value count, clamp count and labels, registered in its group |
| AppSettings.RegisterHiddenEnum | MemPoolTest/AppSettings.cpp:121-127 | as `RegisterEnum`, and the setting starts hidden |
| AppSettings.RegisterHiddenInt | MemPoolTest/AppSettings.cpp:168-178 | as `RegisterInt`, and the setting starts hidden |
| AppSettings.RegisterHeapSettings | MemPoolTest/AppSettings.cpp:118-127 | `HeapType` (default Upload, visible), `CPUPageProperty` and `MemoryPool` (hidden) with their domains, registered first |
| AppSettings.RegisterBufferSettings | MemPoolTest/AppSettings.cpp:129-136 | `InputBufferType` (default Raw), `InputBufferSizeMB` and `InputBufferSizeKB` with their ranges and defaults |
| AppSettings.RegisterThreadSettings | MemPoolTest/AppSettings.cpp:138-145 | `InputBufferSizeBytes` in [0, 1024], `ElemsPerThread` and `ThreadElemStride` with their ranges and defaults |
| AppSettings.RegisterDispatchSettings | MemPoolTest/AppSettings.cpp:147-154 | `GroupElemOffset` in [0, 16] default 1, `ThreadElemOffset` and `NumThreadGroups` with their ranges and defaults |
| AppSettings.RegisterUploadSettings | MemPoolTest/AppSettings.cpp:156-163 | `ReadFromGPUMem` off, `BufferUploadPath` default FastUploadCopyQueue, `BackgroundUploadSize` with its range |
| AppSettings.RegisterBackgroundSettings | MemPoolTest/AppSettings.cpp:165-170 | `BackgroundUploadWaitTime` in [0, 100] and the hidden `NumInputBufferElems` |
| AppSettings.RegisterIndexSettings | MemPoolTest/AppSettings.cpp:172-178 | the hidden `InputBufferIdx` and `OutputBufferIdx`, full int32 range, default -1 |
| AppSettings.RegisterDebugSettings | MemPoolTest/AppSettings.cpp:180-187 | `EnableVSync` on, `StablePowerState` on, `EnableDriverBackgroundThreads` off, in the "Debug" group |
| AppSettings.RegisterFirstSettings | MemPoolTest/AppSettings.cpp:118-154 | the first twelve registrations in source order, each setting a distinct object |
| AppSettings.RegisterLastSettings | MemPoolTest/AppSettings.cpp:156-187 | the last ten registrations in source order, each setting a distinct object |
| AppSettings.NewContainer | MemPoolTest/AppSettings.cpp:112-116 | the container `Initialize` starts from: groups "Test Config" then "Debug", both empty |
| AppSettings.AppSettings.constructor | MemPoolTest/AppSettings.cpp:109-194 | every setting registered in order with its domain and default, no name twice, setting objects distinct |
| AppSettings.AppSettings.UpdateCBuffer | MemPoolTest/AppSettings.cpp:202-210 | the constant buffer gets exactly the heap type (as int32) and the two bindless buffer indices |
| Settings.Setting.constructor | SampleFramework12/v1.04/Settings.h:79-81 | a new setting is not changed, not initialized and visible |
| Settings.Setting.Initialize | SampleFramework12/v1.04/Settings.cpp:32-44 | records kind, name and group, clears the changed flag and marks the setting initialized |
| Settings.Setting.SetHidden | SampleFramework12/v1.04/Settings.cpp:57-60 | visibility becomes the negation of the argument; the changed flag is left latched |
| Settings.Setting.SetVisible | SampleFramework12/v1.04/Settings.cpp:62-65 | visibility becomes the argument; nothing else changes |
| Settings.Setting.SetLabel | SampleFramework12/v1.04/Settings.cpp:67-71 | only the label changes |
| Settings.IntSetting.constructor | SampleFramework12/v1.04/Settings.cpp:233 | value, previous value, minimum and maximum all 0 |
| Settings.IntSetting.Initialize | SampleFramework12/v1.04/Settings.cpp:237-248 | requires minVal <= initialVal <= maxVal (the source's assertion); stores the range and the value, nothing reported changed |
| Settings.IntSetting.SetValue | SampleFramework12/v1.04/Settings.cpp:271-276 | stores the value clamped into [min, max]; changed exactly when it differs from the previously stored value |
| Settings.IntSetting.Update | SampleFramework12/v1.04/Settings.cpp:250-264 | a bounded range keeps the slider's value, an unbounded one clamps the text box's value; changed exactly when the value moved |
| Settings.IntSetting.SetMinValue | SampleFramework12/v1.04/Settings.cpp:283-287 | the minimum becomes the argument and the value is raised to it when below |
| Settings.IntSetting.SetMaxValue | SampleFramework12/v1.04/Settings.cpp:289-293 | the maximum becomes the argument and the value is lowered to it when above |
| Settings.IntSetting.SerializeRead | SampleFramework12/v1.04/Settings.h:208-216 | a deserialized value is clamped into [min, max]; the changed flag is untouched |
| Settings.RepeatedSetValueIsUnchanged | SampleFramework12/v1.04/Settings.cpp:271-276 | setting the same value twice reports no change the second time |
| Settings.Normalised | SampleFramework12/v1.04/Settings.cpp:304 | a `bool32` is stored as 0 or 1, and 1 exactly when it is non-zero |
| Settings.BoolSetting.constructor | SampleFramework12/v1.04/Settings.cpp:297 | value and previous value 0 |
| Settings.BoolSetting.Initialize | SampleFramework12/v1.04/Settings.cpp:301-308 | stores the normalised initial value as value and previous value; registers kind Bool |
| Settings.BoolSetting.Update | SampleFramework12/v1.04/Settings.cpp:310-321 | the value is the checkbox state; changed exactly when it differs from the previous value |
| Settings.BoolSetting.SetValue | SampleFramework12/v1.04/Settings.cpp:328-333 | stores the normalised value; changed exactly when it differs from the previous value |
| Settings.BoolSetting.SerializeRead | SampleFramework12/v1.04/Settings.h:239-245 | a deserialized value is stored as read, previous value untouched |
| Settings.EnumBound | SampleFramework12/v1.04/Settings.cpp:375-380 | `Min(v, numValues - 1)` in uint32: below numValues when numValues > 0, unchanged values already in range, and no bound when numValues is 0 (the subtraction wraps) |
| Settings.EnumSetting.constructor | SampleFramework12/v1.04/Settings.h:252-256 | value, previous value and both counts 0, no labels |
| Settings.EnumSetting.Initialize | SampleFramework12/v1.04/Settings.cpp:346-358 | the initial value is bounded with the count held before the call; then both counts and the labels are stored |
| Settings.EnumSetting.Update | SampleFramework12/v1.04/Settings.cpp:360-368 | the value is the combo box's selection; changed exactly when it moved |
| Settings.EnumSetting.SetValue | SampleFramework12/v1.04/Settings.cpp:375-380 | stores the value bounded by numValues (not numValuesClamp); changed exactly when it moved |
| Settings.EnumSetting.ClampNumValues | SampleFramework12/v1.04/Settings.cpp:382-389 | requires 0 < num <= numValues; the clamp count becomes num and the value is lowered below it, changed flag untouched |
| Settings.EnumSetting.SerializeRead | SampleFramework12/v1.04/Settings.h:274-281 | a deserialized value is bounded by numValues, ignoring the clamp count |
| Settings.SetValueIgnoresClampLimit | SampleFramework12/v1.04/Settings.cpp:375-389 | after clamping a 4-value enum to 2 values, `SetValue(3)` still stores 3 |
| Settings.FindIn | SampleFramework12/v1.04/Settings.cpp:918-923 | the first entry of a group with the name, and none exactly when no entry carries it |
| Settings.Find | SampleFramework12/v1.04/Settings.cpp:913-927 | a found entry carries the name searched for |
| Settings.FindNoneIff | SampleFramework12/v1.04/Settings.cpp:913-927 | the search fails exactly when no group holds an entry of that name |
| Settings.GroupIndex | SampleFramework12/v1.04/Settings.cpp:947-955 | the first group with the name, or the group count when there is none |
| Settings.AddedTo | SampleFramework12/v1.04/Settings.cpp:940-958 | adding a setting keeps the number of groups |
| Settings.AddedToEntries | SampleFramework12/v1.04/Settings.cpp:940-958 | only the target group changes, by having the entry appended; names and expansion flags are kept |
| Settings.Names | SampleFramework12/v1.04/Settings.cpp:918-923 | the names of a group's entries, in order |
| Settings.TotalEntries | SampleFramework12/v1.04/Settings.cpp:940-958 | no groups hold no entries |
| Settings.TotalEntriesAdded | SampleFramework12/v1.04/Settings.cpp:940-958 | adding a setting adds exactly one entry |
| Settings.EntryNamesCount | SampleFramework12/v1.04/Settings.cpp:944 | a group has at most as many names as entries, and as many only when its names are distinct |
| Settings.RegisteredNamesCount | SampleFramework12/v1.04/Settings.cpp:944 | the container has at most as many names as entries, and as many only when no name is registered twice |
| Settings.DisjointEntriesUnique | SampleFramework12/v1.04/Settings.cpp:944 | distinct names within one group, disjoint from the other groups' distinct names, stay distinct |
| Settings.RegisteredNamesHold | SampleFramework12/v1.04/Settings.cpp:913-927 | every entry's name is among the registered names |
| Settings.FindNoneWhenUnregistered | SampleFramework12/v1.04/Settings.cpp:913-927 | a name never registered is not found |
| Settings.RegisteredNamesAdded | SampleFramework12/v1.04/Settings.cpp:940-958 | adding a setting registers exactly its one name |
| Settings.VisibleSettings | SampleFramework12/v1.04/Settings.cpp:902-907 | at most one setting per entry |
| Settings.VisibleSettingsSound | SampleFramework12/v1.04/Settings.cpp:902-907 | only visible settings are updated, each one belonging to an entry |
| Settings.SettingsContainer.constructor | SampleFramework12/v1.04/Settings.h:462-464 | no groups, not initialized, window open |
| Settings.SettingsContainer.Initialize | SampleFramework12/v1.04/Settings.cpp:860-864 | the container is initialized with no groups |
| Settings.SettingsContainer.AddGroup | SampleFramework12/v1.04/Settings.cpp:929-937 | requires the name to be new (the source's assertion); appends one empty group; names and entry count unchanged |
| Settings.SettingsContainer.FindSetting | SampleFramework12/v1.04/Settings.cpp:913-927 | the nested linear search finds a setting exactly when `Find` does, and the same one |
| Settings.SettingsContainer.AddSetting | SampleFramework12/v1.04/Settings.cpp:940-958 | requires initialization, a new name and an existing group; the groups become `AddedTo`, names stay unique and the entry is then found |
| Settings.SettingsContainer.Update | SampleFramework12/v1.04/Settings.cpp:866-911 | a closed window only draws the button, which reopens it; an open one updates exactly the visible settings of open groups, in order |
| Settings.OpenGroupEntries | SampleFramework12/v1.04/Settings.cpp:896-908 | the outer loop collects the entries of the groups whose header is open, in order |
| Settings.AppendVisible | SampleFramework12/v1.04/Settings.cpp:902-907 | the inner loop appends the visible settings of one group, in order |
| Settings.AddedKeepsUnique | SampleFramework12/v1.04/Settings.cpp:940-958 | appending a new name to an existing group keeps every name unique |
| Settings.FindSomeUnique | SampleFramework12/v1.04/Settings.cpp:913-927 | with unique names the search returns the one entry carrying the name |
| MemPoolTest.CPUWritableOverloadsAgree | MemPoolTest/MemPoolTest.cpp:39-59 | the settings overload and the configuration overload agree, and the buffer is CPU-writable exactly for upload and GPU-upload heaps and custom heaps with a CPU page property |
| MemPoolTest.InputBufferAlignment | MemPoolTest/MemPoolTest.cpp:317 | the alignment is positive (256 for a constant buffer, else 1) |
| MemPoolTest.RequestedSize | MemPoolTest/MemPoolTest.cpp:319 | the byte count the three size settings ask for, `MB * 2^20 + KB * 1024 + Bytes`, before the clamp; `InputBufferSize` and `AppliedSizeRoundTrip` state its bounds and its round trip with `SizeParts` |
| MemPoolTest.MaxInputBufferSize | MemPoolTest/MemPoolTest.cpp:318 | the maximum (64 KiB for a constant buffer, else 1 GiB) is a multiple of the alignment |
| MemPoolTest.InputBufferSize | MemPoolTest/MemPoolTest.cpp:319 | the size is in [1, max], aligned, at least the clamped request, and exactly the clamped request for non-constant buffers |
| MemPoolTest.InputBufferSizeIsLeast | MemPoolTest/MemPoolTest.cpp:319 | no aligned value at least the clamped request is smaller than the size |
| MemPoolTest.InputHeapSize | MemPoolTest/MemPoolTest.cpp:321 | the heap holds one copy per frame in flight and is the least 64 KiB multiple that does |
| MemPoolTest.InputBufferViews | MemPoolTest/MemPoolTest.cpp:399-442 | a constant buffer gets no view; others get one per frame in flight, raw views counting 4-byte and the others 16-byte elements, offset per copy only when CPU-writable |
| MemPoolTest.InputBufferViewsInHeap | MemPoolTest/MemPoolTest.cpp:399-442 | view i of a CPU-writable buffer covers exactly the i-th copy and lies inside the heap |
| MemPoolTest.With | MemPoolTest/MemPoolTest.cpp:600-609 | setting one numeric field of a configuration keeps its heap, page, pool and buffer type |
| MemPoolTest.SingleValueLevel | MemPoolTest/MemPoolTest.cpp:586-612 | a loop over a one-entry table that skips nothing runs its body once |
| MemPoolTest.InnerLevels | MemPoolTest/MemPoolTest.cpp:591-612 | the four innermost loops yield the one configuration with 1 element per thread, stride 1 and both offsets 1 |
| MemPoolTest.ShapeProduct | MemPoolTest/MemPoolTest.cpp:582-615 | below one pool the sweep is one thread-group count and the four buffer sizes in table order |
| MemPoolTest.BuiltInHeapConfigs | MemPoolTest/MemPoolTest.cpp:566-584 | below a built-in heap type only NotAvailable and L0 survive the filters |
| MemPoolTest.EnumerationIs | MemPoolTest/MemPoolTest.cpp:557-620 | the sweep is the four sizes on an upload heap, on a default heap and, when the device has one, on a GPU upload heap; never a custom heap |
| MemPoolTest.EnumerationLength | MemPoolTest/MemPoolTest.cpp:557-623 | 12 configurations with GPU upload heaps, else 8 |
| MemPoolTest.EnumerationAt | MemPoolTest/MemPoolTest.cpp:557-620 | configuration i is kept heap type i / 4 with size (i % 4 + 1) * 32 MiB |
| MemPoolTest.EnumerationFiltered | MemPoolTest/MemPoolTest.cpp:557-620 | every configuration passes the filters: no custom heap, GPU upload only when supported, built-in heaps with NotAvailable and L0, a raw buffer, sizes from the table |
| MemPoolTest.EnumerationOrdered | MemPoolTest/MemPoolTest.cpp:557-620 | heap types appear in table order and sizes ascend within a heap type |
| MemPoolTest.SizeParts | MemPoolTest/MemPoolTest.cpp:846-848 | the MiB, KiB and byte parts recompose the size and the last two are below 1024 |
| MemPoolTest.AppliedSizeRoundTrip | MemPoolTest/MemPoolTest.cpp:846-852 | for sizes up to 256 MiB the parts survive the size settings' clamps and CreateBuffers recomputes the configuration's size |
| MemPoolTest.UniqueBytesRead | MemPoolTest/MemPoolTest.cpp:906-907 | the unique bytes never exceed the buffer size |
| MemPoolTest.NumTotalThreads | MemPoolTest/MemPoolTest.cpp:904 | the CSV's `Total Num Threads`: 256 threads per group times the group count, wrapped to uint32 as the source's product is |
| MemPoolTest.BytesRead | MemPoolTest/MemPoolTest.cpp:905 | the CSV's `Total Bytes Read`: 16 bytes per element per thread, in uint64; `BytesReadExact` proves it is ElemsPerThread * 16 * 256 * NumThreadGroups when nothing wraps |
| MemPoolTest.BytesReadExact | MemPoolTest/MemPoolTest.cpp:904-907 | without wrap-around the bytes read are ElemsPerThread * 16 * 256 * NumThreadGroups and the unique bytes never exceed them |
| MemPoolTest.ReportRows | MemPoolTest/MemPoolTest.cpp:899-933 | one row per configuration, in order, each with its configuration's derived columns and result |
| MemPoolTest.SumOfEqual | MemPoolTest/MemPoolTest.cpp:879-884 | summing n equal samples gives n times the sample |
| MemPoolTest.Average | MemPoolTest/MemPoolTest.cpp:876-888 | a configuration's result: each of the three timings summed over the 64 measured samples and divided by 64; `AverageOfEqual` and `AverageSamples` state what it computes |
| MemPoolTest.AverageOfEqual | MemPoolTest/MemPoolTest.cpp:879-888 | 64 equal samples average to that sample |
| MemPoolTest.AverageSamples | MemPoolTest/MemPoolTest.cpp:879-888 | the averaging loop computes the mean of the 64 samples |
| MemPoolTest.BuildReport | MemPoolTest/MemPoolTest.cpp:899-933 | the report loop produces exactly `ReportRows` |
| MemPoolTest.ApplyConfigEnums | MemPoolTest/MemPoolTest.cpp:836-839 | the four enum settings hold the configuration's enumerators and stay in their domains |
| MemPoolTest.ApplyConfigShape | MemPoolTest/MemPoolTest.cpp:840-844 | the dispatch settings hold the configuration's fields, converted to int32 and clamped |
| MemPoolTest.ApplyConfigSize | MemPoolTest/MemPoolTest.cpp:846-852 | the three size settings hold the size's MiB, KiB and byte parts, clamped |
| MemPoolTest.ApplyConfigInts | MemPoolTest/MemPoolTest.cpp:840-852 | the dispatch shape and then the size are applied; the other int settings keep their ranges |
| MemPoolTest.ApplyConfigFields | MemPoolTest/MemPoolTest.cpp:836-852 | every field of the configuration is written to its setting |
| MemPoolTest.ApplyConfig | MemPoolTest/MemPoolTest.cpp:833-858 | every field applied and VSync switched off; settings stay in their registered domains |
| MemPoolTest.AppendProduct | MemPoolTest/MemPoolTest.cpp:586-612 | the six innermost loops append exactly `Product` of the partial configuration |
| MemPoolTest.AppendPools | MemPoolTest/MemPoolTest.cpp:572-615 | the pool loop appends exactly the configurations of the kept pools |
| MemPoolTest.EnumerateConfigs | MemPoolTest/MemPoolTest.cpp:557-620 | the heap-type and page-property loops produce exactly `Enumeration` |
| MemPoolTest.FindChanged | MemPoolTest/MemPoolTest.cpp:243-250 | the loop over an invalidation list finds a change exactly when some listed setting reports one |
| MemPoolTest.SharedSettingTriggersBoth | MemPoolTest/MemPoolTest.cpp:229-262 | a change to a setting in both lists triggers both the rebuild and the recompile |
| MemPoolTest.AnyChangedNames | MemPoolTest/MemPoolTest.cpp:243-271 | a list triggers exactly when one of its listed settings changed |
| MemPoolTest.ListFlags | MemPoolTest/MemPoolTest.cpp:229-280 | each list triggers exactly when one of its flags is set; the flush follows the upload path's flag |
| MemPoolTest.InvalidationListsComplete | MemPoolTest/MemPoolTest.cpp:229-262 | the rebuild list names exactly what CreateBuffers reads and the recompile list exactly what CompileComputeJob reads |
| MemPoolTest.SelectedBufferType | MemPoolTest/MemPoolTest.cpp:476-479 | the four buffer-type defines select one type exactly when exactly one is set |
| MemPoolTest.OutputBufferIdxAsWrittenIsStale | MemPoolTest/MemPoolTest.cpp:305-309 | as written the shaders receive -1 for the output buffer, never its UAV |
| MemPoolTest.StoredIndex | MemPoolTest/MemPoolTest.cpp:444-446 | a full-range int setting stores a descriptor index below 2^31 unchanged |
| MemPoolTest.CurrentOptions | MemPoolTest/MemPoolTest.cpp:469-480 | the compile options select exactly the buffer type of the setting, and none for an out-of-range value |
| MemPoolTest.MemPoolTest.constructor | MemPoolTest/MemPoolTest.h:50-81 | no benchmark running (config index UINT32_MAX), no configurations, samples or results, no buffers |
| MemPoolTest.MemPoolTest.RunBenchmark | MemPoolTest/MemPoolTest.cpp:808-815 | pressed while idle, the benchmark restarts at configuration 0 with the frame counter at the total; otherwise nothing changes |
| MemPoolTest.MemPoolTest.ApplyNextConfig | MemPoolTest/MemPoolTest.cpp:831-859 | the configuration's settings are applied and the frame counter restarts |
| MemPoolTest.MemPoolTest.RestartMeasurement | MemPoolTest/MemPoolTest.cpp:857-858 | the frame counter restarts and no sample is recorded |
| MemPoolTest.MemPoolTest.RecordFrame | MemPoolTest/MemPoolTest.cpp:861-937 | past the warm-up the frame's timings go to its slot; on the last frame the result is the average; after the last configuration the report is written |
| MemPoolTest.MemPoolTest.RecordSample | MemPoolTest/MemPoolTest.cpp:861-872 | past the 8 warm-up frames the timings go to slot frame - 8; before it nothing is recorded |
| MemPoolTest.MemPoolTest.FinishConfig | MemPoolTest/MemPoolTest.cpp:874-890 | the configuration's result is the average of its samples and the configuration index advances |
| MemPoolTest.MemPoolTest.WriteReport | MemPoolTest/MemPoolTest.cpp:892-936 | one CSV report with a row per configuration and its result |
| MemPoolTest.MemPoolTest.TickBenchmark | MemPoolTest/MemPoolTest.cpp:827-937 | idle: nothing; a due configuration is applied and the counter restarts with no samples; otherwise the frame counts, a frame past the warm-up appends its sample to the measured samples and stores it in slot frame - 8, frames before the last keep the results and the configuration index, and the last frame stores the average of exactly 64 measured samples and moves to the next configuration; after the last configuration the report is written; the benchmark invariant is kept, a tick that applies nothing leaves every changed flag as it was, and an applied configuration keeps at least one input element |
| MemPoolTest.MemPoolTest.ComputeBuffers | MemPoolTest/MemPoolTest.cpp:305-467 | requires the settings to give at least one input element (the raw input buffer's `Assert_(init.NumElements > 0)`); after a flush the buffers, views and sizes are those derived from the settings, with the new descriptor indices and a non-zero element count |
| MemPoolTest.InputElementsIff | MemPoolTest/MemPoolTest.cpp:317-320 | the derived size holds a 16-byte element exactly when the buffer is a constant buffer or at least 16 bytes are requested (both directions) |
| MemPoolTest.AppliedSizeNonEmpty | MemPoolTest/MemPoolTest.cpp:846-852 | a configuration size of 16 bytes to 256 MiB, split over the size settings, gives the input buffer elements |
| MemPoolTest.MemPoolTest.StoreBufferIndices | MemPoolTest/MemPoolTest.cpp:444-446 | the SRV, the output UAV and the element count are stored in the three hidden settings |
| MemPoolTest.MemPoolTest.CreateBuffers | MemPoolTest/MemPoolTest.cpp:305-467 | corrected (as written: `MemPoolTest.OutputBufferIdxAsWrittenIsStale`, which stores the freed UAV, -1): requires at least one input element, as `RawBuffer::Initialize` asserts; the buffers match the settings and the shaders receive the input SRV, the new output UAV and the element count |
| MemPoolTest.MemPoolTest.CompileComputeJob | MemPoolTest/MemPoolTest.cpp:469-480 | the job's defines are the current settings' values |
| MemPoolTest.MemPoolTest.ShowCustomHeapSettings | MemPoolTest/MemPoolTest.cpp:221-223 | page property and pool are visible exactly for a custom heap; no changed flag moves |
| MemPoolTest.MemPoolTest.ClampPageProperty | MemPoolTest/MemPoolTest.cpp:225-228 | for L1 on a discrete GPU only NotAvailable is offered and the page property is lowered to it; otherwise all three page properties are offered and the value is kept |
| MemPoolTest.MemPoolTest.UpdateVisibility | MemPoolTest/MemPoolTest.cpp:221-228 | visibility and the page-property clamp keep the settings valid and change no changed flag |
| MemPoolTest.MemPoolTest.RebuildIfChanged | MemPoolTest/MemPoolTest.cpp:230-250 | requires at least one input element; buffers are rebuilt once exactly when a rebuild-list flag is set |
| MemPoolTest.MemPoolTest.RecompileIfChanged | MemPoolTest/MemPoolTest.cpp:252-273 | the job is recompiled once exactly when a recompile-list flag is set |
| MemPoolTest.MemPoolTest.FlushIfUploadPathChanged | MemPoolTest/MemPoolTest.cpp:275-281 | the GPU is flushed exactly when the upload path changed |
| MemPoolTest.MemPoolTest.RecompileAndFlush | MemPoolTest/MemPoolTest.cpp:252-281 | the recompile list, then the upload-path flush |
| MemPoolTest.MemPoolTest.RebuildAndRecompile | MemPoolTest/MemPoolTest.cpp:230-281 | rebuild, recompile and flush in source order, each exactly when its list changed; a recompile sees the new element count |
| MemPoolTest.MemPoolTest.UpdateSettings | MemPoolTest/MemPoolTest.cpp:220-281 | visibility and clamp, then rebuild and recompile each exactly once when their list changed |
| MemPoolTest.MemPoolTest.SyncDeviceState | MemPoolTest/MemPoolTest.cpp:206-218 | the stable power state and driver background threads follow their settings |
| MemPoolTest.MemPoolTest.TickWithVSync | MemPoolTest/MemPoolTest.cpp:201-204 | VSync follows its setting as read before the benchmark's tick; the benchmark state moves as one tick does (`BenchmarkTicked`, with the frame's sample as read before the tick: its slot and the measured samples, results and configuration index kept before the last frame, and the average of 64 samples stored on it), a due configuration is applied, and with none due every changed flag and the upload path's flag are as before |
| MemPoolTest.MemPoolTest.SyncAndUpdateSettings | MemPoolTest/MemPoolTest.cpp:206-281 | the device state follows its settings; the buffers are rebuilt exactly when a rebuild-list setting changed and the job recompiled exactly when a recompile-list setting changed, with the counters and flushes of `ListsApplied` and nothing else changed |
| MemPoolTest.MemPoolTest.Update | MemPoolTest/MemPoolTest.cpp:197-282 | VSync, benchmark tick, device state and invalidations in source order: the benchmark moves as one tick does (`BenchmarkTicked` with the frame's sample), the resources as `ListsApplied` says, and on a frame with no configuration due each list fires exactly when one of its settings had changed; the benchmark, settings and element-count invariants are kept |
| MemPoolTest.InputNonEmpty | SampleFramework12/v1.04/Graphics/GraphicsTypes.cpp:810 | the settings give the raw input buffer at least one element, the `Assert_(init.NumElements > 0)` of `RawBuffer::Initialize`: a constant buffer, or a request of at least 16 bytes |
| MemPoolTest.MemPoolTest.ConfigSizesValid | MemPoolTest/MemPoolTest.cpp:501-514 | every benchmark configuration's size lies between 16 bytes and 256 MiB, as the sweep sizes do |
| MemPoolTest.ListsApplied | MemPoolTest/MemPoolTest.cpp:206-281 | the resources after the invalidation lists: buffers recreated with one more creation and flush only on a rebuild, the job recompiled only on a recompile, one flush more when the upload path changed, nothing else moved |
| MemPoolTest.BenchmarkTicked | MemPoolTest/MemPoolTest.cpp:827-937 | one benchmark tick with the frame's sample: idle, restart for a due configuration, or a counted frame that stores the sample past the warm-up, keeps results and configuration before the last frame, and on it stores the average of the 64 samples and advances |
| MemPoolTest.MemPoolTest.InitBenchmark | MemPoolTest/MemPoolTest.cpp:484-625 | 64 sample slots, the configuration sweep (12 or 8 entries) and one result slot per configuration |
| MemPoolTest.MemPoolTest.SetUploadHeapSupport | MemPoolTest/MemPoolTest.cpp:116-118 | without GPU upload heaps the last heap type is clamped away |
| MemPoolTest.MemPoolTest.SetUma | MemPoolTest/MemPoolTest.cpp:141-143 | a UMA device offers only memory pool L0 |
| MemPoolTest.MemPoolTest.InitializeResources | MemPoolTest/MemPoolTest.cpp:113-137 | requires at least one input element; upload-heap support recorded, buffers created, then the job compiled with their element count |
| MemPoolTest.MemPoolTest.InitializeBenchmark | MemPoolTest/MemPoolTest.cpp:141-160 | the UMA clamp, then the benchmark configurations, every one with a size of 16 bytes to 256 MiB |
| MemPoolTest.MemPoolTest.Initialize | MemPoolTest/MemPoolTest.cpp:111-161 | requires at least one input element; buffers, job and benchmark set up consistently, so that `Update` may be called; no GPU upload heap is selected when unsupported |
| GraphicsTypes.Identity | SampleFramework12/v1.04/Graphics/GraphicsTypes.cpp:56-58 | the list of length n whose entry i is i |
| GraphicsTypes.IdentityDistinct | SampleFramework12/v1.04/Graphics/GraphicsTypes.cpp:56-58 | the identity list holds no index twice |
| GraphicsTypes.IdentityArray | SampleFramework12/v1.04/Graphics/GraphicsTypes.cpp:56-58 | the filling loop leaves the identity list in a fresh array |
| GraphicsTypes.IdentityFree | SampleFramework12/v1.04/Graphics/GraphicsTypes.cpp:56-58 | the identity dead list holds every index below n once, all below n |
| GraphicsTypes.IdentityCovers | SampleFramework12/v1.04/Graphics/GraphicsTypes.cpp:56-58 | every index below n is in the identity list |
| GraphicsTypes.SwappedKeepsElements | SampleFramework12/v1.04/Graphics/GraphicsTypes.cpp:102 | swapping two dead-list entries keeps the same indices, so keeps them distinct |
| GraphicsTypes.DescriptorHeap.constructor | SampleFramework12/v1.04/Graphics/GraphicsTypes.h:39-78 | no descriptors, nothing allocated, no heaps |
| GraphicsTypes.DescriptorHeap.Init | SampleFramework12/v1.04/Graphics/GraphicsTypes.cpp:40-76 | nothing live, the dead list is the identity; RTV and DSV heaps are never shader-visible; two heaps exactly when shader-visible |
| GraphicsTypes.DescriptorHeap.SetLayout | SampleFramework12/v1.04/Graphics/GraphicsTypes.cpp:50-54 | the visibility rule and the heap count, with one start address per heap |
| GraphicsTypes.DescriptorHeap.SetDeadList | SampleFramework12/v1.04/Graphics/GraphicsTypes.cpp:56-58 | the filled dead list is installed with nothing allocated from it |
| GraphicsTypes.DescriptorHeap.Shutdown | SampleFramework12/v1.04/Graphics/GraphicsTypes.cpp:78-83 | requires nothing allocated (the source's assertion); the heaps are released and the dead list kept |
| GraphicsTypes.DescriptorHeap.AllocatePersistent | SampleFramework12/v1.04/Graphics/GraphicsTypes.cpp:85-125 | an error when all persistent descriptors are taken; otherwise a free index (the requested one when given) becomes live, with one CPU handle per heap |
| GraphicsTypes.DescriptorHeap.MoveToFront | SampleFramework12/v1.04/Graphics/GraphicsTypes.cpp:93-108 | the search swaps a requested free index to the front of the free list without changing the live set |
| GraphicsTypes.DescriptorHeap.TakeFront | SampleFramework12/v1.04/Graphics/GraphicsTypes.cpp:111-112 | the front of the free list, which was not live, becomes live |
| GraphicsTypes.DescriptorHeap.FreePersistent | SampleFramework12/v1.04/Graphics/GraphicsTypes.cpp:127-144 | the invalid index is ignored; otherwise exactly that live index becomes free again; the caller's index is reset to invalid |
| GraphicsTypes.DescriptorHeap.FreePersistentHandle | SampleFramework12/v1.04/Graphics/GraphicsTypes.cpp:146-155 | a non-null handle on a single heap frees the index it points at and is reset to null |
| GraphicsTypes.DescriptorHeap.AllocateTemporary | SampleFramework12/v1.04/Graphics/GraphicsTypes.cpp:168-186 | the block starts after the persistent range at the current temporary count, which grows by count; only the start is checked |
| GraphicsTypes.DescriptorHeap.EndFrame | SampleFramework12/v1.04/Graphics/GraphicsTypes.cpp:188-193 | temporary allocations are dropped and the next heap (modulo the heap count) is used; persistent state unchanged |
| GraphicsTypes.DescriptorHeap.HandlesOf | SampleFramework12/v1.04/Graphics/GraphicsTypes.cpp:116-123 | one CPU handle per heap for the index |
| GraphicsTypes.DescriptorHeap.CPUHandle | SampleFramework12/v1.04/Graphics/GraphicsTypes.cpp:205-213 | a handle lies at or after its heap's start |
| GraphicsTypes.DescriptorHeap.IndexFromHandle | SampleFramework12/v1.04/Graphics/GraphicsTypes.cpp:226-233 | the index is below the total descriptor count |
| GraphicsTypes.DescriptorHeap.HandleIndexRoundTrip | SampleFramework12/v1.04/Graphics/GraphicsTypes.cpp:205-233 | a handle made from an index on the current heap is inside it, aligned, and converts back to that index |
| GraphicsBuffers.Slices | SampleFramework12/v1.04/Graphics/GraphicsTypes.cpp:424-437 | the n slice offsets, slice k at k times the slice size |
| GraphicsBuffers.SliceInResource | SampleFramework12/v1.04/Graphics/GraphicsTypes.cpp:424-437 | every slice a dynamic buffer cycles through lies inside its RenderLatency-wide resource |
| GraphicsBuffers.SlicesDisjoint | SampleFramework12/v1.04/Graphics/GraphicsTypes.cpp:424-437 | distinct slices never overlap |
| GraphicsBuffers.InitCopyOffsetsAsWritten | SampleFramework12/v1.04/Graphics/GraphicsTypes.cpp:314-337 | as written, no copy without initial data; otherwise RenderLatency copies for CPU-accessible or dynamic buffers, else one |
| GraphicsBuffers.InitCopyMisplaced | SampleFramework12/v1.04/Graphics/GraphicsTypes.cpp:332-333 | as written, a dynamic buffer of 100 bytes aligned to 256 gets its second copy at 100, not at the slice start 256 |
| GraphicsBuffers.InitCopyOffsets | SampleFramework12/v1.04/Graphics/GraphicsTypes.cpp:314-337 | the corrected copies: the same number, each at the start of its own slice |
| GraphicsBuffers.InitCopiesFitSlices | SampleFramework12/v1.04/Graphics/GraphicsTypes.cpp:314-337 | with the corrected offsets copy k is slice k and each copy fits in its slice and in the resource |
| GraphicsBuffers.Buffer.constructor | SampleFramework12/v1.04/Graphics/GraphicsTypes.h:118-131 | nothing allocated, first slice current, no upload recorded (UploadFrame = UINT64_MAX) |
| GraphicsBuffers.Buffer.Initialize | SampleFramework12/v1.04/Graphics/GraphicsTypes.cpp:252-338 | requires a positive size, no dynamic UAV buffer and no CPU access without dynamic (the source's assertions); the size is aligned up, slice 0 current, the width RenderLatency slices when dynamic |
| GraphicsBuffers.Buffer.CycleBuffer | SampleFramework12/v1.04/Graphics/GraphicsTypes.cpp:424-437 | requires a dynamic buffer not yet cycled this frame (the source's assertions); moves to the next slice modulo RenderLatency and returns its offset, a whole slice inside the resource |
| GraphicsBuffers.Buffer.Map | SampleFramework12/v1.04/Graphics/GraphicsTypes.cpp:345-359 | requires a CPU-accessible buffer; cycles and returns the new slice's offset |
| GraphicsBuffers.Buffer.QueueUpload | SampleFramework12/v1.04/Graphics/GraphicsTypes.cpp:369-380 | requires the copy to fit in a slice; cycles and places the copy inside the new slice |
| GraphicsBuffers.RawBufferInit | SampleFramework12/v1.04/Graphics/GraphicsTypes.cpp:806-852 | the size covers 4 bytes per element, is a multiple of 16, and the alignment is 4 |
| GraphicsBuffers.AlignUpScaled | SampleFramework12/v1.04/Graphics/GraphicsTypes.cpp:897-910 | four times `AlignTo(n, 4)` is `AlignTo(4n, 16)` |
| GraphicsBuffers.RawSRVMatchesSlice | SampleFramework12/v1.04/Graphics/GraphicsTypes.cpp:897-910 | the SRV of slice i starts exactly at the slice `CycleBuffer` hands out for i |
| GraphicsBuffers.ShaderTable | SampleFramework12/v1.04/Graphics/GraphicsTypes.cpp:581-593 | requires the start to be a record of the table; the range starts there and the count is cut to what remains |
| GraphicsBuffers.ShaderTableInBounds | SampleFramework12/v1.04/Graphics/GraphicsTypes.cpp:581-593 | the range lies inside the table, holds at least one record, and is the requested one whenever it fits |
| GraphicsBuffers.BarrierRange | SampleFramework12/v1.04/Graphics/GraphicsTypes.cpp:1088-1101 | requires both starts to exist; both counts are cut to what remains |
| GraphicsBuffers.BarrierRangeInTexture | SampleFramework12/v1.04/Graphics/GraphicsTypes.cpp:1088-1101 | the range stays inside the texture, is non-empty for a non-empty request, and keeps counts that fit |
| GraphicsBuffers.DecodeExtentIsCeiling | SampleFramework12/v1.04/Graphics/GraphicsTypes.cpp:1692-1702 | the region count is the least number of regions covering the extent |
| UploadRingSpec.RingSlot | SampleFramework12/v1.04/Graphics/DX12_Upload.cpp:193 | the slot of pending position i from the start, below MaxSubmissions (16) |
| UploadRingSpec.RingSlotInjective | SampleFramework12/v1.04/Graphics/DX12_Upload.cpp:193 | positions less than a full turn apart use different slots |
| UploadRingSpec.RingSlotAdvance | SampleFramework12/v1.04/Graphics/DX12_Upload.cpp:209 | advancing the start by one shifts every later position down by one |
| UploadRingSpec.RingWindow | SampleFramework12/v1.04/Graphics/DX12_Upload.cpp:189-194 | the pending submissions in allocation order, `used` slots from the start |
| UploadRingSpec.RingWindowPush | SampleFramework12/v1.04/Graphics/DX12_Upload.cpp:259-302 | filling the slot after the window appends to the window |
| UploadRingSpec.RingWindowPop | SampleFramework12/v1.04/Graphics/DX12_Upload.cpp:207-216 | clearing the head slot and advancing the start drops the window's head |
| UploadRingSpec.RingWindowUpdate | SampleFramework12/v1.04/Graphics/DX12_Upload.cpp:193-194 | rewriting a slot inside the window rewrites that element |
| UploadRingSpec.FreeSlotsAfterPop | SampleFramework12/v1.04/Graphics/DX12_Upload.cpp:207-216 | retiring the head keeps every free slot empty (the `Size == 0` that allocation asserts) |
| UploadRingSpec.FreeSlotsAfterPush | SampleFramework12/v1.04/Graphics/DX12_Upload.cpp:259-302 | filling the slot after the window keeps the other free slots empty |
| UploadRingSpec.FreeSlotsAfterUpdate | SampleFramework12/v1.04/Graphics/DX12_Upload.cpp:193-194 | rewriting a pending slot keeps the free slots empty |
| UploadRingSpec.SeenAt | SampleFramework12/v1.04/Graphics/DX12_Upload.cpp:204-207 | the completed fence value seen at entry j never drops below the starting value and reaches every waited entry's fence value |
| UploadRingSpec.SeenBefore | SampleFramework12/v1.04/Graphics/DX12_Upload.cpp:204-207 | the value seen before entry j is at least the starting value |
| UploadRingSpec.WaitedIsRetirable | SampleFramework12/v1.04/Graphics/DX12_Upload.cpp:204-207 | a submitted entry that is waited on is always retired |
| UploadRingSpec.UnwaitedRetirement | SampleFramework12/v1.04/Graphics/DX12_Upload.cpp:204-207 | without waits an entry is retired exactly when it was submitted and the fence has passed its value |
| UploadRingSpec.LayoutEndPosition | SampleFramework12/v1.04/Graphics/DX12_Upload.cpp:266-267 | a layout of `used` bytes from `pos` ends at `(pos + used) % BufferSize` |
| UploadRingSpec.LayoutPop | SampleFramework12/v1.04/Graphics/DX12_Upload.cpp:207-219 | retiring the head: its block starts after its padding, at its offset, ends inside the buffer, and the rest is a layout from its end (from 0 once empty) |
| UploadRingSpec.LayoutUsesBytes | SampleFramework12/v1.04/Graphics/DX12_Upload.cpp:195-196 | a layout is non-empty exactly when it uses bytes |
| UploadRingSpec.LayoutAppend | SampleFramework12/v1.04/Graphics/DX12_Upload.cpp:262-304 | appending a block that fits at the end extends the layout by its size and padding |
| UploadRingSpec.LayoutIgnoresFences | SampleFramework12/v1.04/Graphics/DX12_Upload.cpp:204-207 | the byte layout does not depend on fence values |
| UploadRingSpec.Footprint | SampleFramework12/v1.04/Graphics/DX12_Upload.cpp:187-230 | the bytes a run of submissions holds in the ring, size plus padding each: what `AllocSubmission` adds to BufferUsed and `ClearPendingUploads` takes back |
| UploadRingSpec.PlacementSound | SampleFramework12/v1.04/Graphics/DX12_Upload.cpp:262-295 | a successful placement fits at the end of the used region, stays inside the buffer, keeps the used count within it, and overlaps no used byte |
| UploadRingSpec.Placement | SampleFramework12/v1.04/Graphics/DX12_Upload.cpp:262-296 | where `AllocSubmission` puts a block as (offset, padding): none when fewer bytes are free; after the used region when the tail has room; at 0 with the tail as padding when only the head has; after the wrapped end when the region already wraps; `PlacementSound` and the `Placed*` lemmas state that it overlaps no used byte |
| UploadRingSpec.PlacedAtEnd | SampleFramework12/v1.04/Graphics/DX12_Upload.cpp:269-275 | when the tail has room the block goes right after the used region, over free bytes |
| UploadRingSpec.PlacedAtZero | SampleFramework12/v1.04/Graphics/DX12_Upload.cpp:276-282 | when only the head has room the block goes at 0, the tail becomes padding, over free bytes |
| UploadRingSpec.PlacedAfterWrap | SampleFramework12/v1.04/Graphics/DX12_Upload.cpp:285-289 | a wrapped region places the block after its wrapped end, over free bytes |
| UploadRingSpec.TailFree | SampleFramework12/v1.04/Graphics/DX12_Upload.cpp:269-275 | bytes after an unwrapped used region up to the buffer end are free |
| UploadRingSpec.HeadFree | SampleFramework12/v1.04/Graphics/DX12_Upload.cpp:276-282 | bytes before the start of an unwrapped used region are free |
| UploadRingSpec.WrappedFree | SampleFramework12/v1.04/Graphics/DX12_Upload.cpp:285-289 | bytes between a wrapped region's end and its start are free |
| UploadRingSpec.PlacementEmpty | SampleFramework12/v1.04/Graphics/DX12_Upload.cpp:262-295 | an empty ring starting at 0 places any block that fits the buffer at 0 |
| UploadRingSpec.PlacementNeedsFreeBytes | SampleFramework12/v1.04/Graphics/DX12_Upload.cpp:262-263 | a successful placement never needs more bytes than are free |
| DX12Upload.UploadQueue.constructor | SampleFramework12/v1.04/Graphics/DX12_Upload.cpp:23-41 | the fence starts at 0 and no dependent wait is pending |
| DX12Upload.UploadQueue.SubmitCmdList | SampleFramework12/v1.04/Graphics/DX12_Upload.cpp:64-80 | the new fence value is one more than the last (so strictly increasing), and a submission that asks for it adds a pending wait |
| DX12Upload.UploadQueue.SyncDependentQueue | SampleFramework12/v1.04/Graphics/DX12_Upload.cpp:49-62 | the other queue waits for the last fence value exactly when a wait is pending; afterwards none is |
| DX12Upload.UploadQueue.Flush | SampleFramework12/v1.04/Graphics/DX12_Upload.cpp:82-90 | afterwards the completed value has reached every fence value handed out, and never went down |
| DX12Upload.UploadRingBuffer.constructor | SampleFramework12/v1.04/Graphics/DX12_Upload.cpp:112-150 | 16 empty slots, a 64 MiB buffer, nothing pending |
| DX12Upload.UploadRingBuffer.Resize | SampleFramework12/v1.04/Graphics/DX12_Upload.cpp:161-185 | requires an empty ring; the buffer takes the new size and stays empty |
| DX12Upload.UploadRingBuffer.RetireHead | SampleFramework12/v1.04/Graphics/DX12_Upload.cpp:207-219 | the head submission is dropped; it sat after its padding at its offset and inside the buffer (the two assertions hold); its bytes are released and its slot reset |
| DX12Upload.UploadRingBuffer.ClearPendingUploads | SampleFramework12/v1.04/Graphics/DX12_Upload.cpp:187-229 | retires a prefix of the pending submissions in allocation order, each retired one submitted and reached by the fence (after the waits on the first waitCount), stopping at the first that is not |
| DX12Upload.UploadRingBuffer.RetireIfDone | SampleFramework12/v1.04/Graphics/DX12_Upload.cpp:195-227 | one iteration: an unsubmitted entry or one the fence has not reached stops the loop and changes nothing; otherwise it is retired |
| DX12Upload.UploadRingBuffer.AllocSubmission | SampleFramework12/v1.04/Graphics/DX12_Upload.cpp:253-305 | no slot when 16 are pending or `Placement` finds no room; otherwise the placed block is appended, unsubmitted, in the slot after the last pending one |
| DX12Upload.UploadRingBuffer.Append | SampleFramework12/v1.04/Graphics/DX12_Upload.cpp:294-304 | a block that fits goes into the empty slot after the window and its bytes (with padding) are counted |
| DX12Upload.UploadRingBuffer.Flush | SampleFramework12/v1.04/Graphics/DX12_Upload.cpp:232-240 | with every pending submission handed to the queue, the loop empties the ring |
| DX12Upload.UploadRingBuffer.TryClearPending | SampleFramework12/v1.04/Graphics/DX12_Upload.cpp:242-251 | when the lock is free, the submissions the fence has already passed are retired in order, without waiting; otherwise nothing changes |
| DX12Upload.UploadRingBuffer.ClearAndAlloc | SampleFramework12/v1.04/Graphics/DX12_Upload.cpp:330-335 | one attempt: retire what may be retired, then allocate; a failure leaves submissions pending; waiting on a submitted head retires it |
| DX12Upload.UploadRingBuffer.ClearFrom | SampleFramework12/v1.04/Graphics/DX12_Upload.cpp:330-333 | the retirement half: a suffix of the pending submissions remains |
| DX12Upload.UploadRingBuffer.AllocNewest | SampleFramework12/v1.04/Graphics/DX12_Upload.cpp:334-335 | the allocation half: on success the newest submission is the new block |
| DX12Upload.UploadRingBuffer.Reserve | SampleFramework12/v1.04/Graphics/DX12_Upload.cpp:326-339 | requires every pending submission to be submitted (`AllSubmitted`); retries with a wait on the oldest submission until the allocation succeeds; the new block is the newest pending submission |
| DX12Upload.UploadRingBuffer.Begin | SampleFramework12/v1.04/Graphics/DX12_Upload.cpp:307-355 | requires a positive size and every pending submission submitted (`AllSubmitted`); the size is rounded up to 512 bytes, a too-small ring is drained and grown to exactly it, then a block is reserved and its offset returned |
| DX12Upload.UploadRingBuffer.End | SampleFramework12/v1.04/Graphics/DX12_Upload.cpp:357-368 | the submission gets the queue's next fence value; nothing else about the ring changes |
| DX12Upload.FastUploader.constructor | SampleFramework12/v1.04/Graphics/DX12_Upload.cpp:391-414 | no copies queued, first command allocator |
| DX12Upload.FastUploader.QueueUpload | SampleFramework12/v1.04/Graphics/DX12_Upload.cpp:424-429 | requires a free entry (the source's assertion); the copy is appended to the queued ones |
| DX12Upload.FastUploader.SubmitPending | SampleFramework12/v1.04/Graphics/DX12_Upload.cpp:431-451 | nothing without queued copies; otherwise all are recorded in order, submitted with a dependent wait, and the queue emptied |
| DX12Upload.TempFrameAllocator.constructor | SampleFramework12/v1.04/Graphics/DX12_Upload.cpp:379 | nothing used |
| DX12Upload.TempFrameAllocator.AcquireTempBufferMem | SampleFramework12/v1.04/Graphics/DX12_Upload.cpp:532-547 | size + alignment bytes are taken from the bump pointer; the block is aligned, lies inside them and inside the temporary buffer, so blocks of one frame never overlap |
| DX12Upload.TempFrameAllocator.Reset | SampleFramework12/v1.04/Graphics/DX12_Upload.cpp:512 | the bump pointer returns to 0 |
| DX12Upload.EndFrameUpload | SampleFramework12/v1.04/Graphics/DX12_Upload.cpp:501-513 | fast copies submitted, finished ring submissions retired, the graphics queue waits for each queue that asked, the temporary memory reset |
| DX12Upload.FlushUpload | SampleFramework12/v1.04/Graphics/DX12_Upload.cpp:515-520 | requires every pending ring submission submitted (`AllSubmitted`); both queues are waited on and the ring is drained; nothing is pending |
| DX12.Flatten | SampleFramework12/v1.04/Graphics/DX12.cpp:356-360 | the slots' lists one after the other, in slot order |
| DX12.InCopy | SampleFramework12/v1.04/Graphics/DX12.cpp:84-100 | each deferred view of a slot is created in that slot's heap copy, in order |
| DX12.Ahead | SampleFramework12/v1.04/Graphics/DX12.cpp:328 | a slot is fewer than RenderLatency frames after the current one |
| DX12.SameSlotSameFrame | SampleFramework12/v1.04/Graphics/DX12.cpp:328 | two frames in the same slot within one latency window are the same frame |
| DX12.Frames.constructor | SampleFramework12/v1.04/Graphics/DX12.cpp:55-75 | frame 0 on CPU and GPU, slot 0, nothing deferred |
| DX12.Frames.DeferredRelease | SampleFramework12/v1.04/Graphics/DX12.cpp:363-376 | null is ignored; while shutting down or without a device the resource is released at once; otherwise it joins the current slot's list with the CPU frame |
| DX12.Frames.DeferredCreateSRV | SampleFramework12/v1.04/Graphics/DX12.cpp:378-389 | requires a resource, which `ProcessDeferredSRVCreates` asserts of every queued create; the view is queued for every heap copy except the current one; nothing else changes |
| DX12.Frames.ProcessDeferredReleases | SampleFramework12/v1.04/Graphics/DX12.cpp:77-82 | every resource of the slot is released, in order, and the slot emptied |
| DX12.Frames.ProcessDeferredSRVCreates | SampleFramework12/v1.04/Graphics/DX12.cpp:84-100 | every queued view of the slot, each with a non-null resource (kept by `Frames.Valid`), is created in that heap copy and the slot emptied |
| DX12.Frames.AdvanceFrame | SampleFramework12/v1.04/Graphics/DX12.cpp:313-328 | the CPU frame advances; when the GPU would be RenderLatency frames behind the CPU waits for one more GPU frame; the slot follows the CPU frame |
| DX12.Frames.EndFrame | SampleFramework12/v1.04/Graphics/DX12.cpp:298-339 | after the counters advance the new slot is processed; every resource released was deferred in a frame the GPU has finished |
| DX12.Frames.WaitForGPU | SampleFramework12/v1.04/Graphics/DX12.cpp:348-353 | requires the GPU not ahead (the source's assertion); afterwards the GPU has caught up with the CPU |
| DX12.Frames.ProcessAll | SampleFramework12/v1.04/Graphics/DX12.cpp:356-360 | every slot's releases (and, when asked, its view creates) are processed, in slot order |
| DX12.Frames.FlushGPU | SampleFramework12/v1.04/Graphics/DX12.cpp:341-361 | the GPU catches up, then every deferred resource is released and every view created |
| DX12.Frames.Shutdown | SampleFramework12/v1.04/Graphics/DX12.cpp:248-289 | requires the GPU caught up (the source's assertion); releases become immediate and everything deferred is released |
| DX12.DeferredInOtherSlot | SampleFramework12/v1.04/Graphics/DX12.cpp:313-328 | after the CPU frame advances the other slots' releases are still within the latency window |
| DX12.DeferredInCurrentSlot | SampleFramework12/v1.04/Graphics/DX12.cpp:313-338 | the releases in the new current slot were deferred exactly RenderLatency frames ago, which the GPU has finished |
| DX12.EmptiedBelow | SampleFramework12/v1.04/Graphics/DX12.cpp:356-360 | the slots' lists with the first i emptied |
| DX12.FlattenBound | SampleFramework12/v1.04/Graphics/DX12.cpp:356-360 | a bound on every slot's frames bounds every released resource's frame |
| DX12.FlattenLengths | SampleFramework12/v1.04/Graphics/DX12.cpp:356-360 | slot lists of equal lengths flatten to lists of equal lengths |
| Containers.Repeat | SampleFramework12/v1.04/Containers.h:103-107 | exactly `count` elements, each `v` |
| Containers.ResizeAsWrittenOverrunsWhenShrinking | SampleFramework12/v1.04/Containers.h:119-137 | as written, Resize writes past the new block exactly when it shrinks to a non-zero size; otherwise it keeps the common prefix |
| Containers.ResizeAsWrittenShrinkExample | SampleFramework12/v1.04/Containers.h:119-137 | as written, shrinking [1, 2, 3, 4] to 2 overruns, where the intended result is [1, 2] |
| Containers.Resized | SampleFramework12/v1.04/Containers.h:119-137 | the new size, the old elements up to the smaller size, then the fill value |
| Containers.Doubled | SampleFramework12/v1.04/Containers.h:340-358 | the capacity reached by doubling covers both the old capacity and the request |
| Containers.DoubledIsLeast | SampleFramework12/v1.04/Containers.h:340-358 | doubling stops at the first value covering the request |
| Containers.GrownCapacity | SampleFramework12/v1.04/Containers.h:340-358 | the capacity after Reserve covers the request and is unchanged when the old one sufficed |
| Containers.GrownCapacityIsTight | SampleFramework12/v1.04/Containers.h:340-358 | growth never reaches twice the request, except for the 16-element minimum |
| Containers.RemovedAsWritten | SampleFramework12/v1.04/Containers.h:445-460 | as written, Remove yields one element fewer |
| Containers.RemovedInOrder | SampleFramework12/v1.04/Containers.h:445-460 | the intended Remove: the element at idx is deleted and the order of the rest kept |
| Containers.RemovedAsWrittenIsPermutation | SampleFramework12/v1.04/Containers.h:445-460 | as written and as intended, Remove deletes exactly the element at idx (as multisets) |
| Containers.RemovedAsWrittenReorders | SampleFramework12/v1.04/Containers.h:445-460 | as written, removing index 0 of [0, 1, 2] gives [2, 1]; as intended [1, 2] |
| Containers.RemoveLastAgrees | SampleFramework12/v1.04/Containers.h:445-460 | removing the last element both versions drop it and keep the rest |
| Containers.RemovedMultipleAsWritten | SampleFramework12/v1.04/Containers.h:462-474 | as written, RemoveMultiple yields numItems elements fewer |
| Containers.RemovedMultipleInOrder | SampleFramework12/v1.04/Containers.h:462-474 | the intended RemoveMultiple: the run is deleted and the gap closed, order kept |
| Containers.RemovedMultipleAgreesOnShortTail | SampleFramework12/v1.04/Containers.h:462-474 | both agree when the tail after the run is no longer than the run |
| Containers.RemovedMultipleAsWrittenLosesTail | SampleFramework12/v1.04/Containers.h:462-474 | as written, removing one element at 0 of [0, 1, 2, 3] gives [1, 1, 2]; as intended [1, 2, 3] |
| Containers.Inserted | SampleFramework12/v1.04/Containers.h:426-443 | the item at idx, the elements before it kept, those after moved up by one |
| Containers.InsertThenRemove | SampleFramework12/v1.04/Containers.h:426-460 | removing (in order) what was inserted gives the original list back |
| Containers.Array.constructor | SampleFramework12/v1.04/Containers.h:29-31 | no elements |
| Containers.Array.Init | SampleFramework12/v1.04/Containers.h:94-101 | a fresh block of numElements default elements |
| Containers.Array.Fill | SampleFramework12/v1.04/Containers.h:178-182 | every element becomes the value |
| Containers.Array.InitFilled | SampleFramework12/v1.04/Containers.h:103-107 | a fresh block of numElements copies of the fill value |
| Containers.Array.Shutdown | SampleFramework12/v1.04/Containers.h:109-117 | no elements |
| Containers.Array.Resize | SampleFramework12/v1.04/Containers.h:119-137 | corrected: the elements become `Resized`, and the block is kept when the size is unchanged |
| Containers.List.constructor | SampleFramework12/v1.04/Containers.h:216-218 | no storage and no elements |
| Containers.List.Reserve | SampleFramework12/v1.04/Containers.h:340-358 | the elements are kept and the capacity becomes `GrownCapacity` |
| Containers.List.Init | SampleFramework12/v1.04/Containers.h:275-282 | initialCount default elements, capacity for both arguments |
| Containers.List.Fill | SampleFramework12/v1.04/Containers.h:334-338 | every live element becomes the value |
| Containers.List.Shutdown | SampleFramework12/v1.04/Containers.h:290-300 | no storage and no elements |
| Containers.List.Add | SampleFramework12/v1.04/Containers.h:369-376 | the item is appended and its index (the old count) returned; capacity grows as Reserve does |
| Containers.List.AddDefault | SampleFramework12/v1.04/Containers.h:360-367 | a default element is appended at the old count |
| Containers.List.AddMultiple | SampleFramework12/v1.04/Containers.h:400-411 | itemCount copies appended; nothing changes when 0 |
| Containers.List.AddMultipleDefault | SampleFramework12/v1.04/Containers.h:387-398 | itemCount default elements appended |
| Containers.List.Append | SampleFramework12/v1.04/Containers.h:413-424 | the items appended in order; nothing changes when empty |
| Containers.List.Insert | SampleFramework12/v1.04/Containers.h:426-443 | requires idx <= count (the source's assertion); the elements become `Inserted` |
| Containers.List.ShiftUp | SampleFramework12/v1.04/Containers.h:437-439 | the loop moves every element from idx on one slot up, those before idx untouched |
| Containers.List.Remove | SampleFramework12/v1.04/Containers.h:445-460 | as written: requires idx < count; the elements become `RemovedAsWritten` |
| Containers.List.RemoveInOrder | SampleFramework12/v1.04/Containers.h:445-460 | corrected: the elements become `RemovedInOrder` |
| Containers.List.RemoveMultiple | SampleFramework12/v1.04/Containers.h:462-474 | as written: requires the run inside the list; the elements become `RemovedMultipleAsWritten` |
| Containers.List.RemoveMultipleInOrder | SampleFramework12/v1.04/Containers.h:462-474 | corrected: the elements become `RemovedMultipleInOrder` |
| Containers.List.RemoveAll | SampleFramework12/v1.04/Containers.h:476-481 | no elements, storage kept |
| Utility.AlignUp | SampleFramework12/v1.04/Utility.h:132-142 | a multiple of the alignment, at least num and less than num + alignment |
| Utility.AlignTo32 | SampleFramework12/v1.04/Utility.h:132-136 | requires alignment > 0 and no 32-bit wrap; the same bounds |
| Utility.AlignTo64 | SampleFramework12/v1.04/Utility.h:138-142 | requires alignment > 0 and no 64-bit wrap; the same bounds |
| Utility.AlignUpIsLeast | SampleFramework12/v1.04/Utility.h:132-142 | no multiple of the alignment at least num is smaller than the result |
| Utility.AlignUpIdempotent | SampleFramework12/v1.04/Utility.h:132-142 | aligning an aligned value changes nothing, and aligning to 1 is the identity |
| Utility.FindFirstOf | SampleFramework12/v1.04/Utility.h:75-86 | the first delimiter position at or after `from` (or the end): everything before it is not a delimiter |
| Utility.FindFirstNotOf | SampleFramework12/v1.04/Utility.h:72-83 | the first non-delimiter position at or after `from` (or the end): everything before it is a delimiter |
| Utility.RemoveDelimiters | SampleFramework12/v1.04/Utility.h:69-88 | the characters of the string that are not delimiters, none of them a delimiter |
| Utility.SkipDelimiters | SampleFramework12/v1.04/Utility.h:72-83 | a run of delimiters contributes no token |
| Utility.TokensWellFormed | SampleFramework12/v1.04/Utility.h:69-88 | every token is non-empty and holds no delimiter |
| Utility.Tokens | SampleFramework12/v1.04/Utility.h:39-58 | the reference for `Split`: the maximal runs of non-delimiter characters, in order; `TokensWellFormed` and `TokensConcat` state their properties and `Split` is proved to produce them |
| Utility.TokensConcat | SampleFramework12/v1.04/Utility.h:69-88 | the tokens concatenated are the input with every delimiter removed |
| Utility.Split | SampleFramework12/v1.04/Utility.h:69-88 | the loop appends exactly the tokens of the string to `parts`, which it does not clear |
| Utility.SplitNew | SampleFramework12/v1.04/Utility.h:91-96 | the tokens of the string, which concatenate to the string without delimiters |
| Utility.GetIndex | SampleFramework12/v1.04/Utility.h:115-120 | a 16-bit read when the index size is 2, otherwise a 32-bit read |
| Utility.Bytes16 | SampleFramework12/v1.04/Utility.h:115-120 | the little-endian image of a 16-bit index buffer, two bytes per entry |
| Utility.Bytes32 | SampleFramework12/v1.04/Utility.h:115-120 | the little-endian image of a 32-bit index buffer, four bytes per entry |
| Utility.GetIndexRoundTrip16 | SampleFramework12/v1.04/Utility.h:115-120 | GetIndex reads back entry i of a 16-bit index buffer |
| Utility.GetIndexRoundTrip32 | SampleFramework12/v1.04/Utility.h:115-120 | GetIndex reads back entry i of a 32-bit index buffer, for any index size other than 2 |
| SF12Math.Min | SampleFramework12/v1.04/SF12_Math.h:584-587 | the result is at most both arguments and is one of them |
| SF12Math.Max | SampleFramework12/v1.04/SF12_Math.h:589-592 | the result is at least both arguments and is one of them |
| SF12Math.Clamp | SampleFramework12/v1.04/SF12_Math.h:605-614 | requires hi >= lo (the source's assertion); the result is in [lo, hi] and a value already inside is kept |
| SF12Math.Saturate | SampleFramework12/v1.04/SF12_Math.h:622-625 | the result is in [0, 1]: 0, 1 or the value |
| SF12Math.ClampIdempotent | SampleFramework12/v1.04/SF12_Math.h:605-614 | clamping twice is clamping once, and clamping is `Min(Max(val, lo), hi)` |
| SF12Math.Swapped | SampleFramework12/v1.04/SF12_Math.h:533-538 | the two elements exchanged, the length kept |
| SF12Math.Swap | SampleFramework12/v1.04/SF12_Math.h:533-538 | the array becomes `Swapped` |
| SF12Math.PartnerIndex | SampleFramework12/v1.04/SF12_Math.h:554 | the partner `i + draw % (count - i)` lies in [i, count) |
| SF12Math.Partners | SampleFramework12/v1.04/SF12_Math.h:550-557 | every chosen partner of position k lies in [k, count) |
| SF12Math.ShuffledIsPermutation | SampleFramework12/v1.04/SF12_Math.h:550-557 | whatever the partners, the shuffle keeps the length and the multiset of elements |
| SF12Math.Shuffle | SampleFramework12/v1.04/SF12_Math.h:550-557 | the loop applies the Fisher-Yates swaps with the generator's next draws, and the result is a permutation of the input |
| SF12Math.Uint2.Equals | SampleFramework12/v1.04/SF12_Math.cpp:1149-1152 | equal exactly when both components are |
| SF12Math.Uint2.NotEquals | SampleFramework12/v1.04/SF12_Math.cpp:1154-1157 | not-equal is the negation of equal |
| SF12Math.Uint3.Equals | SampleFramework12/v1.04/SF12_Math.cpp:1173-1176 | equal exactly when all components are |
| SF12Math.Uint3.NotEquals | SampleFramework12/v1.04/SF12_Math.cpp:1178-1181 | not-equal is the negation of equal |
| SF12Math.Uint4.Equals | SampleFramework12/v1.04/SF12_Math.cpp:1197-1200 | equal exactly when all components are |
| SF12Math.Uint4.NotEquals | SampleFramework12/v1.04/SF12_Math.cpp:1202-1205 | not-equal is the negation of equal |
| SF12Math.Int2.Equals | SampleFramework12/v1.04/SF12_Math.cpp:1227-1230 | equal exactly when both components are |
| SF12Math.Int2.NotEquals | SampleFramework12/v1.04/SF12_Math.cpp:1232-1235 | not-equal is the negation of equal |
| SF12Math.Draws | SampleFramework12/v1.04/SF12_Math.cpp:1293-1304 | n successive RandomUint calls return n values |
| SF12Math.XorShift | SampleFramework12/v1.04/SF12_Math.cpp:1296-1298 | the y stream: `y ^= y << 5`, `y ^= y >> 7`, `y ^= y << 22`, on 32 bits in that order; `XorShiftKeepsNonZero` proves it maps only 0 to 0 |
| SF12Math.LcgStep | SampleFramework12/v1.04/SF12_Math.cpp:1295 | the x stream: `314527869 * x + 1234567` mod 2^32 |
| SF12Math.CarryBound | SampleFramework12/v1.04/SF12_Math.cpp:1299-1300 | the multiply-with-carry product `4294584393 * z + c` never wraps its uint64, so the new carry `t >> 32` fits in 32 bits |
| SF12Math.MwcStep | SampleFramework12/v1.04/SF12_Math.cpp:1299-1301 | the z and c streams: the low 32 bits of `4294584393 * z + c` become z and the high 32 bits c |
| SF12Math.Combine | SampleFramework12/v1.04/SF12_Math.cpp:1303 | the value returned: `x + y + z` mod 2^32 |
| SF12Math.Step | SampleFramework12/v1.04/SF12_Math.cpp:1293-1304 | one `RandomUint` call: the value and the next state, each stream advanced once; `Random.RandomUint` is proved to compute it and `StepKeepsWellSeeded` to keep the state well seeded |
| SF12Math.Rolled | SampleFramework12/v1.04/SF12_Math.cpp:1275-1279 | the state after n successive `RandomUint` calls; `Random.Roll` is proved to reach it |
| SF12Math.RolledStep | SampleFramework12/v1.04/SF12_Math.cpp:1275-1279 | n + 1 calls are n calls followed by one more, the step `Roll`'s loop takes |
| SF12Math.DrawsAt | SampleFramework12/v1.04/SF12_Math.cpp:1293-1304 | draw i is the value of the step from the state after i calls |
| SF12Math.XorShiftKeepsNonZero | SampleFramework12/v1.04/SF12_Math.cpp:1296-1298 | the xorshift maps a word to zero exactly when it is zero |
| SF12Math.StepKeepsWellSeeded | SampleFramework12/v1.04/SF12_Math.cpp:1299-1301 | the 64-bit multiply-with-carry product never wraps and each call keeps the generator well seeded |
| SF12Math.RolledKeepsWellSeeded | SampleFramework12/v1.04/SF12_Math.cpp:1275-1279 | any number of calls keeps the generator well seeded |
| SF12Math.InitialStateWellSeeded | SampleFramework12/v1.04/SF12_Math.h:526-529 | the default state is well seeded |
| SF12Math.Random.constructor | SampleFramework12/v1.04/SF12_Math.h:526-529 | the default state x = 123456789, y = 987654321, z = 43219876, c = 6543217 |
| SF12Math.Random.RandomUint | SampleFramework12/v1.04/SF12_Math.cpp:1293-1304 | returns the step's value (the wrapped sum of the three generators) and leaves its state |
| SF12Math.Random.Roll | SampleFramework12/v1.04/SF12_Math.cpp:1275-1279 | the state after numRolls calls |
| SF12Math.Random.SeedWithRandomValue | SampleFramework12/v1.04/SF12_Math.cpp:1281-1291 | x is the first device value; for the first non-zero device value after it, at index k, y is that value, z the next one and c the one after reduced to `% 698769068 + 1`; the generator is well seeded |
| DX12Helpers.DispatchSizeIsCeiling | SampleFramework12/v1.04/Graphics/DX12_Helpers.cpp:835-839 | without wrap-around the group count times the group size is the element count rounded up to the group size: every element is covered and no smaller count would do |
| DX12Helpers.DispatchSize | SampleFramework12/v1.04/Graphics/DX12_Helpers.cpp:835-839 | `(numElements + groupSize - 1) / groupSize` with the 64-bit sum and the uint32 cast written out as wrap-arounds; `DispatchSizeIsCeiling` proves it is the ceiling when nothing wraps |
| DX12Helpers.Of | SampleFramework12/v1.04/Graphics/DX12_Helpers.cpp:607-661 | the barriers of one kind that a batch submits number exactly that kind's count |
| DX12Helpers.Barrier | SampleFramework12/v1.04/Graphics/DX12_Helpers.cpp:607-661 | the command list receives one group per kind that has barriers, buffer before texture before global, and nothing at all when every count is zero |
| DX12Helpers.BarrierCoversEveryKind | SampleFramework12/v1.04/Graphics/DX12_Helpers.cpp:616-656 | every kind with at least one barrier gets a group in the submitted list |
| DX12Helpers.BarrierBatchBuilder.constructor | SampleFramework12/v1.04/Graphics/DX12_Helpers.h:117-123 | a new builder holds no barriers of any kind, in three fixed arrays of 16 |
| DX12Helpers.BarrierBatchBuilder.AddBuffer | SampleFramework12/v1.04/Graphics/DX12_Helpers.h:125-129 | with room left, the buffer barrier is appended and the other kinds are unchanged |
| DX12Helpers.BarrierBatchBuilder.AddTexture | SampleFramework12/v1.04/Graphics/DX12_Helpers.h:131-135 | with room left, the texture barrier is appended and the other kinds are unchanged |
| DX12Helpers.BarrierBatchBuilder.AddGlobal | SampleFramework12/v1.04/Graphics/DX12_Helpers.h:137-141 | with room left, the global barrier is appended and the other kinds are unchanged |
| DX12Helpers.BarrierBatchBuilder.Build | SampleFramework12/v1.04/Graphics/DX12_Helpers.h:144-155 | the batch is well formed and submits exactly the barriers added, per kind, in insertion order |
| DX12Helpers.TempConstantBuffer | SampleFramework12/v1.04/Graphics/DX12_Helpers.cpp:855-873 | takes the size plus 256 bytes of the frame's temporary memory, 256-aligned, and the view covers the size rounded up to 256 inside the taken block |
| DX12Helpers.TempStructuredBuffer | SampleFramework12/v1.04/Graphics/DX12_Helpers.cpp:886-917 | takes count times stride plus one stride, aligned to the stride, so the view's first element times the stride is the offset and its elements lie inside the block |
| DX12Helpers.TempFormattedBuffer | SampleFramework12/v1.04/Graphics/DX12_Helpers.cpp:919-949 | as the structured case with the stride taken from the format's bits per pixel over 8 and a typed view |
| DX12Helpers.TempRawBuffer | SampleFramework12/v1.04/Graphics/DX12_Helpers.cpp:951-979 | a stride of 4 and a raw view; only the CPU address is filled in, the GPU address stays 0 |
| DX12Helpers.ElementOffset | SampleFramework12/v1.04/Graphics/DX12_Helpers.cpp:906-908 | an offset aligned to the stride is a whole number of elements, so the view starts at the offset and ends count elements later |
| DX12Helpers.ClearRawBufferCovers | SampleFramework12/v1.04/Graphics/DX12_Helpers.cpp:1052-1069 | below 2^36 bytes the cleared 16-byte elements cover the whole buffer, reach less than 16 bytes past it, and the dispatch has a thread for each |
| DX12Helpers.ClearRawBufferSize | SampleFramework12/v1.04/Graphics/DX12_Helpers.cpp:1059-1068 | the 16-byte element count `AlignTo(NumElements * Stride, 16) / 16` cast to uint32, and the `DispatchSize` of it in groups of 64; `ClearRawBufferCovers` states the coverage |
| DX12Helpers.InitializeHeaps | SampleFramework12/v1.04/Graphics/DX12_Helpers.cpp:91-93 | an RTV heap of 256, a shader-visible SRV heap of 16384 persistent and 4096 temporary descriptors and a DSV heap of 256, all valid and empty |
| DX12Helpers.ConstantBufferParam | SampleFramework12/v1.04/Graphics/DX12_Helpers.h:89-98 | constant buffer slot i maps to one of the first eight root parameters, never the app-settings one, within the nine parameters |
| ShaderDebug.ArgCodeSize | SampleFramework12/v1.04/Graphics/ShaderDebug.cpp:51-65 | each of the twelve argument codes stands for one to four 4-byte components, in the order scalar, 2-, 3-, 4-vector for uint, int and float |
| ShaderDebug.CString | SampleFramework12/v1.04/Graphics/ShaderDebug.cpp:254 | the text made of a string is its prefix up to the first NUL, which contains no NUL |
| ShaderDebug.DebugPrintReader.constructor | SampleFramework12/v1.04/Graphics/ShaderDebug.cpp:123-130 | the bytes to parse are the leading count plus its own 4 bytes in 32-bit arithmetic, capped to the buffer size; reading starts after the count |
| ShaderDebug.DebugPrintReader.Consume | SampleFramework12/v1.04/Graphics/ShaderDebug.cpp:132-142 | the value is present exactly when that many bytes are left; then it is the bytes at the read position and the position moves past them, otherwise nothing moves |
| ShaderDebug.DebugPrintReader.ConsumeString | SampleFramework12/v1.04/Graphics/ShaderDebug.cpp:144-158 | corrected (as written: `ShaderDebug.WrappedBoundsCheck`, a wrapped uint32 sum): the bounds are compared without wrap-around; empty and not moving for a zero size or a string that is not all there; otherwise the position moves past the string and the text is empty unless its last byte is NUL |
| ShaderDebug.DebugPrintReader.HasMoreData | SampleFramework12/v1.04/Graphics/ShaderDebug.cpp:160-163 | corrected (as written: `ShaderDebug.WrappedBoundsCheck`, a wrapped uint32 sum): more data exactly when `numBytes` bytes are left before the end of the data, compared without wrap-around |
| ShaderDebug.WrappedBoundsCheck | SampleFramework12/v1.04/Graphics/ShaderDebug.cpp:147-151 | a string size near 2^32 passes the 32-bit wrapped bounds check although the string reaches far past the data |
| ShaderDebug.Find | SampleFramework12/v1.04/Graphics/ShaderDebug.cpp:70 | a found position is at or after the start and holds the search text |
| ShaderDebug.ReplaceAllNoMatch | SampleFramework12/v1.04/Graphics/ShaderDebug.cpp:67-75 | where the search text does not occur, the text is left as it is |
| ShaderDebug.ReplaceAll | SampleFramework12/v1.04/Graphics/ShaderDebug.cpp:67-75 | the reference for `ReplaceStringInPlace`: every occurrence replaced scanning left to right, resuming after the replaced occurrence so inserted text is never rescanned; `ReplaceStringInPlace`'s loop is proved to compute it |
| ShaderDebug.ReplaceAllAtMatch | SampleFramework12/v1.04/Graphics/ShaderDebug.cpp:70-74 | at an occurrence, the replacement is put in and scanning resumes after the occurrence |
| ShaderDebug.ReplaceAllFirstMatch | SampleFramework12/v1.04/Graphics/ShaderDebug.cpp:70-74 | everything before the first occurrence is kept and that occurrence is replaced |
| ShaderDebug.ReplaceAllBySelf | SampleFramework12/v1.04/Graphics/ShaderDebug.cpp:67-75 | replacing a text by itself changes nothing |
| ShaderDebug.ReplaceStringInPlace | SampleFramework12/v1.04/Graphics/ShaderDebug.cpp:67-75 | the loop replaces every occurrence left to right and never rescans inserted text: its result is ReplaceAll |
| ShaderDebug.Placeholder | SampleFramework12/v1.04/Graphics/ShaderDebug.cpp:30-49 | the placeholder of argument i, for i below 16, is a non-empty text delimited by braces |
| ShaderDebug.ApplyArgs | SampleFramework12/v1.04/Graphics/ShaderDebug.cpp:262-275 | at most the header's argument count is applied, each consuming a code byte and at most 16 bytes of data, and an unknown code or missing data ends the loop |
| ShaderDebug.ParseRecords | SampleFramework12/v1.04/Graphics/ShaderDebug.cpp:248-278 | every logged record consumed its header and at least one byte, so the log is bounded by the bytes to parse, and the reader never reads past them |
| ShaderDebug.LastWriterIsLatest | SampleFramework12/v1.04/Graphics/ShaderDebug.cpp:294 | the frame that last copied into a readback slot is the one of the latest RenderLatency frames with that index |
| ShaderDebug.WriteSlot | SampleFramework12/v1.04/Graphics/ShaderDebug.cpp:294 | the readback slot a frame copies into is below RenderLatency |
| ShaderDebug.ReadSlotAsWritten | SampleFramework12/v1.04/Graphics/ShaderDebug.cpp:244-246 | as written, no slot before RenderLatency frames, then slot (CurrentCPUFrame + 1) mod RenderLatency |
| ShaderDebug.ReadSlotAsWrittenIsInFlight | SampleFramework12/v1.04/Graphics/ShaderDebug.cpp:244-246 | with the CPU at frame 2 and the GPU done with the frames before 1, the slot parsed as written was last written by frame 1, which may still be in flight |
| ShaderDebug.ReadSlot | SampleFramework12/v1.04/Graphics/ShaderDebug.cpp:244-246 | corrected (as written: `ShaderDebug.ReadSlotAsWritten`, slot (CurrentCPUFrame + 1) mod RenderLatency, shown in flight by `ShaderDebug.ReadSlotAsWrittenIsInFlight`): the slot parsed is the current frame's own slot, last written RenderLatency frames ago |
| ShaderDebug.ReadSlotIsFinished | SampleFramework12/v1.04/Graphics/ShaderDebug.cpp:244-246 | under the frame-counter invariant the slot parsed holds a copy the GPU has finished |
| ShaderDebug.BeginRender | SampleFramework12/v1.04/Graphics/ShaderDebug.cpp:230-286 | corrected (parses `ShaderDebug.ReadSlot`, not the as-written `ShaderDebug.ReadSlotAsWritten`): nothing is logged before RenderLatency frames; afterwards the records come from the current frame's own readback slot and their number is bounded by that slot's size |
| Profiler.FindName | SampleFramework12/v1.04/Graphics/Profiler.cpp:87-94 | a found index is a registered profile with that name; when none is found, no registered profile has it |
| Profiler.Slot | SampleFramework12/v1.04/Graphics/Profiler.cpp:96-100 | a start uses the registered index of the name, or the next free one exactly when the name is new |
| Profiler.FindProfile | SampleFramework12/v1.04/Graphics/Profiler.cpp:87-94 | the registry loop returns the first registered profile of that name, if any |
| Profiler.RegisterNew | SampleFramework12/v1.04/Graphics/Profiler.cpp:96-100 | registering a new name keeps the registry's names distinct and its unused tail unused |
| Profiler.UpdateRegistered | SampleFramework12/v1.04/Graphics/Profiler.cpp:102-113 | changing a registered entry's state but not its name keeps the registry |
| Profiler.PositiveCount | SampleFramework12/v1.04/Graphics/Profiler.cpp:223-230 | the samples counted are at most all of them, and some are counted exactly when a sample is positive |
| Profiler.MaxPositive | SampleFramework12/v1.04/Graphics/Profiler.cpp:223-230 | the running maximum is non-negative and at least every positive sample |
| Profiler.PositiveSumBound | SampleFramework12/v1.04/Graphics/Profiler.cpp:223-233 | positive samples all at most a bound sum to at most their count times the bound, and to something positive when any is counted |
| Profiler.AverageWithinMax | SampleFramework12/v1.04/Graphics/Profiler.cpp:223-233 | the average lies between zero and the maximum, and is positive exactly when some sample is |
| Profiler.Average | SampleFramework12/v1.04/Graphics/Profiler.cpp:219-232 | the average over only the positive samples, 0 when there are none; `AverageWithinMax` bounds it by the maximum and `SampleStats` proves the loop computes it |
| Profiler.SampleStats | SampleFramework12/v1.04/Graphics/Profiler.cpp:220-233 | the statistics loop yields the average and the maximum of the positive samples |
| Profiler.GpuInterval | SampleFramework12/v1.04/Graphics/Profiler.cpp:205-216 | a GPU interval is never negative, and positive exactly when the end timestamp is after the start |
| Profiler.CpuInterval | SampleFramework12/v1.04/Graphics/Profiler.cpp:197-200 | a CPU interval is non-negative exactly when the end reading is not before the start |
| Profiler.Updated | SampleFramework12/v1.04/Graphics/Profiler.cpp:192-242 | after an update the profile keeps its name and kind, is no longer finished or active, and stays well formed |
| Profiler.UpdateProfile | SampleFramework12/v1.04/Graphics/Profiler.cpp:192-242 | records one sample into the ring and recomputes the statistics, giving Updated |
| Profiler.QuerySlotsDisjoint | SampleFramework12/v1.04/Graphics/Profiler.cpp:108-113 | distinct GPU profiles use distinct timestamp queries and resolve into disjoint 16-byte ranges inside the readback buffer of MaxProfiles * 2 timestamps |
| Profiler.Profiler.constructor | SampleFramework12/v1.04/Graphics/Profiler.h:50-61 | before Initialize both registries are empty with zero counts and every flag is off |
| Profiler.Profiler.Shutdown | SampleFramework12/v1.04/Graphics/Profiler.cpp:70-78 | corrected (as written, only `numProfiles` is reset: `Profiler.ReinitializedCPURegistryFull`): both registries are freed and both counts reset, the flags kept |
| Profiler.Profiler.Initialize | SampleFramework12/v1.04/Graphics/Profiler.cpp:48-68 | corrected (through the corrected `Shutdown`; as written the CPU count survives: `Profiler.ReinitializedCPURegistryFull`): both registries hold MaxProfiles fresh entries with zero counts, and GPU profiling is on |
| Profiler.Profiler.StartProfile | SampleFramework12/v1.04/Graphics/Profiler.cpp:80-116 | with GPU profiling off returns uint64(-1) and changes nothing; otherwise finds or registers the name, marks it started and active and records query 2 * idx |
| Profiler.Profiler.EndProfile | SampleFramework12/v1.04/Graphics/Profiler.cpp:118-140 | with GPU profiling off changes nothing; otherwise marks the started profile finished, records query 2 * idx + 1 and resolves both into this frame's readback buffer |
| Profiler.Profiler.StartCPUProfile | SampleFramework12/v1.04/Graphics/Profiler.cpp:142-175 | finds or registers the name among the CPU profiles, marks it started and active with the timer reading as its start |
| Profiler.Profiler.EndCPUProfile | SampleFramework12/v1.04/Graphics/Profiler.cpp:177-190 | marks the started CPU profile finished with the timer reading as its end, nothing else changing |
| Profiler.Profiler.EndFrame | SampleFramework12/v1.04/Graphics/Profiler.cpp:244-324 | updates every registered GPU profile and then every CPU profile, reading timestamps only while GPU profiling was on, then sets GPU profiling for the next frame |
| Profiler.Profiler.GPUProfileTiming | SampleFramework12/v1.04/Graphics/Profiler.cpp:326-361 | the named GPU profile's interval this frame, never negative, and 0 for an unknown name |
| Profiler.Profiler.CPUProfileTiming | SampleFramework12/v1.04/Graphics/Profiler.cpp:363-372 | the named CPU profile's last interval, 0 for an unknown name |
| Profiler.Profiler.GPUProfileTimingAvg | SampleFramework12/v1.04/Graphics/Profiler.cpp:374-383 | the named GPU profile's average, 0 for an unknown name |
| Profiler.Profiler.CPUProfileTimingAvg | SampleFramework12/v1.04/Graphics/Profiler.cpp:385-394 | the named CPU profile's average, 0 for an unknown name |
| Profiler.Profiler.SetAlwaysEnableGPUProfiling | SampleFramework12/v1.04/Graphics/Profiler.cpp:396-399 | sets the flag and leaves the registries alone, taking effect at the next EndFrame |
| Profiler.UpdateAll | SampleFramework12/v1.04/Graphics/Profiler.cpp:294-305 | the update loop turns each of the first count entries into its Updated form and keeps the rest and the registry |
| Profiler.ReinitializedCPURegistryFull | SampleFramework12/v1.04/Graphics/Profiler.cpp:70-78 | as written, Shutdown resets only the GPU count, so a profiler whose CPU registry was full is left full of fresh entries and no CPU profile can start again |
| Profiler.CountsAfterShutdownAsWritten | SampleFramework12/v1.04/Graphics/Profiler.cpp:70-78 | as written, `Shutdown` leaves the counts (0, numCPUProfiles): only `numProfiles` is reset; `ReinitializedCPURegistryFull` shows the consequence |
| Profiler.FreshRegistryStarts | SampleFramework12/v1.04/Graphics/Profiler.cpp:142-161 | a registry with zero count and fresh entries can start any name at index 0 |
| Geometry.Flatten | SampleFramework12/v1.04/Graphics/Model.cpp:880-932 | a list of triangles becomes three indices per triangle |
| Geometry.FlattenTriangle | SampleFramework12/v1.04/Graphics/Model.cpp:880-932 | entries 3j, 3j + 1 and 3j + 2 of the index list are triangle j's three vertices |
| Geometry.FlattenBelow | SampleFramework12/v1.04/Graphics/Model.cpp:880-932 | triangles whose vertices are all below n give an index list below n |
| Geometry.TopFan | SampleFramework12/v1.04/Graphics/Model.cpp:880-891 | the top fan has one triangle per division |
| Geometry.BottomFan | SampleFramework12/v1.04/Graphics/Model.cpp:920-932 | the bottom fan has one triangle per division |
| Geometry.Band | SampleFramework12/v1.04/Graphics/Model.cpp:898-914 | a band between two rings has two triangles per quad |
| Geometry.RingStartBound | SampleFramework12/v1.04/Graphics/Model.cpp:849-860 | rings 1 to v - 1 lie strictly between the top vertex and the bottom vertex of the (v - 1) * u + 2 vertices |
| Geometry.RingsLength | SampleFramework12/v1.04/Graphics/Model.cpp:893-918 | the bands between rings 1 and row hold 2u(row - 1) triangles |
| Geometry.MakeSphereIndices | SampleFramework12/v1.04/Graphics/Model.cpp:844-945 | the sphere's index list has 6u(v - 1) entries, each naming one of its vertices, and is the top fan, the bands and the bottom fan in order |
| Geometry.SphereLength | SampleFramework12/v1.04/Graphics/Model.cpp:880-932 | a sphere has 3u indices per fan and 6u per band, 6u(v - 1) in all |
| Geometry.SphereParts | SampleFramework12/v1.04/Graphics/Model.cpp:880-932 | the sphere's index list is the top fan, then the bands, then the bottom fan |
| Geometry.SphereTopFan | SampleFramework12/v1.04/Graphics/Model.cpp:882-891 | the top loop writes the fan around vertex 0 and the first ring, every index below the vertex count |
| Geometry.SphereBottomFan | SampleFramework12/v1.04/Graphics/Model.cpp:920-932 | the bottom loop writes the fan around the last vertex and the last ring, every index below the vertex count |
| Geometry.SphereRings | SampleFramework12/v1.04/Graphics/Model.cpp:893-918 | the ring loop writes the bands between consecutive rings, every index below the vertex count |
| Geometry.SphereBand | SampleFramework12/v1.04/Graphics/Model.cpp:898-914 | one band's loop writes two triangles per quad, wrapping the last quad back to the ring's first vertex |
| Geometry.ToU16 | SampleFramework12/v1.04/Graphics/Model.cpp:884-931 | indices below a vertex count that fits 16 bits keep their value when stored as uint16 |
| Geometry.QuadIndices | SampleFramework12/v1.04/Graphics/Model.cpp:900-913 | the six indices of a quad are its two triangles |
| Geometry.TipFan | SampleFramework12/v1.04/Graphics/Model.cpp:1080-1089 | the tip fan has one triangle per division |
| Geometry.BaseFan | SampleFramework12/v1.04/Graphics/Model.cpp:1091-1099 | the base fan has one triangle per division |
| Geometry.MakeConeIndices | SampleFramework12/v1.04/Graphics/Model.cpp:1053-1112 | the cone's index array has 6 * divisions entries, each naming one of its divisions + 2 vertices |
| Geometry.FillTipTriangles | SampleFramework12/v1.04/Graphics/Model.cpp:1080-1089 | the tip loop writes the first 3 * divisions entries as the tip fan |
| Geometry.FillBaseTriangles | SampleFramework12/v1.04/Graphics/Model.cpp:1091-1099 | the base loop completes the array as the tip fan followed by the base fan |
| Geometry.WriteTriangle | SampleFramework12/v1.04/Graphics/Model.cpp:1083-1088 | three writes at the running index append one triangle and leave the rest of the array as it was |
| Geometry.ConeTrianglesProper | SampleFramework12/v1.04/Graphics/Model.cpp:1080-1099 | every cone triangle names vertices below divisions + 2, and each ring vertex's predecessor is a different vertex |
| Geometry.BoxFaces | SampleFramework12/v1.04/Graphics/Model.cpp:990-1038 | n box faces give 6n indices |
| Geometry.BoxFaceVertices | SampleFramework12/v1.04/Graphics/Model.cpp:278-326 | face f of a box uses only its own four vertices 4f to 4f + 3 |
| Geometry.BoxFacesSlice | SampleFramework12/v1.04/Graphics/Model.cpp:278-326 | entries 6f to 6f + 5 of the box's index list are face f |
| Geometry.BoxFacesBelow | SampleFramework12/v1.04/Graphics/Model.cpp:278-326 | the first n faces use only the first 4n vertices |
| Geometry.BoxIndicesPerFace | SampleFramework12/v1.04/Graphics/Model.cpp:278-326 | the box's 36 indices all name one of its 24 vertices, six per face in order, the plane's six being the first face |
| Geometry.IndexSize | SampleFramework12/v1.04/Graphics/Model.h:195 | an index is 2 or 4 bytes |
| Geometry.WholeMesh | SampleFramework12/v1.04/Graphics/Model.cpp:332-338 | a procedural mesh's single part covers all its vertices and indices with the given material |
| Geometry.Mesh.constructor | SampleFramework12/v1.04/Graphics/Model.h:234-241 | a new mesh has no vertices, indices or parts |
| Geometry.Mesh.InitCommon | SampleFramework12/v1.04/Graphics/Model.cpp:388-404 | element offsets are stored as uint32 and the views cover exactly the mesh's own vertices and indices at the given addresses |
| Geometry.Mesh.InitBox | SampleFramework12/v1.04/Graphics/Model.cpp:226-340 | writes the box's 36 sixteen-bit indices, all below its 24 vertices, and one part covering them all |
| Geometry.Mesh.InitPlane | SampleFramework12/v1.04/Graphics/Model.cpp:346-386 | writes the plane's six sixteen-bit indices, all below its four vertices, and one part covering them all |
| Model.RangesDisjoint | SampleFramework12/v1.04/Graphics/Model.cpp:596-610 | the range of mesh i in the shared buffers ends before any later mesh's range starts and inside the total, so consecutive meshes never overlap |
| Model.ProceduralIndices | SampleFramework12/v1.04/Graphics/Model.cpp:755-770 | 32-bit indices exactly when there are more than 64 * 1024 vertices; otherwise each index is cast to uint16, and with every index naming a vertex no index changes |
| Model.VertexCounts | SampleFramework12/v1.04/Graphics/Model.cpp:582-583 | the vertex count of each assimp mesh, in order |
| Model.IndexCounts | SampleFramework12/v1.04/Graphics/Model.cpp:584 | three indices per face of each assimp mesh, in order |
| Model.AssimpIndexLayout | SampleFramework12/v1.04/Graphics/Model.cpp:572-590 | 32-bit indices exactly when some mesh has more than 0xFFFF indices, and the totals of vertices and indices over all meshes |
| Model.AssimpMeshOffsets | SampleFramework12/v1.04/Graphics/Model.cpp:596-610 | mesh i's vertices start after all earlier meshes' vertices and its indices after all earlier meshes' indices, counted in bytes of the chosen index size |
| Model.Wrapped | SampleFramework12/v1.04/Graphics/Model.cpp:189-210 | the triangles as the index buffer holds them, each vertex cast to the index type |
| Model.CopyFaceIndices | SampleFramework12/v1.04/Graphics/Model.cpp:189-210 | the copy loop writes three indices per face, in order, each cast to the index type |
| Model.DenseMeshKeepsIndices | SampleFramework12/v1.04/Graphics/Model.cpp:584-587 | when a mesh's triangles use only its own vertices and it has no more vertices than indices, choosing 16-bit indices loses no index |
| Model.SparseMeshTruncates | SampleFramework12/v1.04/Graphics/Model.cpp:584-587 | the assimp criterion counts indices, not vertices: 70000 vertices and one triangle get 16-bit indices and vertex 69999 is stored as 4463 |
| Model.OnePathOneEntry | SampleFramework12/v1.04/Graphics/Model.cpp:91-101 | in a cache that never holds one path twice, one path has one entry |
| Model.MissingMetallicAndEmissiveShare | SampleFramework12/v1.04/Graphics/Model.cpp:46-54 | metallic and emissive slots without their own file share the one black default, which differs from the albedo default |
| Model.MaterialBoundGrows | SampleFramework12/v1.04/Graphics/Model.cpp:103-113 | a bound material stays bound as the cache grows at its end |
| Model.BindSlot | SampleFramework12/v1.04/Graphics/Model.cpp:96-114 | binding slot t to an entry loaded from its resolved path extends the bound slots by one |
| Model.Lookup | SampleFramework12/v1.04/Graphics/Model.cpp:91-101 | the first cache entry loaded from a path, and none exactly when no entry has that path |
| Model.PlacedUpToStep | SampleFramework12/v1.04/Graphics/Model.cpp:828-839 | placing mesh i at the running sums extends the placed prefix by one |
| Model.Model.constructor | SampleFramework12/v1.04/Graphics/Model.h:359-373 | a new model has no meshes, materials or textures and 16-bit indices |
| Model.Model.States | SampleFramework12/v1.04/Graphics/Model.cpp:828-839 | the state of every mesh, in order |
| Model.Model.CreateBuffers | SampleFramework12/v1.04/Graphics/Model.cpp:810-840 | mesh i is placed at the sums of the earlier meshes' vertex and index counts, its views at those offsets in bytes, and nothing else of a mesh changes |
| Model.Placement | SampleFramework12/v1.04/Graphics/Model.cpp:828-839 | the state `InitCommon` gives a mesh placed at running sums `vtx` and `idx`: element offsets cast to uint32, byte offsets `vtx * sizeof(MeshVertex)` and `idx * indexSize`, views as large as the mesh's own data; `PlacedUpToStep` and `CreateBuffers` use it |
| Model.Model.PlaceMesh | SampleFramework12/v1.04/Graphics/Model.cpp:833-835 | InitCommon on mesh i at the given offsets, every other mesh unchanged |
| Model.Model.LoadMaterialResources | SampleFramework12/v1.04/Graphics/Model.cpp:76-117 | every texture slot of every material is bound to a cache entry loaded from its resolved path, reusing an entry already loaded from it; the cache grows only at its end and never holds a path twice; a material stops being opaque when it has its own opacity texture |
| Model.Model.LoadMaterial | SampleFramework12/v1.04/Graphics/Model.cpp:83-115 | the texture loop binds all six slots of one material and updates its opacity, the cache only growing |
| Model.Model.FindOrLoad | SampleFramework12/v1.04/Graphics/Model.cpp:91-114 | the first entry loaded from the path, or a new entry for it at the end of the cache |
| PostProcessing.FirstFitFrom | SampleFramework12/v1.04/Graphics/PostProcessHelper.cpp:80-91 | the first free target at or after the start that matches width, height, format and UAV use; none exactly when no later target does |
| PostProcessing.FirstFit | SampleFramework12/v1.04/Graphics/PostProcessHelper.cpp:80-91 | the linear search of `GetTempRenderTarget` from the first target: `FirstFitFrom` at 0, whose ensures state the first-free-match property |
| PostProcessing.Acquire | SampleFramework12/v1.04/Graphics/PostProcessHelper.cpp:78-107 | the first fitting free target is marked in use, or else a new one with the requested parameters is appended in use; every other target is unchanged |
| PostProcessing.AcquireTwiceDistinct | SampleFramework12/v1.04/Graphics/PostProcessHelper.cpp:78-107 | two identical requests with no release in between are given two different targets |
| PostProcessing.AcquireReusesReleased | SampleFramework12/v1.04/Graphics/PostProcessHelper.cpp:80-91 | a released target that fits is handed out again instead of a new one being created |
| PostProcessing.FindPSO | SampleFramework12/v1.04/Graphics/PostProcessHelper.cpp:182-190 | the first cached pipeline state with the hash, and none exactly when no entry has it |
| PostProcessing.CachePSO | SampleFramework12/v1.04/Graphics/PostProcessHelper.cpp:182-214 | a hit leaves the cache as it is, a miss appends the created state under the hash, and afterwards the hash finds the state used |
| PostProcessing.CachePSOIdempotent | SampleFramework12/v1.04/Graphics/PostProcessHelper.cpp:182-214 | a second pass with the same hash reuses the first pass's pipeline state and adds nothing |
| PostProcessing.PSOs | SampleFramework12/v1.04/Graphics/PostProcessHelper.cpp:71-72 | the pipeline-state handles of the cache, in order |
| PostProcessing.SRVSlots | SampleFramework12/v1.04/Graphics/PostProcessHelper.cpp:226-230 | the eight slots hold the inputs in order, then the null SRV |
| PostProcessing.PostProcessHelper.constructor | SampleFramework12/v1.04/Graphics/PostProcessHelper.h:65-70 | a new helper has no temporary targets, no cached pipeline states and no open pass |
| PostProcessing.PostProcessHelper.ClearCache | SampleFramework12/v1.04/Graphics/PostProcessHelper.cpp:61-76 | both caches are emptied and every cached pipeline state is handed to deferred release, in order |
| PostProcessing.PostProcessHelper.GetTempRenderTarget | SampleFramework12/v1.04/Graphics/PostProcessHelper.cpp:78-107 | the pool and the handed-out target are those of Acquire, the pipeline cache and the pass unchanged |
| PostProcessing.PostProcessHelper.ReleaseTempRenderTarget | SampleFramework12/v1.04/Graphics/PostProcessHelper.h:22-29 | the owner clearing a target's InUse flag changes that flag and nothing else |
| PostProcessing.PostProcessHelper.Begin | SampleFramework12/v1.04/Graphics/PostProcessHelper.cpp:109-113 | with no pass open, the command list is recorded and the caches are unchanged |
| PostProcessing.PostProcessHelper.End | SampleFramework12/v1.04/Graphics/PostProcessHelper.cpp:115-122 | with a pass open and every temporary target released, the pass is closed and the caches are unchanged |
| PostProcessing.PostProcessHelper.PostProcess | SampleFramework12/v1.04/Graphics/PostProcessHelper.cpp:158-239 | the pipeline state comes from the cache as CachePSO says and the slot array holds the inputs then the null SRV |
| PostProcessing.PostProcessHelper.FillSRVIndices | SampleFramework12/v1.04/Graphics/PostProcessHelper.cpp:226-230 | the slot array holds the inputs in order, then the null SRV up to MaxInputs |
| DXRHelper.Overwrite | SampleFramework12/v1.04/Graphics/DXRHelper.cpp:42 | the bytes with the descriptor copied over them at the offset, all other bytes kept |
| DXRHelper.OverwriteKeepsBelow | SampleFramework12/v1.04/Graphics/DXRHelper.cpp:41-42 | copying into one slot leaves every byte below it unchanged, so earlier descriptors survive |
| DXRHelper.StateObjectBuilder.constructor | SampleFramework12/v1.04/Graphics/DXRHelper.h:20-25 | a builder before Init has no slots and nothing added |
| DXRHelper.StateObjectBuilder.Init | SampleFramework12/v1.04/Graphics/DXRHelper.cpp:22-31 | maxSubObjects zeroed slots and as many default records; the count is left as it was, so the builder is consistent only if nothing was added |
| DXRHelper.StateObjectBuilder.AddSubObject | SampleFramework12/v1.04/Graphics/DXRHelper.cpp:33-51 | the descriptor goes into the next free slot, the next record points at it with the type, the count grows by one and earlier descriptors are kept |
| DXRHelper.StateObjectBuilder.CopyBytes | SampleFramework12/v1.04/Graphics/DXRHelper.cpp:42 | the copy writes the descriptor into the data at the offset and nothing else |
| DXRHelper.StateObjectBuilder.BuildDesc | SampleFramework12/v1.04/Graphics/DXRHelper.cpp:53-58 | the description has the type and the count as uint32, and points at the records exactly when there is at least one |
| Sprites.ResolveTexture | SampleFramework12/v1.04/Graphics/SpriteRenderer.cpp:126-127 | a null texture stands for the default texture, any other is used as it is |
| Sprites.BatchDrawsCover | SampleFramework12/v1.04/Graphics/SpriteRenderer.cpp:144-160 | the draws of a batch draw every sprite once, in order, in chunks of one to MaxBatchSize sprites with the texture |
| Sprites.BatchDraws | SampleFramework12/v1.04/Graphics/SpriteRenderer.cpp:144-160 | the draws of `RenderBatch`: chunks of 1024 sprites from offsets 0, 1024, ..., the last holding the rest; `BatchDrawsCover` states they draw every sprite once in order |
| Sprites.BatchDrawCount | SampleFramework12/v1.04/Graphics/SpriteRenderer.cpp:145 | the number of draws is the sprite count over MaxBatchSize, rounded up |
| Sprites.BatchDrawStart | SampleFramework12/v1.04/Graphics/SpriteRenderer.cpp:145-151 | draw i starts at sprite i * MaxBatchSize |
| Sprites.Glyphs | SampleFramework12/v1.04/Graphics/SpriteRenderer.cpp:178-203 | one glyph sprite per drawn character, so at most one per character |
| Sprites.GlyphsAllDrawn | SampleFramework12/v1.04/Graphics/SpriteRenderer.cpp:181-202 | with no space or line break, every character becomes a glyph |
| Sprites.TextDrawsCover | SampleFramework12/v1.04/Graphics/SpriteRenderer.cpp:173-208 | every drawn character becomes one glyph sprite, in order, in draws of at most MaxBatchSize glyphs with the font texture |
| Sprites.TextDraws | SampleFramework12/v1.04/Graphics/SpriteRenderer.cpp:172-208 | corrected (as written: `Sprites.CharsToDrawAsWritten`): the draws of `RenderText` with each chunk bounded by the characters left, the glyphs of a chunk drawn as one batch; `TextDrawsCover` states every drawn character appears once in order |
| Sprites.TextChunkOneDraw | SampleFramework12/v1.04/Graphics/SpriteRenderer.cpp:175-205 | each chunk of the text is at most one draw |
| Sprites.CharsToDrawAsWritten | SampleFramework12/v1.04/Graphics/SpriteRenderer.cpp:175 | as written, every chunk draws the whole text's length bounded by MaxBatchSize, whatever its offset |
| Sprites.CharsToDraw | SampleFramework12/v1.04/Graphics/SpriteRenderer.cpp:175 | the corrected chunk length is the characters left bounded by MaxBatchSize: never past the end, and positive while characters remain |
| Sprites.RenderTextReadsPastEndAsWritten | SampleFramework12/v1.04/Graphics/SpriteRenderer.cpp:173-180 | as written, a text of 1025 characters is read up to index 2047 in its second chunk; the corrected chunk stops at the end |
| Sprites.CharsToDrawAgreesOnShortText | SampleFramework12/v1.04/Graphics/SpriteRenderer.cpp:175 | up to MaxBatchSize characters there is one chunk and both bounds agree on it |
| Sprites.SpriteRenderer.constructor | SampleFramework12/v1.04/Graphics/SpriteRenderer.h:100-102 | a new renderer has its text buffer and default texture and has recorded no draws |
| Sprites.SpriteRenderer.RenderBatch | SampleFramework12/v1.04/Graphics/SpriteRenderer.cpp:120-161 | records nothing for no sprites; otherwise the sprites in chunks of MaxBatchSize drawn with the texture or the default |
| Sprites.SpriteRenderer.Render | SampleFramework12/v1.04/Graphics/SpriteRenderer.cpp:103-118 | one sprite drawn as a batch of one with the texture or the default |
| Sprites.SpriteRenderer.RenderText | SampleFramework12/v1.04/Graphics/SpriteRenderer.cpp:163-209 | corrected (as written: `Sprites.CharsToDrawAsWritten`, `Min(numChars, 1024)`, read past the end by `Sprites.RenderTextReadsPastEndAsWritten`): with each chunk bounded by the characters left, records the text's glyph draws, every drawn character once, in order |
| Sprites.SpriteRenderer.RenderTextChunk | SampleFramework12/v1.04/Graphics/SpriteRenderer.cpp:175-207 | one chunk's glyphs are laid out and drawn as one batch with the font texture |
| Sprites.SpriteRenderer.LayOutChunk | SampleFramework12/v1.04/Graphics/SpriteRenderer.cpp:178-203 | the inner loop writes one glyph sprite per drawn character of the chunk, in order, at the front of the text buffer |

## Left out

- Concurrency: the background upload task and the enkiTS scheduler (MemPoolTest/MemPoolTest.cpp:61-96, 154-171), and the locks and interlocked operations of the descriptor heap, the upload queues, the upload ring, the fast uploader and the temporary-memory allocator. Everything is modelled single-threaded.
- DX12Upload.UploadRingBuffer.Reserve: requires every pending submission to have been submitted (`AllSubmitted`). In the source another thread may still hold an unsubmitted submission at the head. `ClearPendingUploads` stops at such a head without retiring anything (SampleFramework12/v1.04/Graphics/DX12_Upload.cpp:199-200), so the retry loop (SampleFramework12/v1.04/Graphics/DX12_Upload.cpp:335-339) spins until that thread calls `End`. On a single thread it would spin forever, so the model leaves the case out.
- DX12Upload.UploadRingBuffer.Begin: requires `AllSubmitted` for the same reason, since it calls `Reserve`.
- DX12Upload.UploadRingBuffer.Flush: requires `AllSubmitted`; otherwise its loop `while(SubmissionUsed > 0) ClearPendingUploads(...)` (SampleFramework12/v1.04/Graphics/DX12_Upload.cpp:236-237) would spin forever on a single thread.
- DX12Upload.FlushUpload: requires `AllSubmitted` because it runs the ring's `Flush`.
- DX12.Frames.EndFrame: models the frame counters and the deferred releases and SRV creates. The `EndFrame_Upload` and `EndFrame_Helpers` calls of the same function (SampleFramework12/v1.04/Graphics/DX12.cpp:304, 334) are modelled on their own, as DX12Upload.EndFrameUpload and as GraphicsTypes.DescriptorHeap.EndFrame, which `EndFrame_Helpers` calls on each of its three descriptor heaps. They are not composed with it.
- DX12.Frames.FlushGPU: models the wait for the GPU and the processing of every slot. The `Flush_Upload` call at its start (SampleFramework12/v1.04/Graphics/DX12.cpp:345) is modelled on its own as DX12Upload.FlushUpload and is not composed with it.
- MemPoolTest.MemPoolTest.Update: on a frame where the benchmark applies a configuration, it states neither that the settings still hold that configuration after the page-property clamp nor which invalidation lists fire. Those lists depend on which applied values differ from the previous ones. TickWithVSync states that the configuration is applied.
- Every D3D12 and DXGI call: creating heaps, resources, views and pipeline states, recording and executing command lists, fence signals and waits, and presenting. Objects are opaque handles. A fence wait is modelled by its effect on the frame counters or by the completed value given as an input.
- `CreateStateObject` (SampleFramework12/v1.04/Graphics/DXRHelper.cpp:60-69): it only hands the built description to the device.
- Floating point: vertex positions, bounding boxes, sprite transforms and text positions, and the float, direction, orientation and colour settings.
  - Benchmark timings and profiler times are real numbers, computed exactly without `double` rounding.
  - The benchmark's bandwidth column and the CSV number formatting are not modelled.
- UI and windowing: ImGui widgets (a setting's `Update` takes the widget's value as an input), `RenderHUD`, the profiler's UI and clipboard logging, the window and the swap chain.
- I/O: writing the CSV file, reading a model through assimp (an assimp mesh is its vertex count and its faces), the model cache, `LoadTexture` (loading a material texture records its path and whether it is read as sRGB), and shader compilation (`CompileComputeJob` records the defines it compiles with).
- `MakeArgString` and the number formatting of a debug-print argument: the formatting is a parameter of the parser.
- Hashing: the pipeline-state hash of a post-processing pass is an input, and MurmurHash is not part of this model.
- Shutting down a pooled render target in `PostProcessHelper::ClearCache` (SampleFramework12/v1.04/Graphics/PostProcessHelper.cpp:63-68): the pool is emptied, and the release of each texture is a device call.
- `SpriteRenderer` initialisation, `Begin`/`End` and pipeline creation. The font's glyph lookup identifies a glyph by its character.
- The integer packing constructors of `UByte4N` and `UShort4N` in SF12_Math.h: no round trip holds for them, and they are not modelled.
- `MaxSubObjDescSize` is the size of `D3D12_HIT_GROUP_DESC` on a 64-bit target, and the check of a sub-object type against `D3D12_STATE_SUBOBJECT_TYPE_MAX_VALID` is a bound on a type number. That bound is taken from the DXR 1.1 headers (13). Its real value depends on the D3D12 headers the framework is built with: with `EnableWorkGraphsPreview_` set, `StateObjectBuilder` also adds a `D3D12_STATE_SUBOBJECT_TYPE_WORK_GRAPH` sub-object (SampleFramework12/v1.04/Graphics/DXRHelper.h:84-88), which the assertion must then accept, and the model does not cover that header version.
- Containers' copy, move and destructor semantics: an element type's default value is the value a container is created with.
- ShaderDebug.ApplyArgs: states the bounds of what the argument loop consumes and how many arguments it applies, not the text the substitutions produce.
- ShaderDebug.ParseRecords: states that the reader stays in bounds and that the number of records is bounded by the bytes read, not the text of each logged record.
- ShaderDebug.BeginRender: inherits the bounds of ParseRecords; the text of the log is not stated.
- Model.Model.LoadMaterialResources: states only that a newly loaded texture is read as sRGB if sRGB is forced. It does not state that exactly the albedo textures are sRGB when sRGB is forced.
- Model.Model.LoadMaterial: the same weaker statement about the sRGB flag of the textures it loads. Model.Model.FindOrLoad states the exact flag it stores.

## Findings

| source | as written | input that shows it | evidently intended | confidence | as-written member | corrected member |
|---|---|---|---|---|---|---|
| SampleFramework12/v1.04/Containers.h:119-137 | `Array::Resize` copies the old number of elements into the new block, also when it shrinks | shrinking [1, 2, 3, 4] to 2 writes elements 2 and 3 past the new block | copy the smaller of the two sizes | high, not executed | Containers.ResizeAsWrittenShrinkExample | Containers.Array.Resize |
| SampleFramework12/v1.04/Containers.h:445-460 | `List::Remove` moves the last element into the freed slot instead of shifting the tail down | removing index 0 of [0, 1, 2] gives [2, 1] | the order-preserving removal [1, 2] | medium, not executed | Containers.RemovedAsWrittenReorders | Containers.List.RemoveInOrder |
| SampleFramework12/v1.04/Containers.h:462-474 | `List::RemoveMultiple` shifts only as many elements as it removes, so the rest of the tail is lost | removing one element at 0 of [0, 1, 2, 3] gives [1, 1, 2] | [1, 2, 3] | high, not executed | Containers.RemovedMultipleAsWrittenLosesTail | Containers.List.RemoveMultipleInOrder |
| SampleFramework12/v1.04/Graphics/SpriteRenderer.cpp:173-208 | each chunk of `RenderText` draws `Min(numChars, MaxBatchSize)` characters from its offset, not the characters left | a text of 1025 characters: the second chunk reads indices 1024 to 2047 | `Min(numCharsLeft, MaxBatchSize)` | high, not executed | Sprites.RenderTextReadsPastEndAsWritten | Sprites.SpriteRenderer.RenderText |
| MemPoolTest/MemPoolTest.cpp:305-459 | `CreateBuffers` stores `outputBuffer.UAV` in `OutputBufferIdx` after `outputBuffer.Shutdown()` freed it and before `outputBuffer.Initialize` allocates the new one | any call: the setting receives uint32(-1), stored as -1 | the new output buffer's UAV | high, not executed | MemPoolTest.OutputBufferIdxAsWrittenIsStale | MemPoolTest.MemPoolTest.CreateBuffers |
| SampleFramework12/v1.04/Graphics/GraphicsTypes.cpp:314-337 | `Buffer::Initialize` advances the destination offset of its initial copies by the unaligned size instead of the aligned slice size | a dynamic buffer of 100 bytes aligned to 256: the second copy lands at 100, not at slice start 256 | copy k at k times the aligned size | high, not executed | GraphicsBuffers.InitCopyMisplaced | GraphicsBuffers.InitCopiesFitSlices |
| SampleFramework12/v1.04/Graphics/ShaderDebug.cpp:144-163 | `ConsumeString` and `HasMoreData` compare a wrapped `uint32` sum of offset and size with the data size | offset 16, string size 2^32 - 8, data size 64 passes the check and reads far past the data | compare without wrap-around | medium, not executed | ShaderDebug.WrappedBoundsCheck | ShaderDebug.DebugPrintReader.ConsumeString |
| SampleFramework12/v1.04/Graphics/ShaderDebug.cpp:244-246 | `BeginRender` parses readback slot (CurrentCPUFrame + 1) mod RenderLatency, which the previous frame copied into | CPU frame 2 with the GPU done only with the frames before 1: slot 1 was written by frame 1, which may still be in flight | the current frame's slot, written RenderLatency frames ago | medium, not executed | ShaderDebug.ReadSlotAsWrittenIsInFlight | ShaderDebug.ReadSlotIsFinished |
| SampleFramework12/v1.04/Graphics/Profiler.cpp:70-78 | `Shutdown` resets `numProfiles` but not `numCPUProfiles` | shut down and re-initialise a profiler with 64 CPU profiles: the count stays 64 over fresh entries and no CPU profile can start | reset both counts | high, not executed | Profiler.ReinitializedCPURegistryFull | Profiler.Profiler.Shutdown |
