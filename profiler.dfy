/**
 * SampleFramework12's profiler: the registry of named GPU and CPU profiles (found by the
 * identity of their name pointer), the start/end protocol of each profile, the timestamp
 * query slots a GPU profile records into the command list, and the 64-entry ring of time
 * samples whose positive entries give a profile's average and maximum time.
 *
 * Name pointers are opaque handles (0 is null). Times are real numbers: the C++ `double`
 * arithmetic is modelled exactly, without rounding. The command list is the sequence of
 * timestamp commands recorded into it; the timestamp frequency, the timer's reading and the
 * readback buffer's contents are inputs.
 */
module Profiler {
  import opened Ints
  import opened Wrappers
  import DX12

  /** `MaxProfiles`: the capacity of each registry. */
  const MAX_PROFILES: nat := 64

  /** `ProfileData::FilterSize`: the length of each profile's sample ring. */
  const FILTER_SIZE: nat := 64

  /** The null name pointer. */
  const NULL_NAME: nat := 0

  /** `uint64(-1)`: what `StartProfile` returns while GPU profiling is disabled. */
  const INVALID_INDEX: u64 := U64_MAX

  /** `sizeof(uint64)`: the size of one resolved timestamp. */
  const TIMESTAMP_SIZE: nat := 8

  /** `ProfileData`. */
  datatype ProfileData = ProfileData(
    name: nat,
    queryStarted: bool,
    queryFinished: bool,
    active: bool,
    cpuProfile: bool,
    startTime: int,
    endTime: int,
    timeSamples: seq<real>,
    currSample: nat,
    averageTime: real,
    maxTime: real)
  {
    predicate WellFormed()
    {
      |timeSamples| == FILTER_SIZE && currSample < FILTER_SIZE
    }

    /** An entry no start has touched: null name, neither started nor finished. */
    predicate Unused()
    {
      name == NULL_NAME && !queryStarted && !queryFinished
    }
  }

  /** A default-constructed `ProfileData`, as `Array::Init` leaves each entry. */
  const DEFAULT_PROFILE: ProfileData :=
    ProfileData(NULL_NAME, false, false, false, false, 0, 0, seq(FILTER_SIZE, k => 0.0), 0, 0.0, 0.0)

  /** A freshly initialized registry. */
  const FRESH_TABLE: seq<ProfileData> := seq(MAX_PROFILES, k => DEFAULT_PROFILE)

  /** The timestamp work a GPU profile records into its command list. */
  datatype GpuCommand =
    | EndQuery(queryIdx: nat)
    | ResolveQueryData(startIdx: nat, numQueries: nat, readbackBuffer: nat, dstOffset: nat)

  /** The first of the `count` registered profiles named `name`, if any. */
  function FindName(ps: seq<ProfileData>, count: nat, name: nat): (r: Option<nat>)
    requires count <= |ps|
    ensures r.Some? ==>
      r.value < count && ps[r.value].name == name && forall j :: 0 <= j < r.value ==> ps[j].name != name
    ensures r.None? ==> forall j :: 0 <= j < count ==> ps[j].name != name
  {
    if count == 0 then None
    else match FindName(ps, count - 1, name)
      case Some(i) => Some(i)
      case None => if ps[count - 1].name == name then Some(count - 1) else None
  }

  /** The index a start of `name` uses: its registered index, or the next free one. */
  function Slot(ps: seq<ProfileData>, count: nat, name: nat): (r: nat)
    requires count <= |ps|
    ensures r <= count
    ensures r < count <==> exists j :: 0 <= j < count && ps[j].name == name
  {
    match FindName(ps, count, name)
    case Some(i) => i
    case None => count
  }

  /**
   * The assertions of a start of `name`: a new name must fit in the registry, and the
   * profile must be neither started nor finished.
   */
  predicate CanStart(ps: seq<ProfileData>, count: nat, name: nat)
    requires count <= |ps| == MAX_PROFILES
  {
    var i := Slot(ps, count, name);
    i < MAX_PROFILES && !ps[i].queryStarted && !ps[i].queryFinished
  }

  /**
   * A registry of `count` profiles: well-formed entries, registered names non-null and
   * distinct, entries past `count` unused.
   */
  ghost predicate Registry(ps: seq<ProfileData>, count: nat)
  {
    |ps| == MAX_PROFILES && count <= MAX_PROFILES
    && (forall i :: 0 <= i < MAX_PROFILES ==> ps[i].WellFormed())
    && (forall i :: 0 <= i < count ==> ps[i].name != NULL_NAME)
    && (forall i, j :: 0 <= i < j < count ==> ps[i].name != ps[j].name)
    && (forall i :: count <= i < MAX_PROFILES ==> ps[i].Unused())
  }

  /** The registry loop of `StartProfile`, `StartCPUProfile` and the timing lookups. */
  method FindProfile(ps: seq<ProfileData>, count: nat, name: nat) returns (r: Option<nat>)
    requires count <= |ps|
    ensures r == FindName(ps, count, name)
  {
    var i: nat := 0;
    while i < count
      invariant i <= count
      invariant forall j :: 0 <= j < i ==> ps[j].name != name
    {
      if ps[i].name == name {
        return Some(i);
      }
      i := i + 1;
    }
    return None;
  }

  /** Registering `name` in a registry that does not hold it keeps it a registry. */
  lemma RegisterNew(ps: seq<ProfileData>, count: nat, name: nat, p: ProfileData)
    requires Registry(ps, count) && count < MAX_PROFILES && name != NULL_NAME
    requires FindName(ps, count, name).None? && p.WellFormed() && p.name == name
    ensures Registry(ps[count := p], count + 1)
  {
  }

  /** Changing a registered entry's state but not its name keeps a registry. */
  lemma UpdateRegistered(ps: seq<ProfileData>, count: nat, i: nat, p: ProfileData)
    requires Registry(ps, count) && i < count && p.WellFormed() && p.name == ps[i].name
    ensures Registry(ps[i := p], count)
  {
  }

  // ---- the sample ring -------------------------------------------------------------------

  /** A sample, if it is positive; zero otherwise. */
  function PositivePart(x: real): (r: real)
    ensures r >= 0.0 && (r > 0.0 <==> x > 0.0) && (x > 0.0 ==> r == x)
  {
    if x > 0.0 then x else 0.0
  }

  /** The sum of the positive samples. */
  function PositiveSum(s: seq<real>): (r: real)
    ensures r >= 0.0
  {
    if |s| == 0 then 0.0 else PositiveSum(s[..|s| - 1]) + PositivePart(s[|s| - 1])
  }

  /** The number of positive samples. */
  function PositiveCount(s: seq<real>): (r: nat)
    ensures r <= |s|
    ensures r > 0 <==> exists i :: 0 <= i < |s| && s[i] > 0.0
  {
    if |s| == 0 then 0
    else
      var n := PositiveCount(s[..|s| - 1]);
      if s[|s| - 1] > 0.0 then n + 1 else n
  }

  /** The running maximum of the positive samples, starting from zero. */
  function MaxPositive(s: seq<real>): (r: real)
    ensures r >= 0.0
    ensures forall i :: 0 <= i < |s| && s[i] > 0.0 ==> s[i] <= r
    ensures r == 0.0 || exists i :: 0 <= i < |s| && s[i] == r
  {
    if |s| == 0 then 0.0
    else
      var m := MaxPositive(s[..|s| - 1]);
      var x := s[|s| - 1];
      if x > 0.0 then (if x < m then m else x) else m
  }

  /** The average of the positive samples, zero when there is none. */
  function Average(s: seq<real>): real
  {
    var n := PositiveCount(s);
    if n > 0 then PositiveSum(s) / n as real else 0.0
  }

  /** `n` copies of `m` added up. */
  function Scaled(n: nat, m: real): real
  {
    if n == 0 then 0.0 else Scaled(n - 1, m) + m
  }

  lemma {:induction false} ScaledIsProduct(n: nat, m: real)
    ensures Scaled(n, m) == n as real * m
  {
    if n > 0 {
      ScaledIsProduct(n - 1, m);
    }
  }

  /** Positive samples all at most `bound` sum to at most their number of copies of it. */
  lemma {:induction false} PositiveSumBound(s: seq<real>, bound: real)
    requires forall i :: 0 <= i < |s| && s[i] > 0.0 ==> s[i] <= bound
    ensures PositiveSum(s) <= Scaled(PositiveCount(s), bound)
    ensures PositiveCount(s) > 0 ==> PositiveSum(s) > 0.0
  {
    if |s| > 0 {
      var t := s[..|s| - 1];
      assert forall i :: 0 <= i < |t| ==> t[i] == s[i];
      PositiveSumBound(t, bound);
    }
  }

  /**
   * The average lies between zero and the maximum, and it is positive exactly when some
   * sample is.
   */
  lemma AverageWithinMax(s: seq<real>)
    ensures 0.0 <= Average(s) <= MaxPositive(s)
    ensures Average(s) > 0.0 <==> exists i :: 0 <= i < |s| && s[i] > 0.0
  {
    var m := MaxPositive(s);
    PositiveSumBound(s, m);
    var n := PositiveCount(s);
    if n > 0 {
      RatioBounds(PositiveSum(s), n, m);
    }
  }

  /** A positive sum of `n` values, each at most `m`, averages to a value in (0, m]. */
  lemma RatioBounds(sum: real, n: nat, m: real)
    requires n > 0 && 0.0 < sum <= Scaled(n, m)
    ensures 0.0 < sum / n as real <= m
  {
    ScaledIsProduct(n, m);
    assert sum / n as real * n as real == sum;
  }

  /** The statistics loop of `UpdateProfile`: average and maximum of the positive samples. */
  method SampleStats(samples: seq<real>) returns (avg: real, mx: real)
    ensures avg == Average(samples) && mx == MaxPositive(samples)
  {
    var sum := 0.0;
    var n: nat := 0;
    mx := 0.0;
    var i: nat := 0;
    while i < |samples|
      invariant i <= |samples|
      invariant sum == PositiveSum(samples[..i]) && n == PositiveCount(samples[..i])
      invariant mx == MaxPositive(samples[..i])
    {
      assert samples[..i + 1][..i] == samples[..i];
      if samples[i] > 0.0 {
        mx := if samples[i] < mx then mx else samples[i];
        sum := sum + samples[i];
        n := n + 1;
      }
      i := i + 1;
    }
    assert samples[..i] == samples;
    avg := if n > 0 then sum / n as real else 0.0;
  }

  /** A GPU interval in milliseconds: zero unless the end timestamp is after the start. */
  function GpuInterval(startTime: u64, endTime: u64, gpuFrequency: nat): (r: real)
    requires gpuFrequency > 0
    ensures r >= 0.0 && (r > 0.0 <==> endTime > startTime)
  {
    if endTime > startTime then (endTime - startTime) as real / gpuFrequency as real * 1000.0 else 0.0
  }

  /** A CPU interval in milliseconds, from microsecond timer readings. */
  function CpuInterval(startTime: int, endTime: int): (r: real)
    ensures r >= 0.0 <==> endTime >= startTime
  {
    (endTime - startTime) as real / 1000.0
  }

  /** The sample `UpdateProfile` records for profile `idx`. */
  function SampleTime(p: ProfileData, idx: nat, gpuFrequency: nat, queryData: Option<seq<u64>>): real
    requires gpuFrequency > 0 && (queryData.Some? ==> 2 * idx + 1 < |queryData.value|)
  {
    if p.cpuProfile then CpuInterval(p.startTime, p.endTime)
    else if queryData.Some? then GpuInterval(queryData.value[2 * idx], queryData.value[2 * idx + 1], gpuFrequency)
    else 0.0
  }

  /** A profile after `UpdateProfile`. */
  function Updated(p: ProfileData, idx: nat, gpuFrequency: nat, queryData: Option<seq<u64>>): (r: ProfileData)
    requires p.WellFormed() && gpuFrequency > 0 && (queryData.Some? ==> 2 * idx + 1 < |queryData.value|)
    ensures r.WellFormed() && r.name == p.name && r.cpuProfile == p.cpuProfile
    ensures !r.queryFinished && !r.active && r.queryStarted == p.queryStarted
    ensures r.currSample == (p.currSample + 1) % FILTER_SIZE
    ensures r.timeSamples[p.currSample] == SampleTime(p, idx, gpuFrequency, queryData)
    ensures forall k :: 0 <= k < FILTER_SIZE && k != p.currSample ==> r.timeSamples[k] == p.timeSamples[k]
    ensures 0.0 <= r.averageTime <= r.maxTime
    ensures forall k :: 0 <= k < FILTER_SIZE && r.timeSamples[k] > 0.0 ==> r.timeSamples[k] <= r.maxTime
  {
    var s := p.timeSamples[p.currSample := SampleTime(p, idx, gpuFrequency, queryData)];
    AverageWithinMax(s);
    p.(queryFinished := false, active := false, timeSamples := s,
       currSample := (p.currSample + 1) % FILTER_SIZE, averageTime := Average(s), maxTime := MaxPositive(s))
  }

  /** `UpdateProfile`: records one sample and recomputes the statistics. */
  method UpdateProfile(p: ProfileData, idx: nat, gpuFrequency: nat, queryData: Option<seq<u64>>)
    returns (q: ProfileData)
    requires p.WellFormed() && gpuFrequency > 0 && (queryData.Some? ==> 2 * idx + 1 < |queryData.value|)
    ensures q == Updated(p, idx, gpuFrequency, queryData)
  {
    var time := SampleTime(p, idx, gpuFrequency, queryData);
    var samples := p.timeSamples[p.currSample := time];
    var avg, mx := SampleStats(samples);
    q := p.(queryFinished := false, active := false, timeSamples := samples,
            currSample := (p.currSample + 1) % FILTER_SIZE, averageTime := avg, maxTime := mx);
  }

  /**
   * Distinct GPU profiles record into distinct timestamp queries and resolve into disjoint
   * 16-byte ranges of the readback buffer, all inside its `MaxProfiles * 2` timestamps.
   */
  lemma QuerySlotsDisjoint(i: nat, j: nat)
    requires i < MAX_PROFILES && j < MAX_PROFILES && i != j
    ensures 2 * i + 1 < 2 * MAX_PROFILES && 2 * i * TIMESTAMP_SIZE + 2 * TIMESTAMP_SIZE <= 2 * MAX_PROFILES * TIMESTAMP_SIZE
    ensures 2 * i != 2 * j && 2 * i != 2 * j + 1 && 2 * i + 1 != 2 * j && 2 * i + 1 != 2 * j + 1
    ensures 2 * i * TIMESTAMP_SIZE + 2 * TIMESTAMP_SIZE <= 2 * j * TIMESTAMP_SIZE
         || 2 * j * TIMESTAMP_SIZE + 2 * TIMESTAMP_SIZE <= 2 * i * TIMESTAMP_SIZE
    ensures 2 * i < TWO_32
  {
  }

  // ---- the profiler ----------------------------------------------------------------------

  class Profiler {
    var profiles: seq<ProfileData>
    var cpuProfiles: seq<ProfileData>
    var numProfiles: nat
    var numCPUProfiles: nat
    var enableGPUProfiling: bool
    var showUI: bool
    var alwaysEnableGPUProfiling: bool
    /** The timestamp commands recorded into the command list. */
    var recorded: seq<GpuCommand>

    ghost predicate Valid()
      reads this
    {
      Registry(profiles, numProfiles) && Registry(cpuProfiles, numCPUProfiles)
    }

    /** The global profiler before `Initialize`: the header's field defaults. */
    constructor ()
      ensures profiles == [] && cpuProfiles == [] && numProfiles == 0 && numCPUProfiles == 0
      ensures !enableGPUProfiling && !showUI && !alwaysEnableGPUProfiling && recorded == []
    {
      profiles, cpuProfiles := [], [];
      numProfiles, numCPUProfiles := 0, 0;
      enableGPUProfiling, showUI, alwaysEnableGPUProfiling := false, false, false;
      recorded := [];
    }

    /** `Shutdown`: frees both registries and forgets every profile. */
    method Shutdown()
      modifies this
      ensures profiles == [] && cpuProfiles == [] && numProfiles == 0 && numCPUProfiles == 0
      ensures enableGPUProfiling == old(enableGPUProfiling) && showUI == old(showUI)
      ensures alwaysEnableGPUProfiling == old(alwaysEnableGPUProfiling) && recorded == old(recorded)
    {
      profiles, cpuProfiles := [], [];
      numProfiles, numCPUProfiles := 0, 0;
    }

    /** `Initialize`: shuts down, enables GPU profiling and allocates both registries. */
    method Initialize()
      modifies this
      ensures Valid() && numProfiles == 0 && numCPUProfiles == 0 && enableGPUProfiling
      ensures profiles == FRESH_TABLE && cpuProfiles == FRESH_TABLE
      ensures showUI == old(showUI) && alwaysEnableGPUProfiling == old(alwaysEnableGPUProfiling)
      ensures recorded == old(recorded)
    {
      Shutdown();
      enableGPUProfiling := true;
      profiles, cpuProfiles := FRESH_TABLE, FRESH_TABLE;
    }

    /**
     * `StartProfile`: while GPU profiling is disabled, returns `uint64(-1)` and does nothing.
     * Otherwise finds or registers `name`, marks the profile started and active, and records
     * its start timestamp into query `2 * idx`.
     */
    method StartProfile(name: nat) returns (idx: u64)
      requires Valid() && name != NULL_NAME
      requires enableGPUProfiling ==> CanStart(profiles, numProfiles, name)
      modifies this
      ensures Valid()
      ensures !old(enableGPUProfiling) ==> idx == INVALID_INDEX && unchanged(this)
      ensures old(enableGPUProfiling) ==>
        && idx == Slot(old(profiles), old(numProfiles), name) && idx < MAX_PROFILES
        && numProfiles == (if idx == old(numProfiles) then old(numProfiles) + 1 else old(numProfiles))
        && profiles == old(profiles)[idx := old(profiles)[idx].(name := name, cpuProfile := false,
                                                                 active := true, queryStarted := true)]
        && recorded == old(recorded) + [EndQuery(2 * idx)]
        && cpuProfiles == old(cpuProfiles) && numCPUProfiles == old(numCPUProfiles)
        && enableGPUProfiling && showUI == old(showUI)
        && alwaysEnableGPUProfiling == old(alwaysEnableGPUProfiling)
    {
      if !enableGPUProfiling {
        return INVALID_INDEX;
      }
      var found := FindProfile(profiles, numProfiles, name);
      var i: nat;
      if found.None? {
        i := numProfiles;
        numProfiles := numProfiles + 1;
      } else {
        i := found.value;
      }
      var p := profiles[i].(name := name, cpuProfile := false, active := true, queryStarted := true);
      if found.None? {
        RegisterNew(profiles, i, name, p);
      } else {
        UpdateRegistered(profiles, numProfiles, i, p);
      }
      profiles := profiles[i := p];
      recorded := recorded + [EndQuery(2 * i)];
      idx := i;
    }

    /**
     * `EndProfile`: a no-op while GPU profiling is disabled. Otherwise marks the started
     * profile finished, records its end timestamp into query `2 * idx + 1` and resolves both
     * queries into this frame's readback buffer at byte `16 * idx`.
     */
    method EndProfile(idx: u64, currFrameIdx: nat)
      requires Valid() && currFrameIdx < DX12.RENDER_LATENCY
      requires enableGPUProfiling ==>
        idx < numProfiles && profiles[idx].queryStarted && !profiles[idx].queryFinished
      modifies this
      ensures Valid()
      ensures !old(enableGPUProfiling) ==> unchanged(this)
      ensures old(enableGPUProfiling) ==>
        && profiles == old(profiles)[idx := old(profiles)[idx].(queryStarted := false, queryFinished := true)]
        && recorded == old(recorded) + [EndQuery(2 * idx + 1),
                                        ResolveQueryData(2 * idx, 2, currFrameIdx, 2 * idx * TIMESTAMP_SIZE)]
        && numProfiles == old(numProfiles) && cpuProfiles == old(cpuProfiles)
        && numCPUProfiles == old(numCPUProfiles) && enableGPUProfiling == old(enableGPUProfiling)
        && showUI == old(showUI) && alwaysEnableGPUProfiling == old(alwaysEnableGPUProfiling)
    {
      if !enableGPUProfiling {
        return;
      }
      var startQueryIdx := 2 * idx;
      var p := profiles[idx].(queryStarted := false, queryFinished := true);
      UpdateRegistered(profiles, numProfiles, idx, p);
      profiles := profiles[idx := p];
      recorded := recorded + [EndQuery(startQueryIdx + 1),
                              ResolveQueryData(startQueryIdx, 2, currFrameIdx, startQueryIdx * TIMESTAMP_SIZE)];
    }

    /**
     * `StartCPUProfile`: finds or registers `name` among the CPU profiles, marks it started
     * and active, and stores the timer's reading `now` as its start time.
     */
    method StartCPUProfile(name: nat, now: int) returns (idx: u64)
      requires Valid() && name != NULL_NAME && CanStart(cpuProfiles, numCPUProfiles, name)
      modifies this
      ensures Valid()
      ensures idx == Slot(old(cpuProfiles), old(numCPUProfiles), name) && idx < MAX_PROFILES
      ensures numCPUProfiles == (if idx == old(numCPUProfiles) then old(numCPUProfiles) + 1 else old(numCPUProfiles))
      ensures cpuProfiles == old(cpuProfiles)[idx := old(cpuProfiles)[idx].(name := name, cpuProfile := true,
                                                                             active := true, startTime := now,
                                                                             queryStarted := true)]
      ensures profiles == old(profiles) && numProfiles == old(numProfiles) && recorded == old(recorded)
      ensures enableGPUProfiling == old(enableGPUProfiling) && showUI == old(showUI)
      ensures alwaysEnableGPUProfiling == old(alwaysEnableGPUProfiling)
    {
      var found := FindProfile(cpuProfiles, numCPUProfiles, name);
      var i: nat;
      if found.None? {
        i := numCPUProfiles;
        numCPUProfiles := numCPUProfiles + 1;
      } else {
        i := found.value;
      }
      var p := cpuProfiles[i].(name := name, cpuProfile := true, active := true, startTime := now, queryStarted := true);
      if found.None? {
        RegisterNew(cpuProfiles, i, name, p);
      } else {
        UpdateRegistered(cpuProfiles, numCPUProfiles, i, p);
      }
      cpuProfiles := cpuProfiles[i := p];
      idx := i;
    }

    /** `EndCPUProfile`: marks the started CPU profile finished at the timer's reading `now`. */
    method EndCPUProfile(idx: u64, now: int)
      requires Valid() && idx < numCPUProfiles
      requires cpuProfiles[idx].queryStarted && !cpuProfiles[idx].queryFinished
      modifies this
      ensures Valid()
      ensures cpuProfiles == old(cpuProfiles)[idx := old(cpuProfiles)[idx].(endTime := now, queryStarted := false,
                                                                             queryFinished := true)]
      ensures numCPUProfiles == old(numCPUProfiles) && profiles == old(profiles) && numProfiles == old(numProfiles)
      ensures recorded == old(recorded) && enableGPUProfiling == old(enableGPUProfiling)
      ensures showUI == old(showUI) && alwaysEnableGPUProfiling == old(alwaysEnableGPUProfiling)
    {
      var p := cpuProfiles[idx].(endTime := now, queryStarted := false, queryFinished := true);
      UpdateRegistered(cpuProfiles, numCPUProfiles, idx, p);
      cpuProfiles := cpuProfiles[idx := p];
    }

    /**
     * `EndFrame`: updates every registered GPU profile, then every CPU profile, reading this
     * frame's timestamps only while GPU profiling is enabled; then enables GPU profiling
     * for the next frame exactly when the timing window is shown or profiling is forced on.
     * `uiShown` is whether the window is shown after this frame's interaction.
     */
    method EndFrame(uiShown: bool, gpuFrequency: nat, queryData: seq<u64>)
      requires Valid() && gpuFrequency > 0 && |queryData| == 2 * MAX_PROFILES
      modifies this
      ensures Valid()
      ensures var data := if old(enableGPUProfiling) then Some(queryData) else None;
        && (forall i :: 0 <= i < MAX_PROFILES ==>
              profiles[i] == if i < numProfiles then Updated(old(profiles)[i], i, gpuFrequency, data) else old(profiles)[i])
        && (forall i :: 0 <= i < MAX_PROFILES ==>
              cpuProfiles[i] == if i < numCPUProfiles then Updated(old(cpuProfiles)[i], i, gpuFrequency, data) else old(cpuProfiles)[i])
      ensures numProfiles == old(numProfiles) && numCPUProfiles == old(numCPUProfiles) && recorded == old(recorded)
      ensures showUI == uiShown && alwaysEnableGPUProfiling == old(alwaysEnableGPUProfiling)
      ensures enableGPUProfiling == (uiShown || alwaysEnableGPUProfiling)
    {
      var data := if enableGPUProfiling then Some(queryData) else None;
      profiles := UpdateAll(profiles, numProfiles, gpuFrequency, data);
      cpuProfiles := UpdateAll(cpuProfiles, numCPUProfiles, gpuFrequency, data);
      showUI := uiShown;
      enableGPUProfiling := showUI || alwaysEnableGPUProfiling;
    }

    /** `GPUProfileTiming`: this frame's interval of the named GPU profile, 0 if unknown. */
    method GPUProfileTiming(name: nat, gpuFrequency: nat, queryData: seq<u64>) returns (t: real)
      requires Valid() && gpuFrequency > 0 && |queryData| == 2 * MAX_PROFILES
      ensures t >= 0.0
      ensures forall i :: 0 <= i < numProfiles && profiles[i].name == name ==>
        t == GpuInterval(queryData[2 * i], queryData[2 * i + 1], gpuFrequency)
      ensures (forall i :: 0 <= i < numProfiles ==> profiles[i].name != name) ==> t == 0.0
    {
      var found := FindProfile(profiles, numProfiles, name);
      if found.None? {
        return 0.0;
      }
      var i := found.value;
      t := GpuInterval(queryData[2 * i], queryData[2 * i + 1], gpuFrequency);
    }

    /** `CPUProfileTiming`: the last interval of the named CPU profile, 0 if unknown. */
    method CPUProfileTiming(name: nat) returns (t: real)
      requires Valid()
      ensures forall i :: 0 <= i < numCPUProfiles && cpuProfiles[i].name == name ==>
        t == CpuInterval(cpuProfiles[i].startTime, cpuProfiles[i].endTime)
      ensures (forall i :: 0 <= i < numCPUProfiles ==> cpuProfiles[i].name != name) ==> t == 0.0
    {
      var found := FindProfile(cpuProfiles, numCPUProfiles, name);
      if found.None? {
        return 0.0;
      }
      var p := cpuProfiles[found.value];
      t := CpuInterval(p.startTime, p.endTime);
    }

    /** `GPUProfileTimingAvg`: the named GPU profile's average, 0 if unknown. */
    method GPUProfileTimingAvg(name: nat) returns (t: real)
      requires Valid()
      ensures forall i :: 0 <= i < numProfiles && profiles[i].name == name ==> t == profiles[i].averageTime
      ensures (forall i :: 0 <= i < numProfiles ==> profiles[i].name != name) ==> t == 0.0
    {
      var found := FindProfile(profiles, numProfiles, name);
      t := if found.None? then 0.0 else profiles[found.value].averageTime;
    }

    /** `CPUProfileTimingAvg`: the named CPU profile's average, 0 if unknown. */
    method CPUProfileTimingAvg(name: nat) returns (t: real)
      requires Valid()
      ensures forall i :: 0 <= i < numCPUProfiles && cpuProfiles[i].name == name ==> t == cpuProfiles[i].averageTime
      ensures (forall i :: 0 <= i < numCPUProfiles ==> cpuProfiles[i].name != name) ==> t == 0.0
    {
      var found := FindProfile(cpuProfiles, numCPUProfiles, name);
      t := if found.None? then 0.0 else cpuProfiles[found.value].averageTime;
    }

    /** `SetAlwaysEnableGPUProfiling`: takes effect at the next `EndFrame`. */
    method SetAlwaysEnableGPUProfiling(enable: bool)
      modifies this
      ensures alwaysEnableGPUProfiling == enable
      ensures profiles == old(profiles) && cpuProfiles == old(cpuProfiles) && numProfiles == old(numProfiles)
      ensures numCPUProfiles == old(numCPUProfiles) && recorded == old(recorded)
      ensures enableGPUProfiling == old(enableGPUProfiling) && showUI == old(showUI)
    {
      alwaysEnableGPUProfiling := enable;
    }
  }

  /** The update loop of `EndFrame` over the first `count` entries of one registry. */
  method UpdateAll(ps: seq<ProfileData>, count: nat, gpuFrequency: nat, queryData: Option<seq<u64>>)
    returns (r: seq<ProfileData>)
    requires Registry(ps, count) && gpuFrequency > 0
    requires queryData.Some? ==> |queryData.value| == 2 * MAX_PROFILES
    ensures Registry(r, count)
    ensures forall i :: 0 <= i < MAX_PROFILES ==>
      r[i] == if i < count then Updated(ps[i], i, gpuFrequency, queryData) else ps[i]
  {
    r := ps;
    var i: nat := 0;
    while i < count
      invariant i <= count && |r| == MAX_PROFILES
      invariant forall j :: 0 <= j < MAX_PROFILES ==>
        r[j] == if j < i then Updated(ps[j], j, gpuFrequency, queryData) else ps[j]
    {
      var q := UpdateProfile(r[i], i, gpuFrequency, queryData);
      r := r[i := q];
      i := i + 1;
    }
  }

  // ---- re-initialization -----------------------------------------------------------------

  /** The registry counts `Shutdown` leaves, as written: only the GPU count is reset. */
  function CountsAfterShutdownAsWritten(numProfiles: nat, numCPUProfiles: nat): (r: (nat, nat))
  {
    (0, numCPUProfiles)
  }

  /**
   * As written, re-initializing a profiler whose CPU registry was full leaves it full of
   * null entries: no CPU profile can be started again, although every entry is fresh.
   */
  lemma ReinitializedCPURegistryFull()
    ensures var counts := CountsAfterShutdownAsWritten(3, MAX_PROFILES);
      counts.0 == 0 && counts.1 == MAX_PROFILES && !CanStart(FRESH_TABLE, counts.1, 7)
  {
    var r := FindName(FRESH_TABLE, MAX_PROFILES, 7);
    assert forall j :: 0 <= j < MAX_PROFILES ==> FRESH_TABLE[j].name == NULL_NAME;
    assert r.None?;
  }

  /** A freshly initialized registry can start any name: the state `Initialize` now gives. */
  lemma FreshRegistryStarts(name: nat)
    requires name != NULL_NAME
    ensures Registry(FRESH_TABLE, 0) && CanStart(FRESH_TABLE, 0, name) && Slot(FRESH_TABLE, 0, name) == 0
  {
  }
}
