/**
 * SampleFramework12's post-processing helper: a pool of temporary render targets handed out
 * by size, format and UAV-ness and flagged while in use, a cache of pipeline states found by
 * hash, the eight shader-resource slots a full-screen pass binds, and the begin/end protocol
 * around the command list.
 *
 * A pointer to a pooled target is modelled as its position in the pool, which never moves.
 * A pipeline state, a command list and a descriptor index are opaque handles. The hash of a
 * pass and the pipeline state the device would create for it are inputs.
 */
module PostProcessing {
  import opened Ints
  import opened Wrappers

  /** `MaxInputs`: the shader-resource slots of a pass. */
  const MAX_INPUTS: nat := 8

  /** The render-target slots of a pass (the size of `HashSource::OutputFormats`). */
  const MAX_OUTPUTS: nat := 8

  /** A pooled `TempRenderTarget`: its texture's size and format, whether it has a UAV, and `InUse`. */
  datatype TempTarget = TempTarget(width: u32, height: u32, format: nat, hasUAV: bool, inUse: bool)

  /** A free pooled target that satisfies a request. */
  predicate Fits(t: TempTarget, width: u32, height: u32, format: nat, useAsUAV: bool)
  {
    !t.inUse && t.width == width && t.height == height && t.format == format && t.hasUAV == useAsUAV
  }

  /** The first target at or after `from` that fits the request, if any. */
  function FirstFitFrom(pool: seq<TempTarget>, from: nat, width: u32, height: u32, format: nat, useAsUAV: bool): (r: Option<nat>)
    requires from <= |pool|
    ensures r.Some? ==> from <= r.value < |pool| && Fits(pool[r.value], width, height, format, useAsUAV)
    ensures r.Some? ==> forall j :: from <= j < r.value ==> !Fits(pool[j], width, height, format, useAsUAV)
    ensures r.None? ==> forall j :: from <= j < |pool| ==> !Fits(pool[j], width, height, format, useAsUAV)
    decreases |pool| - from
  {
    if from == |pool| then None
    else if Fits(pool[from], width, height, format, useAsUAV) then Some(from)
    else FirstFitFrom(pool, from + 1, width, height, format, useAsUAV)
  }

  /** The first target of the pool that fits the request, if any. */
  function FirstFit(pool: seq<TempTarget>, width: u32, height: u32, format: nat, useAsUAV: bool): Option<nat>
  {
    FirstFitFrom(pool, 0, width, height, format, useAsUAV)
  }

  /**
   * `GetTempRenderTarget` on a pool: the first fitting target is marked in use, or else a new
   * target with the requested parameters is appended in use. Either way the handed-out target
   * has exactly the requested parameters and every other target is untouched.
   */
  function Acquire(pool: seq<TempTarget>, width: u32, height: u32, format: nat, useAsUAV: bool): (r: (seq<TempTarget>, nat))
    ensures |pool| <= |r.0| <= |pool| + 1 && r.1 < |r.0|
    ensures r.0[r.1] == TempTarget(width, height, format, useAsUAV, true)
    ensures forall j :: 0 <= j < |pool| && j != r.1 ==> r.0[j] == pool[j]
    ensures r.1 < |pool| <==> exists j :: 0 <= j < |pool| && Fits(pool[j], width, height, format, useAsUAV)
  {
    match FirstFit(pool, width, height, format, useAsUAV)
    case Some(i) => (pool[i := pool[i].(inUse := true)], i)
    case None => (pool + [TempTarget(width, height, format, useAsUAV, true)], |pool|)
  }

  /** Two identical requests with no release in between are given two different targets. */
  lemma AcquireTwiceDistinct(pool: seq<TempTarget>, width: u32, height: u32, format: nat, useAsUAV: bool)
    ensures var (p1, i1) := Acquire(pool, width, height, format, useAsUAV);
            Acquire(p1, width, height, format, useAsUAV).1 != i1
  {
    var (p1, i1) := Acquire(pool, width, height, format, useAsUAV);
    var i2 := Acquire(p1, width, height, format, useAsUAV).1;
    if i2 < |p1| {
      assert Fits(p1[i2], width, height, format, useAsUAV) by {
        match FirstFit(p1, width, height, format, useAsUAV)
        case Some(i) =>
        case None =>
      }
    }
  }

  /** A released target is handed out again rather than a new one being created. */
  lemma AcquireReusesReleased(pool: seq<TempTarget>, i: nat)
    requires i < |pool|
    ensures var t := pool[i];
            var p := pool[i := t.(inUse := false)];
            |Acquire(p, t.width, t.height, t.format, t.hasUAV).0| == |pool|
  {
    var t := pool[i];
    var p := pool[i := t.(inUse := false)];
    assert Fits(p[i], t.width, t.height, t.format, t.hasUAV);
  }

  /** `CachedPSO`: a pipeline state and the hash it was created for. */
  datatype CachedPSO = CachedPSO(pso: nat, hash: nat)

  /** No two cached pipeline states share a hash. */
  ghost predicate DistinctHashes(cache: seq<CachedPSO>)
  {
    forall i, j :: 0 <= i < j < |cache| ==> cache[i].hash != cache[j].hash
  }

  /** The linear search of the pipeline-state cache: the first entry with the hash, if any. */
  function FindPSO(cache: seq<CachedPSO>, hash: nat): (r: Option<nat>)
    ensures r.Some? ==> r.value < |cache| && cache[r.value].hash == hash
    ensures r.Some? ==> forall j :: 0 <= j < r.value ==> cache[j].hash != hash
    ensures r.None? ==> forall j :: 0 <= j < |cache| ==> cache[j].hash != hash
  {
    if |cache| == 0 then None
    else
      match FindPSO(cache[..|cache| - 1], hash)
      case Some(i) => Some(i)
      case None => if cache[|cache| - 1].hash == hash then Some(|cache| - 1) else None
  }

  /**
   * The cache step of `PostProcess`: the cached pipeline state for the hash, or else `created`,
   * appended under the hash. The cache keeps its entries and gains at most one.
   */
  function CachePSO(cache: seq<CachedPSO>, hash: nat, created: nat): (r: (seq<CachedPSO>, nat))
    ensures r.0 == cache || r.0 == cache + [CachedPSO(created, hash)]
    ensures r.0 == cache <==> exists j :: 0 <= j < |cache| && cache[j].hash == hash
    ensures FindPSO(r.0, hash).Some? && r.0[FindPSO(r.0, hash).value].pso == r.1
    ensures DistinctHashes(cache) ==> DistinctHashes(r.0)
  {
    match FindPSO(cache, hash)
    case Some(i) => (cache, cache[i].pso)
    case None =>
      var next := cache + [CachedPSO(created, hash)];
      assert FindPSO(next, hash) == Some(|cache|) by {
        assert next[..|next| - 1] == cache;
      }
      (next, created)
  }

  /** A second pass with the same hash reuses the first pass's pipeline state and adds nothing. */
  lemma CachePSOIdempotent(cache: seq<CachedPSO>, hash: nat, created: nat, createdAgain: nat)
    ensures var (c1, p1) := CachePSO(cache, hash, created);
            CachePSO(c1, hash, createdAgain) == (c1, p1)
  {
    var (c1, p1) := CachePSO(cache, hash, created);
    assert FindPSO(c1, hash).Some?;
  }

  /** The pipeline-state handles of a cache, in order. */
  function PSOs(cache: seq<CachedPSO>): (r: seq<nat>)
    ensures |r| == |cache| && forall i :: 0 <= i < |cache| ==> r[i] == cache[i].pso
  {
    seq(|cache|, i requires 0 <= i < |cache| => cache[i].pso)
  }

  /** The eight shader-resource slots of a pass: the inputs, then the null SRV. */
  function SRVSlots(inputs: seq<u32>, nullSRV: u32): (r: seq<u32>)
    requires |inputs| <= MAX_INPUTS
    ensures |r| == MAX_INPUTS
    ensures forall i :: 0 <= i < |inputs| ==> r[i] == inputs[i]
    ensures forall i :: |inputs| <= i < MAX_INPUTS ==> r[i] == nullSRV
  {
    inputs + seq(MAX_INPUTS - |inputs|, _ => nullSRV)
  }

  class PostProcessHelper {
    var tempRenderTargets: seq<TempTarget>
    var pipelineStates: seq<CachedPSO>
    /** The command list between `Begin` and `End`; `None` is the null pointer. */
    var cmdList: Option<nat>

    ghost predicate Valid()
      reads this
    {
      DistinctHashes(pipelineStates)
    }

    constructor()
      ensures Valid() && tempRenderTargets == [] && pipelineStates == [] && cmdList == None
    {
      tempRenderTargets, pipelineStates, cmdList := [], [], None;
    }

    /**
     * `ClearCache` (and `Shutdown`): both caches are emptied, and every cached pipeline state
     * is handed, in order, to deferred release; the result lists them.
     */
    method ClearCache() returns (released: seq<nat>)
      modifies this
      ensures released == PSOs(old(pipelineStates))
      ensures tempRenderTargets == [] && pipelineStates == [] && cmdList == old(cmdList) && Valid()
    {
      released := [];
      var i := 0;
      while i < |pipelineStates|
        invariant i <= |pipelineStates| && released == PSOs(pipelineStates[..i])
      {
        assert pipelineStates[..i + 1] == pipelineStates[..i] + [pipelineStates[i]];
        released := released + [pipelineStates[i].pso];
        i := i + 1;
      }
      assert pipelineStates[..i] == pipelineStates;
      tempRenderTargets := [];
      pipelineStates := [];
    }

    /** `GetTempRenderTarget`: the result is the position of the handed-out target in the pool. */
    method GetTempRenderTarget(width: u32, height: u32, format: nat, useAsUAV: bool) returns (target: nat)
      modifies this
      ensures (tempRenderTargets, target) == Acquire(old(tempRenderTargets), width, height, format, useAsUAV)
      ensures pipelineStates == old(pipelineStates) && cmdList == old(cmdList)
    {
      var i := 0;
      while i < |tempRenderTargets|
        invariant i <= |tempRenderTargets| && tempRenderTargets == old(tempRenderTargets)
        invariant FirstFit(tempRenderTargets, width, height, format, useAsUAV) == FirstFitFrom(tempRenderTargets, i, width, height, format, useAsUAV)
      {
        var rt := tempRenderTargets[i];
        if rt.inUse {
          i := i + 1;
          continue;
        }
        if rt.width == width && rt.height == height && rt.format == format && useAsUAV == rt.hasUAV {
          tempRenderTargets := tempRenderTargets[i := rt.(inUse := true)];
          return i;
        }
        i := i + 1;
      }
      target := |tempRenderTargets|;
      tempRenderTargets := tempRenderTargets + [TempTarget(width, height, format, useAsUAV, true)];
    }

    /** The owner of a handed-out target clearing its `InUse` flag through the pointer. */
    method ReleaseTempRenderTarget(target: nat)
      requires target < |tempRenderTargets|
      modifies this
      ensures tempRenderTargets == old(tempRenderTargets)[target := old(tempRenderTargets)[target].(inUse := false)]
      ensures pipelineStates == old(pipelineStates) && cmdList == old(cmdList)
    {
      tempRenderTargets := tempRenderTargets[target := tempRenderTargets[target].(inUse := false)];
    }

    /** `Begin`: no pass may already be open. */
    method Begin(cmdList_: nat)
      requires cmdList.None?
      modifies this
      ensures cmdList == Some(cmdList_)
      ensures tempRenderTargets == old(tempRenderTargets) && pipelineStates == old(pipelineStates)
    {
      cmdList := Some(cmdList_);
    }

    /** `End`: a pass must be open, and every temporary target must have been released. */
    method End()
      requires cmdList.Some?
      requires forall i :: 0 <= i < |tempRenderTargets| ==> !tempRenderTargets[i].inUse
      modifies this
      ensures cmdList == None
      ensures tempRenderTargets == old(tempRenderTargets) && pipelineStates == old(pipelineStates)
    {
      cmdList := None;
    }

    /**
     * `PostProcess` with explicit inputs and outputs: the pipeline state comes from the cache
     * (a hit adds nothing, a miss appends `created`), and the slot array holds the inputs
     * followed by the null SRV.
     */
    method PostProcess(psoHash: nat, created: nat, inputs: seq<u32>, numOutputs: nat, nullSRV: u32)
      returns (pso: nat, srvIndices: array<u32>)
      requires Valid() && cmdList.Some?
      requires 0 < numOutputs <= MAX_OUTPUTS && |inputs| <= MAX_INPUTS
      modifies this
      ensures Valid() && (pipelineStates, pso) == CachePSO(old(pipelineStates), psoHash, created)
      ensures tempRenderTargets == old(tempRenderTargets) && cmdList == old(cmdList)
      ensures fresh(srvIndices) && srvIndices[..] == SRVSlots(inputs, nullSRV)
    {
      var found := false;
      var i := 0;
      while i < |pipelineStates|
        invariant i <= |pipelineStates| && !found
        invariant forall j :: 0 <= j < i ==> pipelineStates[j].hash != psoHash
      {
        if pipelineStates[i].hash == psoHash {
          pso := pipelineStates[i].pso;
          found := true;
          break;
        }
        i := i + 1;
      }
      if !found {
        pso := created;
        pipelineStates := pipelineStates + [CachedPSO(created, psoHash)];
      }
      srvIndices := FillSRVIndices(inputs, nullSRV);
    }

    /** The slot array of a pass: the inputs, then the null SRV up to `MaxInputs`. */
    static method FillSRVIndices(inputs: seq<u32>, nullSRV: u32) returns (srvIndices: array<u32>)
      requires |inputs| <= MAX_INPUTS
      ensures fresh(srvIndices) && srvIndices[..] == SRVSlots(inputs, nullSRV)
    {
      srvIndices := new u32[MAX_INPUTS];
      var k := 0;
      while k < |inputs|
        invariant k <= |inputs| && forall j :: 0 <= j < k ==> srvIndices[j] == inputs[j]
      {
        srvIndices[k] := inputs[k];
        k := k + 1;
      }
      while k < MAX_INPUTS
        invariant |inputs| <= k <= MAX_INPUTS
        invariant forall j :: 0 <= j < |inputs| ==> srvIndices[j] == inputs[j]
        invariant forall j :: |inputs| <= j < k ==> srvIndices[j] == nullSRV
      {
        srvIndices[k] := nullSRV;
        k := k + 1;
      }
      assert srvIndices[..] == SRVSlots(inputs, nullSRV);
    }
  }
}
