/**
 * The frame bookkeeping of SampleFramework12's DX12 layer: the CPU and GPU frame counters,
 * the per-slot deferred-release lists, deferred SRV creation into the other frames' descriptor
 * heap copies, `FlushGPU` and `Shutdown`. Resources are opaque handles, 0 standing for null.
 * Waiting on the frame fence is modelled by its effect on the GPU frame counter.
 */
module DX12 {
  import opened Ints
  import Arith

  /** `RenderLatency`: the number of frames the CPU may run ahead of the GPU. */
  const RENDER_LATENCY: nat := 2

  /** The null resource. */
  const NULL_HANDLE: nat := 0

  /** Capacity of each frame's `DeferredSRVCreates` array (`Init(1024)`). */
  const DEFERRED_SRV_CAPACITY: nat := 1024

  /** `DeferredSRVCreate`: a resource, its view description (opaque) and a descriptor index. */
  datatype SRVCreate = SRVCreate(resource: nat, desc: nat, descriptorIdx: nat)

  /** A view created by `ProcessDeferredSRVCreates`: a deferred create, in one heap copy. */
  datatype CreatedSRV = CreatedSRV(create: SRVCreate, heapCopy: nat)

  /** The lists of `xs`, one after the other. */
  function Flatten<T>(xs: seq<seq<T>>): (r: seq<T>)
    ensures |xs| > 0 ==> r == Flatten(xs[..|xs| - 1]) + xs[|xs| - 1]
  {
    if |xs| == 0 then [] else Flatten(xs[..|xs| - 1]) + xs[|xs| - 1]
  }

  /** The deferred creates of one heap copy, tagged with it. */
  function InCopy(creates: seq<SRVCreate>, heapCopy: nat): (r: seq<CreatedSRV>)
    ensures |r| == |creates| && forall i :: 0 <= i < |r| ==> r[i] == CreatedSRV(creates[i], heapCopy)
  {
    seq(|creates|, i requires 0 <= i < |creates| => CreatedSRV(creates[i], heapCopy))
  }

  /** How many frames after the frame in slot `curr` the frame in slot `s` comes. */
  function Ahead(s: nat, curr: nat): (r: nat)
    ensures r < RENDER_LATENCY
  {
    (s + RENDER_LATENCY - curr % RENDER_LATENCY) % RENDER_LATENCY
  }

  /** Two frames in the same slot, within one latency window, are the same frame. */
  lemma SameSlotSameFrame(t: nat, u: nat)
    requires t % RENDER_LATENCY == u % RENDER_LATENCY && t <= u < t + RENDER_LATENCY
    ensures t == u
  {
    var q, r := t / RENDER_LATENCY, t % RENDER_LATENCY;
    if r + (u - t) < RENDER_LATENCY {
      Arith.DivModUnique(u, RENDER_LATENCY, q, r + (u - t));
    } else {
      Arith.DivModUnique(u, RENDER_LATENCY, q + 1, r + (u - t) - RENDER_LATENCY);
    }
  }

  /**
   * The frame state: frame counters, the current slot, and per slot the resources whose
   * release was deferred and the SRVs whose creation was deferred. `releaseFrames` records,
   * for the proofs only, the CPU frame in which each release was deferred.
   */
  class Frames {
    var cpuFrame: nat
    var gpuFrame: nat
    var currFrameIdx: nat
    var releases: seq<seq<nat>>
    ghost var releaseFrames: seq<seq<nat>>
    var srvCreates: seq<seq<SRVCreate>>
    var shuttingDown: bool
    var deviceAlive: bool

    /**
     * The GPU is never ahead of the CPU and at most `RENDER_LATENCY - 1` frames behind between
     * frames; the current slot is the CPU frame's; each slot holds only releases deferred
     * during the frames of that slot in the last `RENDER_LATENCY` frames.
     */
    ghost predicate Valid()
      reads this
    {
      Shape() && forall s :: 0 <= s < RENDER_LATENCY ==> DeferredIn(releaseFrames[s], s, cpuFrame)
    }

    /**
     * `Valid` without the frame window of the deferred releases. Every queued SRV create has a
     * resource, as `ProcessDeferredSRVCreates` asserts of each one it processes.
     */
    ghost predicate Shape()
      reads this
    {
      gpuFrame <= cpuFrame < gpuFrame + RENDER_LATENCY && currFrameIdx == cpuFrame % RENDER_LATENCY &&
      |releases| == RENDER_LATENCY && |releaseFrames| == RENDER_LATENCY && |srvCreates| == RENDER_LATENCY &&
      (forall s :: 0 <= s < RENDER_LATENCY ==> |releaseFrames[s]| == |releases[s]|) &&
      (forall s :: 0 <= s < RENDER_LATENCY ==> |srvCreates[s]| <= DEFERRED_SRV_CAPACITY) &&
      (forall s, i :: 0 <= s < RENDER_LATENCY && 0 <= i < |srvCreates[s]| ==> srvCreates[s][i].resource != NULL_HANDLE)
    }

    /** Constructor plus `Initialize`: frame 0 on both sides, nothing deferred. */
    constructor ()
      ensures Valid() && cpuFrame == 0 && gpuFrame == 0 && currFrameIdx == 0
      ensures releases == [[], []] && srvCreates == [[], []] && !shuttingDown && deviceAlive
    {
      cpuFrame, gpuFrame, currFrameIdx := 0, 0, 0;
      releases, releaseFrames, srvCreates := [[], []], [[], []], [[], []];
      shuttingDown, deviceAlive := false, true;
    }

    /**
     * `DeferredRelease_`: null is ignored; while shutting down or without a device the
     * resource is released at once; otherwise it joins the current slot's list.
     */
    method DeferredRelease(resource: nat) returns (releasedNow: bool)
      requires Valid()
      modifies this
      ensures Valid()
      ensures releasedNow <==> resource != NULL_HANDLE && (shuttingDown || !deviceAlive)
      ensures resource == NULL_HANDLE || releasedNow ==> unchanged(this)
      ensures resource != NULL_HANDLE && !releasedNow ==>
        releases == old(releases)[currFrameIdx := old(releases)[currFrameIdx] + [resource]] &&
        releaseFrames == old(releaseFrames)[currFrameIdx := old(releaseFrames)[currFrameIdx] + [cpuFrame]] &&
        cpuFrame == old(cpuFrame) && gpuFrame == old(gpuFrame) && srvCreates == old(srvCreates) &&
        currFrameIdx == old(currFrameIdx) && shuttingDown == old(shuttingDown) && deviceAlive == old(deviceAlive)
    {
      if resource == NULL_HANDLE {
        return false;
      }
      if shuttingDown || !deviceAlive {
        return true;
      }
      DeferredInAppend(releaseFrames[currFrameIdx], currFrameIdx, cpuFrame);
      releases := releases[currFrameIdx := releases[currFrameIdx] + [resource]];
      releaseFrames := releaseFrames[currFrameIdx := releaseFrames[currFrameIdx] + [cpuFrame]];
      releasedNow := false;
    }

    /**
     * `DeferredCreateSRV`: the view is queued for each of the other `RENDER_LATENCY - 1` heap
     * copies (the current frame's copy is written by the caller), never for the current one.
     */
    method DeferredCreateSRV(resource: nat, desc: nat, descriptorIdx: nat)
      requires Valid() && resource != NULL_HANDLE
      requires forall s :: 0 <= s < RENDER_LATENCY && s != currFrameIdx ==> |srvCreates[s]| < DEFERRED_SRV_CAPACITY
      modifies this
      ensures Valid() && |srvCreates| == RENDER_LATENCY
      ensures forall s :: 0 <= s < RENDER_LATENCY ==>
        srvCreates[s] == old(srvCreates)[s] + (if s == currFrameIdx then [] else [SRVCreate(resource, desc, descriptorIdx)])
      ensures cpuFrame == old(cpuFrame) && gpuFrame == old(gpuFrame) && currFrameIdx == old(currFrameIdx)
      ensures releases == old(releases) && releaseFrames == old(releaseFrames)
      ensures shuttingDown == old(shuttingDown) && deviceAlive == old(deviceAlive)
    {
      var c := SRVCreate(resource, desc, descriptorIdx);
      for i := 1 to RENDER_LATENCY
        invariant Valid() && |srvCreates| == RENDER_LATENCY
        invariant forall s :: 0 <= s < RENDER_LATENCY ==>
          srvCreates[s] == old(srvCreates)[s] + (if 1 <= Ahead(s, cpuFrame) < i then [c] else [])
        invariant cpuFrame == old(cpuFrame) && gpuFrame == old(gpuFrame) && currFrameIdx == old(currFrameIdx)
        invariant releases == old(releases) && releaseFrames == old(releaseFrames)
        invariant shuttingDown == old(shuttingDown) && deviceAlive == old(deviceAlive)
      {
        var frameIdx := (cpuFrame + i) % RENDER_LATENCY;
        assert Ahead(frameIdx, cpuFrame) == i;
        srvCreates := srvCreates[frameIdx := srvCreates[frameIdx] + [c]];
      }
    }

    /** `ProcessDeferredReleases`: every resource of the slot is released, in order. */
    method ProcessDeferredReleases(frameIdx: nat) returns (released: seq<nat>, ghost frames: seq<nat>)
      requires Shape() && frameIdx < RENDER_LATENCY
      requires forall s :: 0 <= s < RENDER_LATENCY && s != frameIdx ==> DeferredIn(releaseFrames[s], s, cpuFrame)
      modifies this
      ensures Valid()
      ensures released == old(releases)[frameIdx] && frames == old(releaseFrames)[frameIdx]
      ensures releases == old(releases)[frameIdx := []] && releaseFrames == old(releaseFrames)[frameIdx := []]
      ensures cpuFrame == old(cpuFrame) && gpuFrame == old(gpuFrame) && currFrameIdx == old(currFrameIdx)
      ensures srvCreates == old(srvCreates) && shuttingDown == old(shuttingDown) && deviceAlive == old(deviceAlive)
    {
      released := [];
      var list := releases[frameIdx];
      for i := 0 to |list|
        invariant released == list[..i]
      {
        released := released + [list[i]];
      }
      frames := releaseFrames[frameIdx];
      releases := releases[frameIdx := []];
      releaseFrames := releaseFrames[frameIdx := []];
    }

    /**
     * `ProcessDeferredSRVCreates`: every queued view of the slot, each with a resource, is
     * created in that heap copy.
     */
    method ProcessDeferredSRVCreates(frameIdx: nat) returns (created: seq<CreatedSRV>)
      requires Valid() && frameIdx < RENDER_LATENCY
      modifies this
      ensures Valid()
      ensures created == InCopy(old(srvCreates)[frameIdx], frameIdx) && srvCreates == old(srvCreates)[frameIdx := []]
      ensures forall i :: 0 <= i < |created| ==> created[i].create.resource != NULL_HANDLE
      ensures cpuFrame == old(cpuFrame) && gpuFrame == old(gpuFrame) && currFrameIdx == old(currFrameIdx)
      ensures releases == old(releases) && releaseFrames == old(releaseFrames)
      ensures shuttingDown == old(shuttingDown) && deviceAlive == old(deviceAlive)
    {
      created := [];
      var creates := srvCreates[frameIdx];
      for i := 0 to |creates|
        invariant created == InCopy(creates[..i], frameIdx)
      {
        created := created + [CreatedSRV(creates[i], frameIdx)];
      }
      assert creates[..|creates|] == creates;
      srvCreates := srvCreates[frameIdx := []];
    }

    /**
     * The frame-counter part of `EndFrame`: the CPU frame advances; when the GPU would be
     * `RENDER_LATENCY` frames behind, the CPU waits for the GPU to finish one more frame; the
     * current slot follows the CPU frame. The source's assert that the lag never exceeds
     * `RENDER_LATENCY` holds.
     */
    method AdvanceFrame()
      requires Valid()
      modifies this
      ensures cpuFrame == old(cpuFrame) + 1 && currFrameIdx == cpuFrame % RENDER_LATENCY
      ensures gpuFrame == if cpuFrame - old(gpuFrame) >= RENDER_LATENCY then old(gpuFrame) + 1 else old(gpuFrame)
      ensures Shape()
      ensures releases == old(releases) && releaseFrames == old(releaseFrames) && srvCreates == old(srvCreates)
      ensures shuttingDown == old(shuttingDown) && deviceAlive == old(deviceAlive)
      ensures forall s :: 0 <= s < RENDER_LATENCY && s != currFrameIdx ==> DeferredIn(releaseFrames[s], s, cpuFrame)
      ensures forall t :: t in releaseFrames[currFrameIdx] ==> t < gpuFrame
    {
      cpuFrame := cpuFrame + 1;
      var gpuLag := cpuFrame - gpuFrame;
      assert gpuLag <= RENDER_LATENCY;
      if gpuLag >= RENDER_LATENCY {
        gpuFrame := gpuFrame + 1;
      }
      currFrameIdx := cpuFrame % RENDER_LATENCY;
      forall s | 0 <= s < RENDER_LATENCY && s != currFrameIdx
        ensures DeferredIn(releaseFrames[s], s, cpuFrame)
      {
        DeferredInOtherSlot(releaseFrames[s], s, cpuFrame);
      }
      forall t | t in releaseFrames[currFrameIdx]
        ensures t < gpuFrame
      {
        DeferredInCurrentSlot(releaseFrames[currFrameIdx], currFrameIdx, cpuFrame, t);
      }
    }

    /**
     * `EndFrame`: after the counters advance, the new current slot's deferred releases and
     * SRV creates are processed. Every resource released was deferred in a frame the GPU has
     * finished: the release is safe.
     */
    method EndFrame() returns (released: seq<nat>, ghost frames: seq<nat>, created: seq<CreatedSRV>)
      requires Valid() && deviceAlive
      modifies this
      ensures Valid() && cpuFrame == old(cpuFrame) + 1 && currFrameIdx == cpuFrame % RENDER_LATENCY
      ensures gpuFrame == if cpuFrame - old(gpuFrame) >= RENDER_LATENCY then old(gpuFrame) + 1 else old(gpuFrame)
      ensures released == old(releases)[currFrameIdx] && releases == old(releases)[currFrameIdx := []]
      ensures |frames| == |released| && forall t :: t in frames ==> t < gpuFrame
      ensures created == InCopy(old(srvCreates)[currFrameIdx], currFrameIdx)
      ensures srvCreates == old(srvCreates)[currFrameIdx := []]
    {
      AdvanceFrame();
      released, frames := ProcessDeferredReleases(currFrameIdx);
      created := ProcessDeferredSRVCreates(currFrameIdx);
    }

    /**
     * The counter part of `FlushGPU`: the CPU waits until the GPU has finished every frame
     * it submitted.
     */
    method WaitForGPU()
      requires Valid()
      modifies this
      ensures Valid() && gpuFrame == cpuFrame && cpuFrame == old(cpuFrame)
      ensures releases == old(releases) && releaseFrames == old(releaseFrames) && srvCreates == old(srvCreates)
      ensures currFrameIdx == old(currFrameIdx) && shuttingDown == old(shuttingDown) && deviceAlive == old(deviceAlive)
    {
      assert cpuFrame >= gpuFrame;
      if cpuFrame > gpuFrame {
        gpuFrame := cpuFrame;
      }
    }

    /**
     * The loop of `FlushGPU` and `Shutdown` over every slot: all deferred releases (slot by
     * slot) and, when asked, all deferred SRV creates are processed.
     */
    method ProcessAll(withCreates: bool) returns (released: seq<nat>, ghost frames: seq<nat>)
      requires Valid()
      modifies this
      ensures Valid() && released == Flatten(old(releases)) && frames == Flatten(old(releaseFrames))
      ensures releases == [[], []] && releaseFrames == [[], []]
      ensures srvCreates == if withCreates then [[], []] else old(srvCreates)
      ensures cpuFrame == old(cpuFrame) && gpuFrame == old(gpuFrame) && currFrameIdx == old(currFrameIdx)
      ensures shuttingDown == old(shuttingDown) && deviceAlive == old(deviceAlive)
    {
      released, frames := [], [];
      ghost var r0, f0, c0 := releases, releaseFrames, srvCreates;
      for i := 0 to RENDER_LATENCY
        invariant Valid() && released == Flatten(r0[..i]) && frames == Flatten(f0[..i])
        invariant releases == EmptiedBelow(r0, i) && releaseFrames == EmptiedBelow(f0, i)
        invariant srvCreates == if withCreates then EmptiedBelow(c0, i) else c0
        invariant cpuFrame == old(cpuFrame) && gpuFrame == old(gpuFrame) && currFrameIdx == old(currFrameIdx)
        invariant shuttingDown == old(shuttingDown) && deviceAlive == old(deviceAlive)
      {
        var r;
        ghost var f;
        r, f := ProcessDeferredReleases(i);
        if withCreates {
          var _ := ProcessDeferredSRVCreates(i);
        }
        assert r0[..i + 1][..i] == r0[..i] && f0[..i + 1][..i] == f0[..i];
        released, frames := released + r, frames + f;
        EmptiedBelowStep(r0, i);
        EmptiedBelowStep(f0, i);
        EmptiedBelowStep(c0, i);
      }
      assert r0[..RENDER_LATENCY] == r0 && f0[..RENDER_LATENCY] == f0;
      EmptiedBelowAll(r0);
      EmptiedBelowAll(f0);
      EmptiedBelowAll(c0);
    }

    /**
     * `FlushGPU`: the GPU catches up with the CPU, then every slot is processed. Every
     * resource released was deferred in a frame no later than the last the GPU finished or
     * in the current frame, whose commands have not been submitted yet.
     */
    method FlushGPU() returns (released: seq<nat>, ghost frames: seq<nat>)
      requires Valid() && deviceAlive
      modifies this
      ensures Valid() && gpuFrame == cpuFrame && cpuFrame == old(cpuFrame)
      ensures released == Flatten(old(releases)) && releases == [[], []] && srvCreates == [[], []]
      ensures |frames| == |released| && forall t :: t in frames ==> t <= cpuFrame
    {
      WaitForGPU();
      ghost var f0 := releaseFrames;
      released, frames := ProcessAll(true);
      FlattenBound(f0, cpuFrame);
      FlattenLengths(old(releases), f0);
    }

    /**
     * `Shutdown`: the source asserts that the GPU has caught up; from then on releases are
     * immediate, and everything still deferred is released.
     */
    method Shutdown() returns (released: seq<nat>)
      requires Valid() && cpuFrame == gpuFrame
      modifies this
      ensures Valid() && shuttingDown && released == Flatten(old(releases)) && releases == [[], []]
      ensures cpuFrame == old(cpuFrame) && gpuFrame == old(gpuFrame) && srvCreates == old(srvCreates)
    {
      shuttingDown := true;
      ghost var frames;
      released, frames := ProcessAll(false);
    }
  }

  /**
   * The releases of slot `s` were deferred in frames of that slot, no later than `cpuFrame`
   * and fewer than `RENDER_LATENCY` frames before it.
   */
  ghost predicate DeferredIn(frames: seq<nat>, s: nat, cpuFrame: nat)
  {
    forall i :: 0 <= i < |frames| ==>
      frames[i] % RENDER_LATENCY == s && frames[i] <= cpuFrame < frames[i] + RENDER_LATENCY
  }

  lemma DeferredInAppend(frames: seq<nat>, s: nat, cpuFrame: nat)
    requires DeferredIn(frames, s, cpuFrame) && s == cpuFrame % RENDER_LATENCY
    ensures DeferredIn(frames + [cpuFrame], s, cpuFrame)
  {
  }

  /** After the CPU frame advances, the other slots' releases are still in the window. */
  lemma DeferredInOtherSlot(frames: seq<nat>, s: nat, cpuFrame: nat)
    requires cpuFrame > 0 && DeferredIn(frames, s, cpuFrame - 1) && s != cpuFrame % RENDER_LATENCY
    ensures DeferredIn(frames, s, cpuFrame)
  {
    forall i | 0 <= i < |frames|
      ensures frames[i] % RENDER_LATENCY == s && frames[i] <= cpuFrame < frames[i] + RENDER_LATENCY
    {
      Arith.ModAddModulus(frames[i], RENDER_LATENCY);
    }
  }

  /**
   * After the CPU frame advances, the releases in the new current slot were deferred exactly
   * `RENDER_LATENCY` frames ago, which the GPU has finished.
   */
  lemma DeferredInCurrentSlot(frames: seq<nat>, s: nat, cpuFrame: nat, t: nat)
    requires cpuFrame > 0 && DeferredIn(frames, s, cpuFrame - 1) && s == cpuFrame % RENDER_LATENCY
    requires t in frames
    ensures t + RENDER_LATENCY == cpuFrame
  {
    var i :| 0 <= i < |frames| && frames[i] == t;
    Arith.ModAddModulus(t, RENDER_LATENCY);
    SameSlotSameFrame(cpuFrame, t + RENDER_LATENCY);
  }

  /** `xs` with its first `i` lists emptied. */
  function EmptiedBelow<T>(xs: seq<seq<T>>, i: nat): (r: seq<seq<T>>)
    ensures |r| == |xs| && forall s :: 0 <= s < |xs| ==> r[s] == if s < i then [] else xs[s]
  {
    seq(|xs|, s requires 0 <= s < |xs| => if s < i then [] else xs[s])
  }

  lemma EmptiedBelowStep<T>(xs: seq<seq<T>>, i: nat)
    requires i < |xs|
    ensures EmptiedBelow(xs, i)[i := []] == EmptiedBelow(xs, i + 1)
  {
  }

  lemma EmptiedBelowAll<T>(xs: seq<seq<T>>)
    requires |xs| == RENDER_LATENCY
    ensures EmptiedBelow(xs, RENDER_LATENCY) == [[], []]
  {
  }

  /** A bound on every element of every list bounds every element of the flattened list. */
  lemma {:induction false} FlattenBound(xs: seq<seq<nat>>, bound: nat)
    requires forall s :: 0 <= s < |xs| ==> forall i :: 0 <= i < |xs[s]| ==> xs[s][i] <= bound
    ensures forall t :: t in Flatten(xs) ==> t <= bound
  {
    if |xs| > 0 {
      FlattenBound(xs[..|xs| - 1], bound);
    }
  }

  /** Lists of equal lengths, slot by slot, flatten to lists of equal lengths. */
  lemma {:induction false} FlattenLengths<T, U>(xs: seq<seq<T>>, ys: seq<seq<U>>)
    requires |xs| == |ys| && forall s :: 0 <= s < |xs| ==> |xs[s]| == |ys[s]|
    ensures |Flatten(xs)| == |Flatten(ys)|
  {
    if |xs| > 0 {
      FlattenLengths(xs[..|xs| - 1], ys[..|ys| - 1]);
    }
  }
}
