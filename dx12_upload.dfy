/**
 * SampleFramework12's DX12 upload layer: the copy queues with their fence counters, the
 * upload ring buffer (a byte ring plus a ring of 16 pending submissions retired in order),
 * the fast uploader's batch of copies, and the per-frame temporary buffer bump allocator.
 * Fence completion is an input: each call that looks at a fence is given its completed value.
 */
module DX12Upload {
  import opened Ints
  import opened Wrappers
  import opened Utility
  import opened UploadRingSpec
  import DX12
  import SF12Math

  // ---------------------------------------------------------------------------------------
  // UploadQueue

  /** `UploadQueue`: a copy queue, the last fence value it signalled, and pending dependent waits. */
  class UploadQueue {
    var fenceValue: nat
    var waitCount: nat

    /** `Init`: the fence starts at 0 and nothing is waited for. */
    constructor ()
      ensures fenceValue == 0 && waitCount == 0
    {
      fenceValue, waitCount := 0, 0;
    }

    /**
     * `SubmitCmdList`: the new fence value is one more than the last, so fence values are
     * strictly increasing; a submission that asks for it counts one more dependent wait.
     */
    method SubmitCmdList(syncOnDependentQueue: bool) returns (newFenceValue: nat)
      modifies this
      ensures newFenceValue == old(fenceValue) + 1 && fenceValue == newFenceValue
      ensures waitCount == old(waitCount) + (if syncOnDependentQueue then 1 else 0)
    {
      fenceValue := fenceValue + 1;
      newFenceValue := fenceValue;
      if syncOnDependentQueue {
        waitCount := waitCount + 1;
      }
    }

    /**
     * `SyncDependentQueue`: the other queue is told to wait for the last fence value only if
     * some submission asked for it; afterwards no wait is pending.
     */
    method SyncDependentQueue() returns (waitedFor: Option<nat>)
      modifies this
      ensures waitedFor == (if old(waitCount) > 0 then Some(fenceValue) else None)
      ensures waitCount == 0 && fenceValue == old(fenceValue)
    {
      waitedFor := None;
      if waitCount > 0 {
        waitedFor := Some(fenceValue);
        waitCount := 0;
      }
    }

    /**
     * `Flush`: blocks until the fence reaches the last value signalled, so the completed value
     * afterwards has reached every fence value this queue handed out.
     */
    method Flush(completed: nat) returns (completed': nat)
      ensures completed' >= fenceValue && completed' >= completed
      ensures completed' == completed || completed' == fenceValue
    {
      completed' := SF12Math.Max(completed, fenceValue);
    }
  }

  // ---------------------------------------------------------------------------------------
  // UploadRingBuffer

  /** `D3D12_TEXTURE_DATA_PLACEMENT_ALIGNMENT`, the granularity of ring allocations. */
  const PLACEMENT_ALIGNMENT: nat := 512

  /** The default `UploadRingBuffer::BufferSize`: 64 MiB. */
  const DEFAULT_RING_SIZE: nat := 64 * 1024 * 1024

  /** `UploadContext`: the submission slot and the offset of its block in the ring's buffer. */
  datatype UploadContext = UploadContext(slot: nat, resourceOffset: nat)

  class UploadRingBuffer {
    var submissions: array<Submission>
    var submissionStart: nat
    var submissionUsed: nat
    var bufferSize: nat
    var bufferStart: nat
    var bufferUsed: nat

    /** The pending submissions, oldest first. */
    ghost function Pending(): seq<Submission>
      requires submissions.Length == MAX_SUBMISSIONS && submissionUsed <= MAX_SUBMISSIONS
      reads this, submissions
    {
      RingWindow(submissions[..], submissionStart, submissionUsed)
    }

    /**
     * The ring's invariant: at most 16 pending submissions, no more bytes used than the buffer
     * holds, the pending blocks back to back from `bufferStart`, every free slot empty, and an
     * empty ring starting at 0.
     */
    ghost predicate Valid()
      reads this, submissions
    {
      submissions.Length == MAX_SUBMISSIONS &&
      RingValid(submissions[..], submissionStart, submissionUsed, bufferStart, bufferUsed, bufferSize)
    }

    /** Every pending submission has been handed to the queue by `End`. */
    ghost predicate AllSubmitted()
      requires Valid()
      reads this, submissions
    {
      forall j :: 0 <= j < |Pending()| ==> Pending()[j].fenceValue != UNSUBMITTED
    }

    /** The defaults plus `Init`: 16 empty slots and a 64 MiB buffer. */
    constructor ()
      ensures Valid() && fresh(submissions) && Pending() == []
      ensures bufferSize == DEFAULT_RING_SIZE && bufferStart == 0 && bufferUsed == 0 && submissionStart == 0
    {
      submissions := new Submission[MAX_SUBMISSIONS](_ => EMPTY_SUBMISSION);
      submissionStart, submissionUsed := 0, 0;
      bufferSize, bufferStart, bufferUsed := DEFAULT_RING_SIZE, 0, 0;
      new;
      assert Pending() == [];
    }

    /** `Resize`: only an empty ring is resized (the callers drain it first). */
    method Resize(newBufferSize: nat)
      requires Valid() && submissionUsed == 0 && newBufferSize > 0
      modifies this
      ensures Valid() && bufferSize == newBufferSize && Pending() == []
      ensures submissions == old(submissions) && bufferStart == 0 && bufferUsed == 0
      ensures submissionStart == old(submissionStart) && submissionUsed == 0
    {
      bufferSize := newBufferSize;
    }

    /**
     * One retirement of `ClearPendingUploads`: the head submission is dropped, its padding and
     * block are skipped, and its slot is reset. The two asserts of the source hold: the block
     * starts where the ring starts after the padding, and it ends inside the buffer.
     */
    method RetireHead() returns (h: Submission)
      requires Valid() && submissionUsed > 0
      modifies this, submissions
      ensures Valid() && submissions == old(submissions) && bufferSize == old(bufferSize)
      ensures h == old(Pending())[0] && Pending() == old(Pending())[1..]
      ensures h.offset == (old(bufferStart) + h.padding) % bufferSize && h.offset + h.size <= bufferSize
      ensures bufferUsed == old(bufferUsed) - h.size - h.padding
      ensures submissionStart == RingSlot(old(submissionStart), 1) && submissionUsed == old(submissionUsed) - 1
      ensures bufferStart == if bufferUsed == 0 then 0 else (h.offset + h.size) % bufferSize
    {
      ghost var slots := submissions[..];
      var start := submissionStart;
      h := submissions[start];
      RetireStep(slots, start, submissionUsed, bufferStart, bufferUsed, bufferSize);
      var offset := (bufferStart + h.padding) % bufferSize;
      assert offset == h.offset;
      var used' := bufferUsed - (h.size + h.padding);
      var start' := if used' == 0 then 0 else (offset + h.size) % bufferSize;
      submissions[start] := EMPTY_SUBMISSION;
      submissionStart, submissionUsed := (submissionStart + 1) % MAX_SUBMISSIONS, submissionUsed - 1;
      bufferStart, bufferUsed := start', used';
      assert submissions[..] == slots[start := EMPTY_SUBMISSION];
      assert submissionStart == RingSlot(start, 1);
    }

    /**
     * The state of `ClearPendingUploads` after retiring the first k of `pend`: the ring is
     * valid, holds the rest of `pend`, every retired submission was retirable, and the bytes
     * in use are `used0` less those the retired ones held.
     */
    ghost predicate Cleared(pend: seq<Submission>, waitCount: nat, completed: nat, used0: nat, k: nat)
      reads this, submissions
    {
      Valid() && k <= |pend| && submissionUsed == |pend| - k && Pending() == pend[k..] &&
      (forall j :: 0 <= j < k ==> Retirable(pend, waitCount, completed, j)) &&
      bufferUsed + Footprint(pend[..k]) == used0
    }

    /**
     * `ClearPendingUploads`: pending submissions are retired in allocation order while they
     * have been submitted and their fence value has been reached; the first `waitCount` ones
     * are waited for. `completed` is the fence's completed value when the call starts.
     * Exactly a prefix of the pending submissions is retired, each of them retirable, the
     * first one left (if any) not, and the bytes they held are freed.
     */
    method ClearPendingUploads(waitCount: nat, completed: nat) returns (retired: nat)
      requires Valid()
      modifies this, submissions
      ensures Valid() && submissions == old(submissions) && bufferSize == old(bufferSize)
      ensures retired <= old(submissionUsed) && Pending() == old(Pending())[retired..]
      ensures submissionUsed == old(submissionUsed) - retired
      ensures forall j :: 0 <= j < retired ==> Retirable(old(Pending()), waitCount, completed, j)
      ensures retired < old(submissionUsed) ==> !Retirable(old(Pending()), waitCount, completed, retired)
      ensures bufferUsed + Footprint(old(Pending())[..retired]) == old(bufferUsed)
    {
      ghost var pend := Pending();
      ghost var used0 := bufferUsed;
      var used := submissionUsed;
      var seen := completed;
      retired := 0;
      assert pend[..0] == [];
      while retired < used
        invariant submissions == old(submissions) && bufferSize == old(bufferSize) && |pend| == used
        invariant Cleared(pend, waitCount, completed, used0, retired)
        invariant seen == SeenBefore(pend, waitCount, completed, retired)
        decreases used - retired
      {
        var done;
        done, seen := RetireIfDone(retired, waitCount, completed, seen, pend, used0);
        if !done {
          break;
        }
        retired := retired + 1;
      }
    }

    /**
     * One iteration of `ClearPendingUploads` on pending submission i, now the oldest: an
     * unsubmitted one stops the loop; otherwise it is waited for when i < waitCount, and it is
     * retired when the completed fence value seen has reached its fence value.
     */
    method RetireIfDone(i: nat, waitCount: nat, completed: nat, seen: nat, ghost pend: seq<Submission>, ghost used0: nat)
      returns (done: bool, seen': nat)
      requires Cleared(pend, waitCount, completed, used0, i) && i < |pend|
      requires seen == SeenBefore(pend, waitCount, completed, i)
      modifies this, submissions
      ensures submissions == old(submissions) && bufferSize == old(bufferSize)
      ensures done == Retirable(pend, waitCount, completed, i)
      ensures done ==> Cleared(pend, waitCount, completed, used0, i + 1) && seen' == SeenBefore(pend, waitCount, completed, i + 1)
      ensures !done ==> unchanged(this) && unchanged(submissions)
    {
      var s := submissions[submissionStart];
      assert s == pend[i] by { Arith.ModSmall(submissionStart, MAX_SUBMISSIONS); }
      assert s.size > 0 && bufferUsed >= s.size;
      seen' := seen;
      if s.fenceValue == UNSUBMITTED {
        return false, seen';
      }
      if i < waitCount && s.fenceValue > seen' {
        seen' := s.fenceValue;
      }
      assert seen' == SeenAt(pend, waitCount, completed, i);
      if seen' < s.fenceValue {
        return false, seen';
      }
      var h := RetireHead();
      assert pend[i + 1..] == pend[i..][1..];
      FootprintStep(pend, i);
      done := true;
    }

    /**
     * `AllocSubmission`: no slot when all 16 are pending or when `Placement` finds no room;
     * otherwise the block `Placement` chooses is appended, unsubmitted, to the pending
     * submissions, in the slot after the last one, and its size and padding are counted as used.
     */
    method AllocSubmission(size: nat) returns (slot: Option<nat>)
      requires Valid() && size > 0
      modifies this, submissions
      ensures Valid() && submissions == old(submissions) && bufferSize == old(bufferSize)
      ensures bufferStart == old(bufferStart) && submissionStart == old(submissionStart)
      ensures submissionUsed == old(submissionUsed) + (if slot.Some? then 1 else 0)
      ensures slot.None? <==>
        old(submissionUsed) == MAX_SUBMISSIONS || Placement(old(bufferStart), old(bufferUsed), bufferSize, size).None?
      ensures slot.None? ==> Pending() == old(Pending()) && bufferUsed == old(bufferUsed)
      ensures slot.Some? ==>
        var (offset, padding) := Placement(old(bufferStart), old(bufferUsed), bufferSize, size).value;
        slot.value == RingSlot(submissionStart, old(submissionUsed)) &&
        Pending() == old(Pending()) + [Submission(offset, size, UNSUBMITTED, padding)] &&
        bufferUsed == old(bufferUsed) + size + padding && offset + size <= bufferSize &&
        forall x :: offset <= x < offset + size ==> !InUse(x, old(bufferStart), old(bufferUsed), bufferSize)
      ensures old(submissionUsed) == 0 && size <= bufferSize ==> slot.Some?
    {
      if submissionUsed == MAX_SUBMISSIONS {
        return None;
      }
      if submissionUsed == 0 && size <= bufferSize {
        LayoutUsesBytes(Pending(), bufferStart, bufferUsed, bufferSize);
        PlacementEmpty(bufferSize, size);
      }
      var placement := Placement(bufferStart, bufferUsed, bufferSize, size);
      if placement.None? {
        return None;
      }
      var (offset, padding) := placement.value;
      PlacementSound(bufferStart, bufferUsed, bufferSize, size);
      var idx := Append(Submission(offset, size, UNSUBMITTED, padding));
      slot := Some(idx);
    }

    /**
     * The tail of `AllocSubmission`: a block that fits at the end of the used bytes goes into
     * the slot after the last pending one (which is empty) and its bytes are counted as used.
     */
    method Append(s: Submission) returns (idx: nat)
      requires Valid() && submissionUsed < MAX_SUBMISSIONS
      requires FitsAt(s, (bufferStart + bufferUsed) % bufferSize, bufferSize) && bufferUsed + s.size + s.padding <= bufferSize
      modifies this, submissions
      ensures Valid() && submissions == old(submissions) && bufferSize == old(bufferSize)
      ensures bufferStart == old(bufferStart) && submissionStart == old(submissionStart)
      ensures idx == RingSlot(submissionStart, old(submissionUsed)) && Pending() == old(Pending()) + [s]
      ensures bufferUsed == old(bufferUsed) + s.size + s.padding
    {
      idx := (submissionStart + submissionUsed) % MAX_SUBMISSIONS;
      assert submissions[idx].size == 0 by {
        assert submissions[..][RingSlot(submissionStart, submissionUsed)].size == 0;
      }
      ghost var slots := submissions[..];
      ghost var pend := Pending();
      LayoutEndPosition(pend, bufferStart, bufferUsed, bufferSize);
      LayoutAppend(pend, bufferStart, bufferUsed, bufferSize, s);
      RingWindowPush(slots, submissionStart, submissionUsed, s);
      FreeSlotsAfterPush(slots, submissionStart, submissionUsed, s);
      submissions[idx] := s;
      submissionUsed, bufferUsed := submissionUsed + 1, bufferUsed + s.size + s.padding;
      assert submissions[..] == slots[idx := s];
    }

    /**
     * The loop of `Flush` (and of `Begin` before a resize): with every pending submission
     * handed to the queue, waiting on all of them empties the ring.
     */
    method Flush(completed: nat)
      requires Valid() && AllSubmitted()
      modifies this, submissions
      ensures Valid() && submissions == old(submissions) && bufferSize == old(bufferSize)
      ensures Pending() == [] && bufferUsed == 0 && bufferStart == 0
    {
      while submissionUsed > 0
        invariant Valid() && AllSubmitted() && submissions == old(submissions) && bufferSize == old(bufferSize)
        decreases submissionUsed
      {
        ghost var pend := Pending();
        var retired := ClearPendingUploads(U64_MAX, completed);
        WaitedIsRetirable(pend, U64_MAX, completed, 0);
        assert pend[retired..] == Pending();
      }
    }

    /**
     * `TryClearPending`: when the lock is free, the pending submissions whose fence value the
     * fence has already passed are retired, without waiting.
     */
    method TryClearPending(lockAcquired: bool, completed: nat) returns (retired: nat)
      requires Valid()
      modifies this, submissions
      ensures Valid() && submissions == old(submissions) && bufferSize == old(bufferSize)
      ensures !lockAcquired ==> retired == 0 && Pending() == old(Pending())
      ensures retired <= |old(Pending())| && Pending() == old(Pending())[retired..]
      ensures forall j :: 0 <= j < retired ==>
        old(Pending())[j].fenceValue != UNSUBMITTED && old(Pending())[j].fenceValue <= completed
    {
      retired := 0;
      if lockAcquired {
        ghost var pend := Pending();
        retired := ClearPendingUploads(0, completed);
        forall j | 0 <= j < retired
          ensures pend[j].fenceValue != UNSUBMITTED && pend[j].fenceValue <= completed
        {
          UnwaitedRetirement(pend, completed, j);
        }
      }
    }

    /**
     * After a successful allocation: the newest pending submission is an unsubmitted block of
     * `size` bytes inside the buffer, in `slot`, and the ones before it are `p0` without its
     * first `dropped` entries.
     */
    ghost predicate NewestIs(p0: seq<Submission>, dropped: nat, size: nat, slot: nat)
      requires Valid()
      reads this, submissions
    {
      Newest(Pending(), p0, dropped, size, bufferSize) && slot == RingSlot(submissionStart, |Pending()| - 1)
    }

    /**
     * One attempt of `Begin`'s allocation: retire what `ClearPendingUploads` allows, then try
     * `AllocSubmission`. `p0` without its first `dropped` entries is what was pending before.
     * A failed attempt leaves a non-empty ring; one that waited on a submitted oldest entry
     * has retired it, so the ring never grows.
     */
    method ClearAndAlloc(waitCount: nat, size: nat, completed: nat, ghost p0: seq<Submission>, ghost dropped: nat)
      returns (found: Option<nat>, ghost dropped': nat)
      requires Valid() && 0 < size <= bufferSize && dropped <= |p0| && Pending() == p0[dropped..]
      modifies this, submissions
      ensures Valid() && submissions == old(submissions) && bufferSize == old(bufferSize)
      ensures dropped <= dropped' <= |p0|
      ensures found.None? ==> submissionUsed > 0 && Pending() == p0[dropped'..]
      ensures waitCount > 0 && old(submissionUsed) > 0 && old(Pending())[0].fenceValue != UNSUBMITTED ==>
        submissionUsed + (if found.None? then 1 else 0) <= old(submissionUsed)
      ensures found.Some? ==> NewestIs(p0, dropped', size, found.value)
    {
      dropped' := ClearFrom(waitCount, completed, p0, dropped);
      found := AllocNewest(size, p0, dropped');
    }

    /** The `ClearPendingUploads` half of `ClearAndAlloc`, with the retired count added to `dropped`. */
    method ClearFrom(waitCount: nat, completed: nat, ghost p0: seq<Submission>, ghost dropped: nat)
      returns (ghost dropped': nat)
      requires Valid() && dropped <= |p0| && Pending() == p0[dropped..]
      modifies this, submissions
      ensures Valid() && submissions == old(submissions) && bufferSize == old(bufferSize)
      ensures dropped <= dropped' <= |p0| && Pending() == p0[dropped'..]
      ensures waitCount > 0 && old(submissionUsed) > 0 && old(Pending())[0].fenceValue != UNSUBMITTED ==>
        submissionUsed < old(submissionUsed)
    {
      ghost var pend := Pending();
      ghost var waited := waitCount > 0 && submissionUsed > 0 && pend[0].fenceValue != UNSUBMITTED;
      if waited {
        WaitedIsRetirable(pend, waitCount, completed, 0);
      }
      var retired := ClearPendingUploads(waitCount, completed);
      assert waited ==> retired > 0;
      assert Pending() == p0[dropped + retired..];
      dropped' := dropped + retired;
    }

    /** The `AllocSubmission` half of `ClearAndAlloc`. */
    method AllocNewest(size: nat, ghost p0: seq<Submission>, ghost dropped: nat) returns (found: Option<nat>)
      requires Valid() && 0 < size <= bufferSize && dropped <= |p0| && Pending() == p0[dropped..]
      modifies this, submissions
      ensures Valid() && submissions == old(submissions) && bufferSize == old(bufferSize)
      ensures found.None? ==> submissionUsed > 0 && Pending() == p0[dropped..] && submissionUsed == old(submissionUsed)
      ensures found.Some? ==> NewestIs(p0, dropped, size, found.value) && submissionUsed == old(submissionUsed) + 1
    {
      ghost var before := Pending();
      found := AllocSubmission(size);
      if found.Some? {
        assert |Pending()| == |before| + 1 && found.value == RingSlot(submissionStart, |before|);
        assert Pending() == before + [Pending()[|before|]];
        NewestAppend(before, p0, dropped, Pending()[|before|], size, bufferSize);
      }
    }

    /**
     * The allocation part of `Begin`: finished submissions are retired, then allocation is
     * retried, waiting for the oldest pending submission each time, until it succeeds.
     */
    method Reserve(size: nat, completed: nat) returns (slot: nat, ghost dropped: nat)
      requires Valid() && AllSubmitted() && 0 < size <= bufferSize
      modifies this, submissions
      ensures Valid() && submissions == old(submissions) && bufferSize == old(bufferSize)
      ensures NewestIs(old(Pending()), dropped, size, slot)
    {
      ghost var p0 := Pending();
      var found;
      found, dropped := ClearAndAlloc(0, size, completed, p0, 0);
      while found.None?
        invariant Valid() && submissions == old(submissions) && bufferSize == old(bufferSize)
        invariant dropped <= |p0| && forall j :: 0 <= j < |p0| ==> p0[j].fenceValue != UNSUBMITTED
        invariant found.None? ==> submissionUsed > 0 && Pending() == p0[dropped..]
        invariant found.Some? ==> NewestIs(p0, dropped, size, found.value)
        decreases submissionUsed + (if found.None? then 1 else 0)
      {
        assert Pending()[0] == p0[dropped];
        ghost var used := submissionUsed;
        found, dropped := ClearAndAlloc(1, size, completed, p0, dropped);
      }
      slot := found.value;
    }

    /**
     * `Begin`: the size is rounded up to 512 bytes; a ring too small for it is drained and grown
     * to exactly that size; then a block is reserved. The new submission is the newest pending
     * one, and the ones before it are the old pending submissions that were not retired.
     */
    method Begin(size: nat, completed: nat) returns (ctx: UploadContext, ghost dropped: nat)
      requires Valid() && AllSubmitted() && size > 0
      modifies this, submissions
      ensures Valid() && submissions == old(submissions)
      ensures bufferSize == SF12Math.Max(AlignUp(size, PLACEMENT_ALIGNMENT), old(bufferSize))
      ensures NewestIs(old(Pending()), dropped, AlignUp(size, PLACEMENT_ALIGNMENT), ctx.slot)
      ensures ctx.resourceOffset == Pending()[|Pending()| - 1].offset
    {
      ghost var p0 := Pending();
      var aligned := AlignUp(size, PLACEMENT_ALIGNMENT);
      ghost var flushed := 0;
      if aligned > bufferSize {
        Flush(completed);
        Resize(aligned);
        flushed := |p0|;
      }
      assert Pending() == p0[flushed..];
      var slot;
      slot, dropped := Reserve(aligned, completed);
      dropped := flushed + dropped;
      ctx := UploadContext(slot, submissions[slot].offset);
    }

    /**
     * `End`: the submission's command list goes to the queue, and the fence value it will
     * signal is recorded in the submission; nothing else about the ring changes.
     */
    method End(ctx: UploadContext, ghost j: nat, syncOnDependentQueue: bool, queue: UploadQueue)
      returns (fenceValue: nat)
      requires Valid() && j < |Pending()| && ctx.slot == RingSlot(submissionStart, j)
      requires queue.fenceValue + 1 < UNSUBMITTED
      modifies submissions, queue
      ensures Valid()
      ensures fenceValue == old(queue.fenceValue) + 1 && queue.fenceValue == fenceValue
      ensures queue.waitCount == old(queue.waitCount) + (if syncOnDependentQueue then 1 else 0)
      ensures Pending() == old(Pending())[j := old(Pending())[j].(fenceValue := fenceValue)]
    {
      ghost var slots := submissions[..];
      ghost var pend := Pending();
      fenceValue := queue.SubmitCmdList(syncOnDependentQueue);
      var s := submissions[ctx.slot].(fenceValue := fenceValue);
      assert s == pend[j].(fenceValue := fenceValue);
      submissions[ctx.slot] := s;
      assert submissions[..] == slots[RingSlot(submissionStart, j) := s];
      RingWindowUpdate(slots, submissionStart, submissionUsed, j, s);
      FreeSlotsAfterUpdate(slots, submissionStart, submissionUsed, j, s);
      LayoutIgnoresFences(pend, Pending(), bufferStart, bufferUsed, bufferSize);
    }
  }

  // ---------------------------------------------------------------------------------------
  // FastUploader

  /** `FastUpload`: one buffer-to-buffer copy; buffers are opaque handles. */
  datatype FastUpload = FastUpload(srcBuffer: nat, srcOffset: nat, dstBuffer: nat, dstOffset: nat, copySize: nat)

  /** `FastUploader::MaxFastUploads`. */
  const MAX_FAST_UPLOADS: nat := 256

  /**
   * `FastUploader`: copies queued while render commands are generated, recorded into one
   * command list per frame, cycling through one command allocator per frame in flight.
   */
  class FastUploader {
    var uploads: array<FastUpload>
    var numUploads: nat
    var cmdAllocatorIdx: nat

    ghost predicate Valid()
      reads this
    {
      uploads.Length == MAX_FAST_UPLOADS && numUploads <= MAX_FAST_UPLOADS && cmdAllocatorIdx < DX12.RENDER_LATENCY
    }

    /** The copies queued since the last submission, in order. */
    ghost function Queued(): seq<FastUpload>
      requires Valid()
      reads this, uploads
    {
      uploads[..numUploads]
    }

    /** `Init`: no copies and the first allocator. */
    constructor ()
      ensures Valid() && fresh(uploads) && Queued() == [] && cmdAllocatorIdx == 0
    {
      uploads := new FastUpload[MAX_FAST_UPLOADS](_ => FastUpload(0, 0, 0, 0, 0));
      numUploads, cmdAllocatorIdx := 0, 0;
    }

    /** `QueueUpload`: the copy goes in the next entry; the source asserts there is one. */
    method QueueUpload(upload: FastUpload)
      requires Valid() && numUploads < MAX_FAST_UPLOADS
      modifies this, uploads
      ensures Valid() && uploads == old(uploads) && cmdAllocatorIdx == old(cmdAllocatorIdx)
      ensures Queued() == old(Queued()) + [upload]
    {
      uploads[numUploads] := upload;
      numUploads := numUploads + 1;
    }

    /**
     * `SubmitPending`: nothing happens when no copy is queued; otherwise every queued copy is
     * recorded, in order, the command list is submitted with a dependent-queue wait, the queue
     * is emptied and the next allocator is used.
     */
    method SubmitPending(queue: UploadQueue) returns (copies: seq<FastUpload>)
      requires Valid()
      modifies this, queue
      ensures Valid() && uploads == old(uploads)
      ensures copies == old(Queued())
      ensures old(numUploads) == 0 ==> unchanged(this) && unchanged(queue)
      ensures old(numUploads) > 0 ==>
        Queued() == [] && cmdAllocatorIdx == (old(cmdAllocatorIdx) + 1) % DX12.RENDER_LATENCY &&
        queue.fenceValue == old(queue.fenceValue) + 1 && queue.waitCount == old(queue.waitCount) + 1
    {
      copies := [];
      if numUploads == 0 {
        return;
      }
      for k := 0 to numUploads
        invariant copies == uploads[..k]
      {
        copies := copies + [uploads[k]];
      }
      var _ := queue.SubmitCmdList(true);
      numUploads := 0;
      cmdAllocatorIdx := (cmdAllocatorIdx + 1) % DX12.RENDER_LATENCY;
    }
  }

  // ---------------------------------------------------------------------------------------
  // Per-frame temporary buffer memory

  /** `TempBufferSize`: 2 MiB per frame in flight. */
  const TEMP_BUFFER_SIZE: nat := 2 * 1024 * 1024

  /** `MapResult` of `AcquireTempBufferMem`: which frame's buffer, and the offset in it. */
  datatype TempMem = TempMem(frameIdx: nat, offset: nat)

  /** The bump pointer `TempFrameUsed` into the current frame's temporary buffer. */
  class TempFrameAllocator {
    var used: nat

    constructor ()
      ensures used == 0
    {
      used := 0;
    }

    /**
     * `AcquireTempBufferMem`: `size + alignment` bytes are taken from the bump pointer and the
     * block is aligned inside them, so blocks handed out in one frame never overlap. The source
     * asserts that the block ends inside the buffer.
     */
    method AcquireTempBufferMem(size: nat, alignment: nat, currFrameIdx: nat) returns (r: TempMem)
      requires (if alignment > 0 then AlignUp(used, alignment) else used) + size <= TEMP_BUFFER_SIZE
      modifies this
      ensures used == old(used) + size + alignment
      ensures r.frameIdx == currFrameIdx && old(used) <= r.offset && r.offset + size <= used
      ensures r.offset + size <= TEMP_BUFFER_SIZE
      ensures alignment > 0 ==> r.offset % alignment == 0
    {
      var allocSize := size + alignment;
      var offset := used;
      used := used + allocSize;
      if alignment > 0 {
        offset := AlignUp(offset, alignment);
      }
      r := TempMem(currFrameIdx, offset);
    }

    /** The reset at the end of `EndFrame_Upload`. */
    method Reset()
      modifies this
      ensures used == 0
    {
      used := 0;
    }
  }

  // ---------------------------------------------------------------------------------------
  // Per-frame and flush entry points

  /**
   * `EndFrame_Upload`: the queued fast copies are submitted, the finished ring submissions are
   * retired if the ring's lock is free, the graphics queue is made to wait on each copy queue
   * that has a pending dependent wait, and the temporary buffer pointer is reset.
   */
  method EndFrameUpload(fast: FastUploader, fastQueue: UploadQueue, ring: UploadRingBuffer, uploadQueue: UploadQueue,
                        temp: TempFrameAllocator, lockAcquired: bool, completed: nat)
    returns (copies: seq<FastUpload>, uploadWait: Option<nat>, fastWait: Option<nat>)
    requires fast.Valid() && ring.Valid() && fastQueue != uploadQueue
    modifies fast, fastQueue, ring, ring.submissions, uploadQueue, temp
    ensures fast.Valid() && fast.Queued() == [] && copies == old(fast.Queued())
    ensures ring.Valid() && |ring.Pending()| <= |old(ring.Pending())|
    ensures forall j :: 0 <= j < |old(ring.Pending())| - |ring.Pending()| ==> old(ring.Pending())[j].fenceValue <= completed
    ensures uploadWait == (if old(uploadQueue.waitCount) > 0 then Some(uploadQueue.fenceValue) else None)
    ensures fastWait == (if old(fast.numUploads) > 0 || old(fastQueue.waitCount) > 0 then Some(fastQueue.fenceValue) else None)
    ensures uploadQueue.waitCount == 0 && fastQueue.waitCount == 0 && temp.used == 0
  {
    copies := fast.SubmitPending(fastQueue);
    var _ := ring.TryClearPending(lockAcquired, completed);
    uploadWait := uploadQueue.SyncDependentQueue();
    fastWait := fastQueue.SyncDependentQueue();
    temp.Reset();
  }

  /**
   * `Flush_Upload`: waiting for the upload queue's last fence value, then draining the ring,
   * leaves no pending submission.
   */
  method FlushUpload(ring: UploadRingBuffer, uploadQueue: UploadQueue, fastQueue: UploadQueue, completed: nat)
    returns (completed': nat)
    requires ring.Valid() && ring.AllSubmitted()
    modifies ring, ring.submissions
    ensures ring.Valid() && ring.Pending() == [] && ring.bufferUsed == 0
    ensures completed' >= uploadQueue.fenceValue && completed' >= fastQueue.fenceValue
  {
    completed' := uploadQueue.Flush(completed);
    ring.Flush(completed');
    completed' := fastQueue.Flush(completed');
  }
}
