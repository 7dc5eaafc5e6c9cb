/**
 * The arithmetic of the upload ring buffer in SampleFramework12's DX12 upload layer: where
 * `AllocSubmission` places a block, how the pending submissions lie back to back in the
 * byte ring, and the window of the 16-entry submission ring that is pending.
 */
module UploadRingSpec {
  import opened Ints
  import opened Wrappers
  import Arith

  /** `UploadRingBuffer::MaxSubmissions`. */
  const MAX_SUBMISSIONS: nat := 16

  /** The fence value `AllocSubmission` stores until `End` submits: `uint64(-1)`. */
  const UNSUBMITTED: nat := U64_MAX

  /** `UploadSubmission`, without its command allocator and list. */
  datatype Submission = Submission(offset: nat, size: nat, fenceValue: nat, padding: nat)

  /** `UploadSubmission::Reset`. */
  const EMPTY_SUBMISSION: Submission := Submission(0, 0, 0, 0)

  // ---------------------------------------------------------------------------------------
  // The submission ring

  /** Slot of the i-th pending submission, counted from `start`. */
  function RingSlot(start: nat, i: nat): (r: nat)
    ensures r < MAX_SUBMISSIONS
  {
    (start + i) % MAX_SUBMISSIONS
  }

  /** Two positions less than a full turn apart are different slots. */
  lemma RingSlotInjective(start: nat, i: nat, j: nat)
    requires i < MAX_SUBMISSIONS && j < MAX_SUBMISSIONS && i != j
    ensures RingSlot(start, i) != RingSlot(start, j)
  {
    var r := start % MAX_SUBMISSIONS;
    Arith.ModAddLeft(start, i, MAX_SUBMISSIONS);
    Arith.ModAddLeft(start, j, MAX_SUBMISSIONS);
    Arith.ModSmall(r + i, MAX_SUBMISSIONS);
    Arith.ModSmall(r + j, MAX_SUBMISSIONS);
  }

  /** Advancing the start by one shifts every later position down by one. */
  lemma RingSlotAdvance(start: nat, i: nat)
    ensures RingSlot(RingSlot(start, 1), i) == RingSlot(start, i + 1)
  {
    Arith.ModAddLeft(start + 1, i, MAX_SUBMISSIONS);
  }

  /** The pending submissions: `used` slots from `start`, in allocation order. */
  function RingWindow(slots: seq<Submission>, start: nat, used: nat): (r: seq<Submission>)
    requires |slots| == MAX_SUBMISSIONS && used <= MAX_SUBMISSIONS
    ensures |r| == used && forall i :: 0 <= i < used ==> r[i] == slots[RingSlot(start, i)]
  {
    seq(used, i requires 0 <= i < used => slots[RingSlot(start, i)])
  }

  /** Filling the slot after the window appends to the window. */
  lemma RingWindowPush(slots: seq<Submission>, start: nat, used: nat, s: Submission)
    requires |slots| == MAX_SUBMISSIONS && used < MAX_SUBMISSIONS
    ensures RingWindow(slots[RingSlot(start, used) := s], start, used + 1) == RingWindow(slots, start, used) + [s]
  {
    var slots' := slots[RingSlot(start, used) := s];
    forall i | 0 <= i < used
      ensures slots'[RingSlot(start, i)] == slots[RingSlot(start, i)]
    {
      RingSlotInjective(start, i, used);
    }
  }

  /** Clearing the first slot and advancing the start drops the window's head. */
  lemma RingWindowPop(slots: seq<Submission>, start: nat, used: nat, s: Submission)
    requires |slots| == MAX_SUBMISSIONS && 0 < used <= MAX_SUBMISSIONS
    ensures RingWindow(slots[RingSlot(start, 0) := s], RingSlot(start, 1), used - 1) == RingWindow(slots, start, used)[1..]
  {
    var slots' := slots[RingSlot(start, 0) := s];
    forall i | 0 <= i < used - 1
      ensures slots'[RingSlot(RingSlot(start, 1), i)] == slots[RingSlot(start, i + 1)]
    {
      RingSlotAdvance(start, i);
      RingSlotInjective(start, 0, i + 1);
    }
  }

  /** Rewriting one slot of the window rewrites that element of the window. */
  lemma RingWindowUpdate(slots: seq<Submission>, start: nat, used: nat, j: nat, s: Submission)
    requires |slots| == MAX_SUBMISSIONS && j < used <= MAX_SUBMISSIONS
    ensures RingWindow(slots[RingSlot(start, j) := s], start, used) == RingWindow(slots, start, used)[j := s]
  {
    var slots' := slots[RingSlot(start, j) := s];
    forall i | 0 <= i < used && i != j
      ensures slots'[RingSlot(start, i)] == slots[RingSlot(start, i)]
    {
      RingSlotInjective(start, i, j);
    }
  }

  /** Every slot outside the window is empty (the `Size == 0` that `AllocSubmission` asserts). */
  predicate FreeSlotsEmpty(slots: seq<Submission>, start: nat, used: nat)
    requires |slots| == MAX_SUBMISSIONS
  {
    forall i :: used <= i < MAX_SUBMISSIONS ==> slots[RingSlot(start, i)].size == 0
  }

  /** Emptying the head slot and advancing the start keeps every free slot empty. */
  lemma FreeSlotsAfterPop(slots: seq<Submission>, start: nat, used: nat)
    requires |slots| == MAX_SUBMISSIONS && start < MAX_SUBMISSIONS && 0 < used <= MAX_SUBMISSIONS
    requires FreeSlotsEmpty(slots, start, used)
    ensures FreeSlotsEmpty(slots[start := EMPTY_SUBMISSION], RingSlot(start, 1), used - 1)
  {
    var slots' := slots[start := EMPTY_SUBMISSION];
    forall i | used - 1 <= i < MAX_SUBMISSIONS
      ensures slots'[RingSlot(RingSlot(start, 1), i)].size == 0
    {
      RingSlotAdvance(start, i);
      if i + 1 == MAX_SUBMISSIONS {
        Arith.ModAddModulus(start, MAX_SUBMISSIONS);
        Arith.ModSmall(start, MAX_SUBMISSIONS);
      } else {
        Arith.ModSmall(start, MAX_SUBMISSIONS);
        RingSlotInjective(start, 0, i + 1);
      }
    }
  }

  /** Filling the slot after the window keeps the remaining free slots empty. */
  lemma FreeSlotsAfterPush(slots: seq<Submission>, start: nat, used: nat, s: Submission)
    requires |slots| == MAX_SUBMISSIONS && used < MAX_SUBMISSIONS
    requires FreeSlotsEmpty(slots, start, used)
    ensures FreeSlotsEmpty(slots[RingSlot(start, used) := s], start, used + 1)
  {
    forall i | used + 1 <= i < MAX_SUBMISSIONS
      ensures slots[RingSlot(start, used) := s][RingSlot(start, i)].size == 0
    {
      RingSlotInjective(start, used, i);
    }
  }

  /** Rewriting a pending slot keeps the free slots empty. */
  lemma FreeSlotsAfterUpdate(slots: seq<Submission>, start: nat, used: nat, j: nat, s: Submission)
    requires |slots| == MAX_SUBMISSIONS && j < used <= MAX_SUBMISSIONS
    requires FreeSlotsEmpty(slots, start, used)
    ensures FreeSlotsEmpty(slots[RingSlot(start, j) := s], start, used)
  {
    forall i | used <= i < MAX_SUBMISSIONS
      ensures slots[RingSlot(start, j) := s][RingSlot(start, i)].size == 0
    {
      RingSlotInjective(start, j, i);
    }
  }

  // ---------------------------------------------------------------------------------------
  // Retirement

  /**
   * The completed fence value `ClearPendingUploads` sees when it checks pending submission j:
   * the value it started from, raised by each blocking wait on the first `waitCount` entries.
   */
  function SeenAt(pend: seq<Submission>, waitCount: nat, completed: nat, j: nat): (r: nat)
    requires j < |pend|
    ensures r >= completed
    ensures j < waitCount ==> r >= pend[j].fenceValue
  {
    var before := if j == 0 then completed else SeenAt(pend, waitCount, completed, j - 1);
    if j < waitCount && pend[j].fenceValue > before then pend[j].fenceValue else before
  }

  /** The completed fence value seen before pending submission j is checked. */
  function SeenBefore(pend: seq<Submission>, waitCount: nat, completed: nat, j: nat): (r: nat)
    requires j <= |pend|
    ensures r >= completed
  {
    if j == 0 then completed else SeenAt(pend, waitCount, completed, j - 1)
  }

  /** Pending submission j is retired when it was submitted and its fence value was reached. */
  predicate Retirable(pend: seq<Submission>, waitCount: nat, completed: nat, j: nat)
    requires j < |pend|
  {
    pend[j].fenceValue != UNSUBMITTED && SeenAt(pend, waitCount, completed, j) >= pend[j].fenceValue
  }

  /** A submitted entry that is waited on is always retired. */
  lemma WaitedIsRetirable(pend: seq<Submission>, waitCount: nat, completed: nat, j: nat)
    requires j < |pend| && j < waitCount && pend[j].fenceValue != UNSUBMITTED
    ensures Retirable(pend, waitCount, completed, j)
  {
  }

  /** Without waits, an entry is retired exactly when the fence has passed its value. */
  lemma UnwaitedRetirement(pend: seq<Submission>, completed: nat, j: nat)
    requires j < |pend|
    ensures SeenAt(pend, 0, completed, j) == completed
    ensures Retirable(pend, 0, completed, j) <==> pend[j].fenceValue != UNSUBMITTED && pend[j].fenceValue <= completed
  {
    if j > 0 {
      UnwaitedRetirement(pend, completed, j - 1);
    }
  }

  /** The footprint of a prefix grows by one entry's size and padding. */
  lemma {:induction false} FootprintStep(subs: seq<Submission>, i: nat)
    requires i < |subs|
    ensures Footprint(subs[..i + 1]) == Footprint(subs[..i]) + subs[i].size + subs[i].padding
    decreases i
  {
    if i > 0 {
      assert subs[..i + 1][1..] == subs[1..][..i];
      assert subs[..i][1..] == subs[1..][..i - 1];
      FootprintStep(subs[1..], i - 1);
    }
  }

  // ---------------------------------------------------------------------------------------
  // The byte ring

  /**
   * The pending submissions lie back to back from `pos`: each skips its padding (which runs to
   * the end of the buffer and restarts at 0), starts at its offset, ends inside the buffer, and
   * together they use exactly `used` bytes.
   */
  predicate Layout(subs: seq<Submission>, pos: nat, used: nat, bufferSize: nat)
    decreases |subs|
  {
    pos < bufferSize &&
    if |subs| == 0 then used == 0
    else
      var h := subs[0];
      h.size > 0 && h.size + h.padding <= used &&
      h.offset == (pos + h.padding) % bufferSize && h.offset + h.size <= bufferSize &&
      (h.padding > 0 ==> h.offset == 0 && pos + h.padding == bufferSize) &&
      Layout(subs[1..], (h.offset + h.size) % bufferSize, used - h.size - h.padding, bufferSize)
  }

  /**
   * The upload ring's invariant, on values: at most 16 pending submissions, no more bytes
   * used than the buffer holds, the pending blocks back to back from `pos`, every free slot
   * empty, and an empty ring starting at 0.
   */
  predicate RingValid(slots: seq<Submission>, start: nat, used: nat, pos: nat, bytesUsed: nat, bufferSize: nat)
  {
    |slots| == MAX_SUBMISSIONS && start < MAX_SUBMISSIONS && used <= MAX_SUBMISSIONS &&
    0 < bufferSize && bytesUsed <= bufferSize && (bytesUsed == 0 ==> pos == 0) &&
    Layout(RingWindow(slots, start, used), pos, bytesUsed, bufferSize) &&
    FreeSlotsEmpty(slots, start, used)
  }

  /**
   * Retiring the head of a valid ring, on values: the head is the first pending submission,
   * its block starts after its padding and fits the buffer, and emptying its slot and
   * advancing the start leaves a valid ring holding the rest, laid out from just past the
   * block.
   */
  lemma RetireStep(slots: seq<Submission>, start: nat, used: nat, pos: nat, bytesUsed: nat, bufferSize: nat)
    requires RingValid(slots, start, used, pos, bytesUsed, bufferSize) && 0 < used
    ensures var h := slots[start];
      var rest := bytesUsed - h.size - h.padding;
      var slots' := slots[start := EMPTY_SUBMISSION];
      h == RingWindow(slots, start, used)[0] && h.size + h.padding <= bytesUsed &&
      h.offset == (pos + h.padding) % bufferSize && h.offset + h.size <= bufferSize &&
      RingWindow(slots', RingSlot(start, 1), used - 1) == RingWindow(slots, start, used)[1..] &&
      RingValid(slots', RingSlot(start, 1), used - 1, if rest == 0 then 0 else (h.offset + h.size) % bufferSize, rest, bufferSize)
  {
    var pend := RingWindow(slots, start, used);
    Arith.ModSmall(start, MAX_SUBMISSIONS);
    assert RingSlot(start, 0) == start;
    LayoutPop(pend, pos, bytesUsed, bufferSize);
    RingWindowPop(slots, start, used, EMPTY_SUBMISSION);
    FreeSlotsAfterPop(slots, start, used);
  }

  /** The position just past the last submission of a layout starting at `pos`. */
  function LayoutEnd(subs: seq<Submission>, pos: nat, bufferSize: nat): nat
    requires bufferSize > 0
    decreases |subs|
  {
    if |subs| == 0 then pos else LayoutEnd(subs[1..], (subs[0].offset + subs[0].size) % bufferSize, bufferSize)
  }

  /** A layout of `used` bytes from `pos` ends at `(pos + used) % bufferSize`. */
  lemma {:induction false} LayoutEndPosition(subs: seq<Submission>, pos: nat, used: nat, bufferSize: nat)
    requires Layout(subs, pos, used, bufferSize)
    ensures LayoutEnd(subs, pos, bufferSize) == (pos + used) % bufferSize
    decreases |subs|
  {
    if |subs| > 0 {
      var h := subs[0];
      var rest := used - h.size - h.padding;
      var next := (h.offset + h.size) % bufferSize;
      LayoutEndPosition(subs[1..], next, rest, bufferSize);
      assert LayoutEnd(subs, pos, bufferSize) == (next + rest) % bufferSize;
      Arith.ModAddLeft(h.offset + h.size, rest, bufferSize);
      if h.padding > 0 {
        assert h.offset == 0;
        assert pos + used == (h.size + rest) + bufferSize;
        Arith.ModAddModulus(h.size + rest, bufferSize);
      } else {
        Arith.ModSmall(pos, bufferSize);
        assert h.offset == pos;
      }
    }
  }

  /**
   * Retiring the head of a layout: its block starts `padding` bytes after `pos` and ends inside
   * the buffer, and the rest is a layout from the end of that block (from 0 once nothing is left).
   */
  lemma LayoutPop(subs: seq<Submission>, pos: nat, used: nat, bufferSize: nat)
    requires Layout(subs, pos, used, bufferSize) && |subs| > 0
    ensures var h := subs[0]; var rest := used - h.size - h.padding;
      h.size + h.padding <= used &&
      h.offset == (pos + h.padding) % bufferSize && h.offset + h.size <= bufferSize &&
      Layout(subs[1..], if rest == 0 then 0 else (h.offset + h.size) % bufferSize, rest, bufferSize)
  {
    var h := subs[0];
    var rest := used - h.size - h.padding;
    if rest == 0 {
      LayoutUsesBytes(subs[1..], (h.offset + h.size) % bufferSize, rest, bufferSize);
      assert subs[1..] == [];
    }
  }

  /**
   * The pending submissions after `Begin` allocates: `p0` without its first `dropped` entries,
   * then an unsubmitted block of `size` bytes that ends inside the buffer.
   */
  predicate Newest(pend: seq<Submission>, p0: seq<Submission>, dropped: nat, size: nat, bufferSize: nat)
  {
    dropped <= |p0| && |pend| == |p0| - dropped + 1 && pend[..|pend| - 1] == p0[dropped..] &&
    pend[|pend| - 1].size == size && pend[|pend| - 1].fenceValue == UNSUBMITTED &&
    pend[|pend| - 1].offset + size <= bufferSize
  }

  /** Appending the allocated block to what is left of `p0` gives `Newest`. */
  lemma NewestAppend(rest: seq<Submission>, p0: seq<Submission>, dropped: nat, s: Submission, size: nat, bufferSize: nat)
    requires dropped <= |p0| && rest == p0[dropped..]
    requires s.size == size && s.fenceValue == UNSUBMITTED && s.offset + size <= bufferSize
    ensures Newest(rest + [s], p0, dropped, size, bufferSize)
  {
    assert (rest + [s])[..|rest|] == rest;
  }

  /** A non-empty layout uses at least one byte. */
  lemma LayoutUsesBytes(subs: seq<Submission>, pos: nat, used: nat, bufferSize: nat)
    requires Layout(subs, pos, used, bufferSize)
    ensures |subs| > 0 <==> used > 0
  {
  }

  /** The conditions for a block to go right after a layout ending at `e`. */
  predicate FitsAt(s: Submission, e: nat, bufferSize: nat)
    requires bufferSize > 0
  {
    s.size > 0 && s.offset == (e + s.padding) % bufferSize && s.offset + s.size <= bufferSize &&
    (s.padding > 0 ==> s.offset == 0 && e + s.padding == bufferSize)
  }

  /** Appending a block that fits at the end extends the layout by its size and padding. */
  lemma {:induction false} LayoutAppend(subs: seq<Submission>, pos: nat, used: nat, bufferSize: nat, s: Submission)
    requires Layout(subs, pos, used, bufferSize)
    requires FitsAt(s, LayoutEnd(subs, pos, bufferSize), bufferSize)
    ensures Layout(subs + [s], pos, used + s.size + s.padding, bufferSize)
    decreases |subs|
  {
    if |subs| == 0 {
      assert (subs + [s])[1..] == [];
      assert LayoutEnd(subs, pos, bufferSize) == pos;
      assert Layout([], (s.offset + s.size) % bufferSize, 0, bufferSize);
    } else {
      var h := subs[0];
      assert (subs + [s])[1..] == subs[1..] + [s];
      LayoutAppend(subs[1..], (h.offset + h.size) % bufferSize, used - h.size - h.padding, bufferSize, s);
    }
  }

  /** Two sequences of submissions that differ only in fence values. */
  predicate SameBlocks(a: seq<Submission>, b: seq<Submission>)
  {
    |a| == |b| &&
    forall i :: 0 <= i < |a| ==> a[i].offset == b[i].offset && a[i].size == b[i].size && a[i].padding == b[i].padding
  }

  /** The layout does not depend on fence values. */
  lemma {:induction false} LayoutIgnoresFences(a: seq<Submission>, b: seq<Submission>, pos: nat, used: nat, bufferSize: nat)
    requires Layout(a, pos, used, bufferSize) && SameBlocks(a, b)
    ensures Layout(b, pos, used, bufferSize)
    decreases |a|
  {
    if |a| > 0 {
      LayoutIgnoresFences(a[1..], b[1..], (a[0].offset + a[0].size) % bufferSize, used - a[0].size - a[0].padding, bufferSize);
    }
  }

  /** Total bytes (size plus padding) of a run of submissions. */
  function Footprint(subs: seq<Submission>): nat
  {
    if |subs| == 0 then 0 else subs[0].size + subs[0].padding + Footprint(subs[1..])
  }

  // ---------------------------------------------------------------------------------------
  // AllocSubmission's placement

  /** Byte `x` of the ring lies in the used region that starts at `start` and holds `used` bytes. */
  predicate InUse(x: nat, start: nat, used: nat, bufferSize: nat)
    requires bufferSize > 0 && x < bufferSize && start < bufferSize
  {
    (x + bufferSize - start) % bufferSize < used
  }

  /**
   * The placement `AllocSubmission` chooses for `size` bytes, as (offset, padding): none when
   * the free byte count is too small; at the end when the tail has room; at 0, padding out
   * the tail, when only the head has room; after the wrapped end when the used region
   * already wraps; otherwise none.
   */
  function Placement(start: nat, used: nat, bufferSize: nat, size: nat): (r: Option<(nat, nat)>)
    requires start < bufferSize && used <= bufferSize
  {
    if size > bufferSize - used then None
    else
      var end := start + used;
      if end < bufferSize then
        var endAmt := bufferSize - end;
        if endAmt >= size then Some((end, 0))
        else if start >= size then Some((0, endAmt))
        else None
      else
        var wrappedEnd := end % bufferSize;
        if start - wrappedEnd >= size then Some((wrappedEnd, 0)) else None
  }

  /**
   * A placement that succeeds fits at the end of the used region, stays inside the buffer,
   * keeps the used count within the buffer, and overlaps no byte that was in use.
   */
  lemma PlacementSound(start: nat, used: nat, bufferSize: nat, size: nat)
    requires start < bufferSize && used <= bufferSize && size > 0
    requires Placement(start, used, bufferSize, size).Some?
    ensures var (offset, padding) := Placement(start, used, bufferSize, size).value;
            FitsAt(Submission(offset, size, UNSUBMITTED, padding), (start + used) % bufferSize, bufferSize) &&
            used + size + padding <= bufferSize &&
            forall x :: offset <= x < offset + size ==> !InUse(x, start, used, bufferSize)
  {
    var end := start + used;
    var p := Placement(start, used, bufferSize, size).value;
    if end < bufferSize {
      if bufferSize - end >= size {
        assert p.0 == end && p.1 == 0;
        PlacedAtEnd(start, used, bufferSize, size);
      } else {
        assert p.0 == 0 && p.1 == bufferSize - end;
        PlacedAtZero(start, used, bufferSize, size);
      }
    } else {
      Arith.ModSmall(end, bufferSize);
      assert p.0 == end - bufferSize && p.1 == 0;
      PlacedAfterWrap(start, used, bufferSize, size);
    }
  }

  /** Placement at the end of an unwrapped used region, when the tail has room. */
  lemma PlacedAtEnd(start: nat, used: nat, bufferSize: nat, size: nat)
    requires start < bufferSize && size > 0 && start + used + size <= bufferSize
    ensures FitsAt(Submission(start + used, size, UNSUBMITTED, 0), (start + used) % bufferSize, bufferSize)
    ensures forall x :: start + used <= x < start + used + size ==> !InUse(x, start, used, bufferSize)
  {
    Arith.ModSmall(start + used, bufferSize);
    TailFree(start, used, bufferSize, size);
  }

  /** Placement at 0, padding out the tail, when only the head has room. */
  lemma PlacedAtZero(start: nat, used: nat, bufferSize: nat, size: nat)
    requires start < bufferSize && start + used < bufferSize && 0 < size <= start
    ensures FitsAt(Submission(0, size, UNSUBMITTED, bufferSize - start - used), (start + used) % bufferSize, bufferSize)
    ensures forall x :: 0 <= x < size ==> !InUse(x, start, used, bufferSize)
  {
    Arith.ModSmall(start + used, bufferSize);
    Arith.ModAddModulus(0, bufferSize);
    HeadFree(start, used, bufferSize, size);
  }

  /** Placement after the wrapped end of a used region that wraps. */
  lemma PlacedAfterWrap(start: nat, used: nat, bufferSize: nat, size: nat)
    requires start < bufferSize && used <= bufferSize && bufferSize <= start + used && size > 0
    requires start + used - bufferSize + size <= start
    ensures FitsAt(Submission(start + used - bufferSize, size, UNSUBMITTED, 0), (start + used) % bufferSize, bufferSize)
    ensures forall x :: start + used - bufferSize <= x < start + used - bufferSize + size ==> !InUse(x, start, used, bufferSize)
  {
    Arith.ModSmall(start + used, bufferSize);
    Arith.ModSmall(start + used - bufferSize, bufferSize);
    WrappedFree(start, used, bufferSize, size);
  }

  /** Bytes right after an unwrapped used region, up to the buffer end, are free. */
  lemma TailFree(start: nat, used: nat, bufferSize: nat, size: nat)
    requires start < bufferSize && start + used + size <= bufferSize
    ensures forall x :: start + used <= x < start + used + size ==> !InUse(x, start, used, bufferSize)
  {
    forall x | start + used <= x < start + used + size
      ensures !InUse(x, start, used, bufferSize)
    {
      Arith.ModSmall(x + bufferSize - start, bufferSize);
    }
  }

  /** Bytes before the start of an unwrapped used region are free. */
  lemma HeadFree(start: nat, used: nat, bufferSize: nat, size: nat)
    requires start < bufferSize && start + used < bufferSize && size <= start
    ensures forall x :: 0 <= x < size ==> !InUse(x, start, used, bufferSize)
  {
    forall x | 0 <= x < size
      ensures !InUse(x, start, used, bufferSize)
    {
      Arith.ModSmall(x + bufferSize - start, bufferSize);
    }
  }

  /** Bytes between the wrapped end of a used region and its start are free. */
  lemma WrappedFree(start: nat, used: nat, bufferSize: nat, size: nat)
    requires start < bufferSize && used <= bufferSize && bufferSize <= start + used
    requires start + used - bufferSize + size <= start
    ensures forall x :: start + used - bufferSize <= x < start + used - bufferSize + size ==> !InUse(x, start, used, bufferSize)
  {
    forall x | start + used - bufferSize <= x < start + used - bufferSize + size
      ensures !InUse(x, start, used, bufferSize)
    {
      Arith.ModSmall(x + bufferSize - start, bufferSize);
    }
  }

  /** An empty ring that starts at 0 places any block that is not larger than the buffer at 0. */
  lemma PlacementEmpty(bufferSize: nat, size: nat)
    requires 0 < size <= bufferSize
    ensures Placement(0, 0, bufferSize, size) == Some((0, 0))
  {
  }

  /** The placement never fails for lack of bytes alone: it fails whenever the free count is short. */
  lemma PlacementNeedsFreeBytes(start: nat, used: nat, bufferSize: nat, size: nat)
    requires start < bufferSize && used <= bufferSize
    requires Placement(start, used, bufferSize, size).Some?
    ensures size <= bufferSize - used
  {
  }
}
