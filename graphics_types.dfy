/**
 * The integer bookkeeping of SampleFramework12's graphics types: the descriptor heap (a
 * stack-style dead list of persistent indices, a per-frame bump allocator for temporary
 * ones, and the conversion between indices and handles), the N-buffered dynamic buffer,
 * and the sizing and clamping helpers of raw and structured buffers, textures and
 * feedback textures. The D3D12 heaps and resources are opaque; their start addresses and
 * the descriptor increment are inputs.
 */
module GraphicsTypes {
  import opened Ints
  import opened Wrappers
  import opened Utility
  import opened SF12Math
  import DX12

  /** `InvalidDescriptorIndex`: uint32(-1). */
  const INVALID_DESCRIPTOR_INDEX: nat := U32_MAX

  datatype DescriptorHeapType = CbvSrvUav | Sampler | Rtv | Dsv

  /** A persistent allocation: its index, and its CPU handle in each of the heaps. */
  datatype PersistentDescriptorAlloc = PersistentDescriptorAlloc(index: nat, handles: seq<nat>)

  /** A temporary allocation: the handles and index of its first descriptor. */
  datatype TempDescriptorAlloc = TempDescriptorAlloc(startCPUHandle: nat, startGPUHandle: nat, startIndex: nat)

  /** No index appears twice. */
  predicate Distinct(s: seq<nat>)
  {
    forall i, j :: 0 <= i < j < |s| ==> s[i] != s[j]
  }

  /** The identity list the dead list starts from. */
  function Identity(n: nat): (r: seq<nat>)
    ensures |r| == n && forall i :: 0 <= i < n ==> r[i] == i
  {
    seq(n, i => i)
  }

  lemma IdentityDistinct(n: nat)
    ensures Distinct(Identity(n))
  {
  }

  /** A fresh array holding the identity list, as `Init` fills the dead list. */
  method IdentityArray(n: nat) returns (dead: array<nat>)
    ensures fresh(dead) && dead[..] == Identity(n)
  {
    dead := new nat[n];
    var i := 0;
    while i < n
      invariant 0 <= i <= n
      invariant forall k :: 0 <= k < i ==> dead[k] == k
      modifies dead
    {
      dead[i] := i;
      i := i + 1;
    }
  }

  /** An array holding the identity list is a valid, complete dead list. */
  lemma IdentityFree(dead: array<nat>, n: nat)
    requires dead[..] == Identity(n)
    ensures dead.Length == n && Distinct(dead[0..])
    ensures forall k :: 0 <= k < n ==> dead[k] < n
    ensures forall x :: 0 <= x < n ==> x in dead[0..]
  {
    IdentityDistinct(n);
    IdentityCovers(n);
    assert dead[0..] == dead[..];
  }

  /** Every index below `n` is in the identity list. */
  lemma IdentityCovers(n: nat)
    ensures forall x :: 0 <= x < n ==> x in Identity(n)
  {
    forall x | 0 <= x < n ensures x in Identity(n) {
      assert Identity(n)[x] == x;
    }
  }

  /** Swapping two positions keeps the elements, and so keeps them distinct. */
  lemma SwappedKeepsElements(s: seq<nat>, i: nat, j: nat)
    requires i < |s| && j < |s|
    ensures forall x :: x in Swapped(s, i, j) <==> x in s
    ensures Distinct(s) ==> Distinct(Swapped(s, i, j))
  {
    var t := Swapped(s, i, j);
    forall x | x in s ensures x in t {
      var k :| 0 <= k < |s| && s[k] == x;
      if k == i { assert t[j] == x; } else if k == j { assert t[i] == x; } else { assert t[k] == x; }
    }
    forall x | x in t ensures x in s {
      var k :| 0 <= k < |t| && t[k] == x;
      if k == i { assert s[j] == x; } else if k == j { assert s[i] == x; } else { assert s[k] == x; }
    }
    if Distinct(s) {
      forall a, b | 0 <= a < b < |t| ensures t[a] != t[b] {
        var a' := if a == i then j else if a == j then i else a;
        var b' := if b == i then j else if b == j then i else b;
        assert t[a] == s[a'] && t[b] == s[b'] && a' != b';
      }
    }
  }

  // ---------------------------------------------------------------------------------------
  // DescriptorHeap

  class DescriptorHeap {
    var numPersistent: nat
    var persistentAllocated: nat
    /** `DeadList`: slots [persistentAllocated, numPersistent) hold the free persistent indices. */
    var deadList: array<nat>
    var numTemporary: nat
    var temporaryAllocated: nat
    var heapIndex: nat
    var numHeaps: nat
    var descriptorSize: nat
    var shaderVisible: bool
    var heapType: DescriptorHeapType
    /** `Heaps[0] != nullptr`. */
    var heapsCreated: bool
    var cpuStart: seq<nat>
    var gpuStart: seq<nat>

    /**
     * The dead list covers the persistent range, and its free region holds distinct
     * indices below numPersistent: the indices not in it are the live ones.
     */
    ghost predicate Valid()
      reads this, deadList
    {
      deadList.Length == numPersistent && persistentAllocated <= numPersistent &&
      |cpuStart| == numHeaps && |gpuStart| == numHeaps && (heapsCreated ==> numHeaps > 0) &&
      Distinct(deadList[persistentAllocated..]) &&
      (forall k :: persistentAllocated <= k < numPersistent ==> deadList[k] < numPersistent)
    }

    /** The free persistent indices, in the order they will be handed out. */
    ghost function FreeList(): seq<nat>
      requires Valid()
      reads this, deadList
    {
      deadList[persistentAllocated..]
    }

    /** The persistent indices currently handed out. */
    ghost function Live(): set<nat>
      requires Valid()
      reads this, deadList
    {
      set x | 0 <= x < numPersistent && x !in deadList[persistentAllocated..]
    }

    /** A fresh heap: no descriptors, no heaps created. */
    constructor ()
      ensures Valid() && Live() == {} && !heapsCreated
      ensures numPersistent == 0 && persistentAllocated == 0 && temporaryAllocated == 0 && heapIndex == 0
    {
      numPersistent, persistentAllocated := 0, 0;
      deadList := new nat[0];
      numTemporary, temporaryAllocated := 0, 0;
      heapIndex, numHeaps, descriptorSize := 0, 0, 0;
      shaderVisible := false;
      heapType := CbvSrvUav;
      heapsCreated := false;
      cpuStart, gpuStart := [], [];
    }

    /**
     * `Init`: after the `Shutdown` it starts with (which asserts that nothing is allocated),
     * the dead list is the identity, RTV and DSV heaps are never shader-visible, and a
     * shader-visible heap is double-buffered. The start addresses and the increment are the
     * device's. Neither the temporary count nor the heap index is reset.
     */
    method Init(numPersistent': nat, numTemporary': nat, heapType': DescriptorHeapType, shaderVisible': bool,
                descriptorSize': nat, cpuStarts: seq<nat>, gpuStarts: seq<nat>)
      requires persistentAllocated == 0
      requires numPersistent' + numTemporary' > 0
      requires |cpuStarts| == DX12.RENDER_LATENCY && |gpuStarts| == DX12.RENDER_LATENCY
      modifies this
      ensures Valid() && fresh(deadList) && heapsCreated
      ensures numPersistent == numPersistent' && numTemporary == numTemporary' && heapType == heapType'
      ensures shaderVisible == (shaderVisible' && heapType' != Rtv && heapType' != Dsv)
      ensures numHeaps == (if shaderVisible then 2 else 1)
      ensures deadList[..] == Identity(numPersistent) && persistentAllocated == 0 && Live() == {}
      ensures cpuStart == cpuStarts[..numHeaps]
      ensures temporaryAllocated == old(temporaryAllocated) && heapIndex == old(heapIndex)
    {
      var dead := IdentityArray(numPersistent');
      IdentityFree(dead, numPersistent');
      SetLayout(numTemporary', heapType', shaderVisible', descriptorSize', cpuStarts, gpuStarts);
      SetDeadList(dead, numPersistent');
    }

    /** The heap layout `Init` records: visibility, heap count, start addresses, increment. */
    method SetLayout(numTemporary': nat, heapType': DescriptorHeapType, shaderVisible': bool,
                     descriptorSize': nat, cpuStarts: seq<nat>, gpuStarts: seq<nat>)
      requires |cpuStarts| == DX12.RENDER_LATENCY && |gpuStarts| == DX12.RENDER_LATENCY
      modifies this
      ensures numTemporary == numTemporary' && heapType == heapType' && descriptorSize == descriptorSize'
      ensures shaderVisible == (shaderVisible' && heapType' != Rtv && heapType' != Dsv)
      ensures numHeaps == (if shaderVisible then 2 else 1) && heapsCreated
      ensures cpuStart == cpuStarts[..numHeaps] && |gpuStart| == numHeaps
      ensures numPersistent == old(numPersistent) && persistentAllocated == old(persistentAllocated)
      ensures deadList == old(deadList) && temporaryAllocated == old(temporaryAllocated) && heapIndex == old(heapIndex)
    {
      var visible := shaderVisible' && heapType' != Rtv && heapType' != Dsv;
      var heaps: nat := if visible then 2 else 1;
      numTemporary, heapType, shaderVisible, numHeaps, descriptorSize := numTemporary', heapType', visible, heaps, descriptorSize';
      cpuStart := cpuStarts[..heaps];
      gpuStart := if visible then gpuStarts[..heaps] else seq(heaps, _ => 0);
      heapsCreated := true;
    }

    /** The freshly filled dead list `Init` installs, with nothing allocated from it. */
    method SetDeadList(dead: array<nat>, numPersistent': nat)
      requires persistentAllocated == 0 && |cpuStart| == numHeaps && |gpuStart| == numHeaps
      requires heapsCreated && numHeaps > 0
      requires dead.Length == numPersistent' && Distinct(dead[0..])
      requires forall k :: 0 <= k < numPersistent' ==> dead[k] < numPersistent'
      requires forall x :: 0 <= x < numPersistent' ==> x in dead[0..]
      modifies this
      ensures Valid() && deadList == dead && numPersistent == numPersistent' && Live() == {}
      ensures persistentAllocated == 0 && heapsCreated
      ensures numTemporary == old(numTemporary) && heapType == old(heapType) && descriptorSize == old(descriptorSize)
      ensures shaderVisible == old(shaderVisible) && numHeaps == old(numHeaps)
      ensures cpuStart == old(cpuStart) && gpuStart == old(gpuStart)
      ensures temporaryAllocated == old(temporaryAllocated) && heapIndex == old(heapIndex)
    {
      numPersistent, deadList := numPersistent', dead;
    }

    /** `Shutdown`: asserts that every persistent descriptor was freed, and releases the heaps. */
    method Shutdown()
      requires Valid() && persistentAllocated == 0
      modifies this
      ensures Valid() && !heapsCreated
      ensures numPersistent == old(numPersistent) && deadList == old(deadList) && persistentAllocated == 0
    {
      heapsCreated := false;
    }

    /**
     * `AllocatePersistent(index)`: throws when every persistent descriptor is taken;
     * otherwise hands out the first free index, after swapping a requested index (which
     * must be free) into that slot. The index handed out was not live, and becomes live.
     */
    method AllocatePersistent(index: nat) returns (r: Result<PersistentDescriptorAlloc, string>)
      requires Valid() && heapsCreated
      requires index != INVALID_DESCRIPTOR_INDEX ==> index in FreeList()
      modifies this, deadList
      ensures Valid() && deadList == old(deadList)
      ensures old(persistentAllocated) >= numPersistent ==> r.Err? && persistentAllocated == old(persistentAllocated)
      ensures old(persistentAllocated) < numPersistent ==>
                r.Ok? && persistentAllocated == old(persistentAllocated) + 1 &&
                r.value.index < numPersistent && r.value.index !in old(Live()) &&
                Live() == old(Live()) + {r.value.index} &&
                (index != INVALID_DESCRIPTOR_INDEX ==> r.value.index == index) &&
                (index == INVALID_DESCRIPTOR_INDEX ==> r.value.index == old(deadList[persistentAllocated])) &&
                r.value.handles == HandlesOf(r.value.index)
      ensures numPersistent == old(numPersistent) && numHeaps == old(numHeaps) && cpuStart == old(cpuStart)
      ensures temporaryAllocated == old(temporaryAllocated) && heapIndex == old(heapIndex)
    {
      if persistentAllocated >= numPersistent {
        return Err("Ran out of persistent descriptors");
      }
      ghost var free0 := FreeList();
      ghost var live0 := Live();
      if index != INVALID_DESCRIPTOR_INDEX {
        MoveToFront(index);
      }
      var idx := deadList[persistentAllocated];
      TakeFront();
      assert live0 == old(Live());
      r := Ok(PersistentDescriptorAlloc(idx, HandlesOf(idx)));
    }

    /** The search loop of AllocatePersistent: the requested free index is swapped to the front of the free list. */
    method MoveToFront(index: nat)
      requires Valid() && index in FreeList()
      modifies deadList
      ensures Valid() && Live() == old(Live())
      ensures deadList[persistentAllocated] == index
      ensures old(deadList[persistentAllocated]) != index ==> deadList[persistentAllocated..] != old(deadList[persistentAllocated..])
    {
      var pa := persistentAllocated;
      var i := pa;
      while deadList[i] != index
        invariant pa <= i < numPersistent && index in deadList[i..]
        decreases numPersistent - i
      {
        assert deadList[i..] == [deadList[i]] + deadList[i + 1..];
        i := i + 1;
      }
      ghost var before := deadList[pa..];
      Swap(deadList, i, pa);
      assert deadList[pa..] == Swapped(before, i - pa, 0);
      SwappedKeepsElements(before, i - pa, 0);
      assert forall x :: x in deadList[pa..] <==> x in before;
    }

    /** `index = DeadList[PersistentAllocated]; ++PersistentAllocated`: the front of the free list becomes live. */
    method TakeFront()
      requires Valid() && persistentAllocated < numPersistent
      modifies this
      ensures Valid() && persistentAllocated == old(persistentAllocated) + 1
      ensures deadList == old(deadList)
      ensures old(deadList[persistentAllocated]) !in old(Live())
      ensures Live() == old(Live()) + {old(deadList[persistentAllocated])}
      ensures numPersistent == old(numPersistent) && numHeaps == old(numHeaps) && cpuStart == old(cpuStart) && gpuStart == old(gpuStart)
      ensures descriptorSize == old(descriptorSize) && heapsCreated == old(heapsCreated)
      ensures temporaryAllocated == old(temporaryAllocated) && heapIndex == old(heapIndex)
    {
      ghost var free0 := deadList[persistentAllocated..];
      var idx := deadList[persistentAllocated];
      assert idx == free0[0];
      persistentAllocated := persistentAllocated + 1;
      assert deadList[persistentAllocated..] == free0[1..];
      assert idx !in free0[1..] by {
        forall k | 0 <= k < |free0[1..]| ensures free0[1..][k] != idx {
          assert free0[1..][k] == free0[k + 1];
        }
      }
      assert forall x :: x in free0 <==> x == idx || x in free0[1..];
    }

    /**
     * `FreePersistent(idx)`: the invalid index is ignored; otherwise the index is pushed back
     * onto the free list, which must hold a slot for it, and the caller's index is reset to
     * invalid. The index must be live (the source does not check for double frees).
     */
    method FreePersistent(idx: nat) returns (idx': nat)
      requires Valid()
      requires idx != INVALID_DESCRIPTOR_INDEX ==> heapsCreated && idx < numPersistent && persistentAllocated > 0 && idx in Live()
      modifies this, deadList
      ensures Valid() && deadList == old(deadList) && idx' == INVALID_DESCRIPTOR_INDEX
      ensures idx == INVALID_DESCRIPTOR_INDEX ==> persistentAllocated == old(persistentAllocated) && Live() == old(Live())
      ensures idx != INVALID_DESCRIPTOR_INDEX ==>
                persistentAllocated == old(persistentAllocated) - 1 && Live() == old(Live()) - {idx} &&
                FreeList() == [idx] + old(FreeList())
      ensures numPersistent == old(numPersistent) && numHeaps == old(numHeaps) && cpuStart == old(cpuStart)
      ensures temporaryAllocated == old(temporaryAllocated) && heapIndex == old(heapIndex)
    {
      if idx == INVALID_DESCRIPTOR_INDEX {
        return INVALID_DESCRIPTOR_INDEX;
      }
      ghost var free0 := deadList[persistentAllocated..];
      deadList[persistentAllocated - 1] := idx;
      persistentAllocated := persistentAllocated - 1;
      assert deadList[persistentAllocated..] == [idx] + free0;
      assert idx !in free0;
      assert forall x :: x in deadList[persistentAllocated..] <==> x == idx || x in free0;
      idx' := INVALID_DESCRIPTOR_INDEX;
    }

    /**
     * `FreePersistent(handle)`: on a single heap, a non-null handle is converted to its index
     * and freed, and the caller's handle is reset to null.
     */
    method FreePersistentHandle(handle: nat) returns (handle': nat)
      requires Valid() && numHeaps == 1 && heapIndex < |cpuStart| && descriptorSize > 0
      requires numPersistent <= U32_MAX
      requires handle != 0 ==>
                 heapsCreated && persistentAllocated > 0 &&
                 cpuStart[heapIndex] <= handle < cpuStart[heapIndex] + descriptorSize * TotalNumDescriptors() &&
                 (handle - cpuStart[heapIndex]) % descriptorSize == 0 && IndexFromHandle(handle) in Live()
      modifies this, deadList
      ensures Valid() && handle' == 0 && deadList == old(deadList)
      ensures handle == 0 ==> persistentAllocated == old(persistentAllocated) && Live() == old(Live())
      ensures handle != 0 ==> persistentAllocated == old(persistentAllocated) - 1 &&
                              Live() == old(Live()) - {old(IndexFromHandle(handle))}
    {
      if handle != 0 {
        var idx := IndexFromHandle(handle);
        var _ := FreePersistent(idx);
      }
      handle' := 0;
    }

    /**
     * `AllocateTemporary(count)`: the block starts after the persistent range, at the
     * temporary count before the bump; only that start is checked against NumTemporary.
     */
    method AllocateTemporary(count: nat) returns (r: TempDescriptorAlloc)
      requires Valid() && heapsCreated && heapIndex < numHeaps
      requires count > 0 && temporaryAllocated < numTemporary
      modifies this
      ensures Valid() && heapIndex == old(heapIndex)
      ensures r.startIndex == numPersistent + old(temporaryAllocated)
      ensures numPersistent <= r.startIndex < numPersistent + numTemporary
      ensures temporaryAllocated == old(temporaryAllocated) + count
      ensures persistentAllocated == old(persistentAllocated) && deadList == old(deadList) && heapIndex == old(heapIndex)
      ensures numPersistent == old(numPersistent) && numTemporary == old(numTemporary) && numHeaps == old(numHeaps)
      ensures cpuStart == old(cpuStart) && gpuStart == old(gpuStart) && descriptorSize == old(descriptorSize)
      ensures r.startCPUHandle == CPUHandle(r.startIndex, heapIndex)
      ensures r.startGPUHandle == gpuStart[heapIndex] + r.startIndex * descriptorSize
    {
      var tempIdx := temporaryAllocated;
      temporaryAllocated := temporaryAllocated + count;
      var finalIdx := tempIdx + numPersistent;
      r := TempDescriptorAlloc(cpuStart[heapIndex] + finalIdx * descriptorSize,
                               gpuStart[heapIndex] + finalIdx * descriptorSize, finalIdx);
    }

    /** `EndFrame`: the temporary allocations are dropped and the next heap is used. */
    method EndFrame()
      requires Valid() && heapsCreated
      modifies this
      ensures Valid() && temporaryAllocated == 0 && heapsCreated && numHeaps == old(numHeaps)
      ensures heapIndex == (old(heapIndex) + 1) % numHeaps && heapIndex < numHeaps
      ensures persistentAllocated == old(persistentAllocated) && deadList == old(deadList) && Live() == old(Live())
      ensures numPersistent == old(numPersistent) && numTemporary == old(numTemporary) && numHeaps == old(numHeaps)
      ensures cpuStart == old(cpuStart) && gpuStart == old(gpuStart) && descriptorSize == old(descriptorSize)
    {
      temporaryAllocated := 0;
      heapIndex := (heapIndex + 1) % numHeaps;
    }

    /** The CPU handles of one persistent index, one per heap. */
    function HandlesOf(idx: nat): (r: seq<nat>)
      reads this
      ensures |r| == |cpuStart| && forall i :: 0 <= i < |r| ==> r[i] == CPUHandle(idx, i)
    {
      var starts, size := cpuStart, descriptorSize;
      seq(|starts|, i requires 0 <= i < |starts| => starts[i] + idx * size)
    }

    function TotalNumDescriptors(): nat
      reads this
    {
      numPersistent + numTemporary
    }

    /** `CPUHandleFromIndex(descriptorIdx, heapIdx)`. */
    function CPUHandle(descriptorIdx: nat, heapIdx: nat): (r: nat)
      requires heapIdx < |cpuStart|
      reads this
      ensures r >= cpuStart[heapIdx]
    {
      cpuStart[heapIdx] + descriptorIdx * descriptorSize
    }

    /** `IndexFromHandle`: the offset from the current heap's start, in descriptors. */
    function IndexFromHandle(handle: nat): (r: nat)
      requires heapIndex < |cpuStart| && descriptorSize > 0
      requires cpuStart[heapIndex] <= handle < cpuStart[heapIndex] + descriptorSize * TotalNumDescriptors()
      requires (handle - cpuStart[heapIndex]) % descriptorSize == 0
      reads this
      ensures r < TotalNumDescriptors()
    {
      Arith.DivBelow(handle - cpuStart[heapIndex], descriptorSize, TotalNumDescriptors());
      (handle - cpuStart[heapIndex]) / descriptorSize
    }

    /** A handle made from an index on the current heap converts back to that index. */
    lemma HandleIndexRoundTrip(i: nat)
      requires heapIndex < |cpuStart| && descriptorSize > 0 && i < TotalNumDescriptors()
      ensures cpuStart[heapIndex] <= CPUHandle(i, heapIndex) < cpuStart[heapIndex] + descriptorSize * TotalNumDescriptors()
      ensures (CPUHandle(i, heapIndex) - cpuStart[heapIndex]) % descriptorSize == 0
      ensures IndexFromHandle(CPUHandle(i, heapIndex)) == i
    {
      var off := i * descriptorSize;
      assert CPUHandle(i, heapIndex) - cpuStart[heapIndex] == off;
      Arith.MulMonotone(i + 1, TotalNumDescriptors(), descriptorSize);
      Arith.DivModUnique(off, descriptorSize, i, 0);
    }
  }
}
