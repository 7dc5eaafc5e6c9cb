/**
 * SampleFramework12's heap containers: `Array<T>`, a fixed-size block that can be re-sized,
 * and `List<T>`, a growable array with a count and a capacity that starts at 16 and doubles.
 *
 * A C++ default-constructed `T` is modelled by the value `DefaultItem` each container is
 * created with. A released (`nullptr`) data block is an empty Dafny array.
 */
module Containers {
  import opened Wrappers

  // ---------------------------------------------------------------------------------------
  // Specification functions

  /** `count` copies of `v`. */
  function Repeat<T>(v: T, count: nat): (r: seq<T>)
    ensures |r| == count
    ensures forall k :: 0 <= k < count ==> r[k] == v
  {
    seq(count, _ => v)
  }

  /**
   * Array::Resize as written: the copy loop runs over the OLD size, so for
   * 0 < newSize < |prev| it writes past the end of the new block. Such calls give None;
   * otherwise the result keeps the old elements and fills the rest from `fill`.
   */
  function ResizeAsWritten<T>(prev: seq<T>, newSize: nat, fill: T): (r: Option<seq<T>>)
  {
    if newSize == |prev| then Some(prev)
    else if newSize == 0 then Some([])
    else if |prev| > newSize then None
    else Some(prev + Repeat(fill, newSize - |prev|))
  }

  /** The as-written Resize is undefined exactly when it shrinks to a non-zero size. */
  lemma ResizeAsWrittenOverrunsWhenShrinking<T>(prev: seq<T>, newSize: nat, fill: T)
    ensures ResizeAsWritten(prev, newSize, fill).None? <==> 0 < newSize < |prev|
    ensures ResizeAsWritten(prev, newSize, fill).Some? ==>
      ResizeAsWritten(prev, newSize, fill).value == Resized(prev, newSize, fill)
  {
    if |prev| < newSize {
      assert Resized(prev, newSize, fill) == prev + Repeat(fill, newSize - |prev|);
    }
  }

  /** Concrete witness: shrinking four elements to two overruns the new block. */
  lemma ResizeAsWrittenShrinkExample()
    ensures ResizeAsWritten([1, 2, 3, 4], 2, 0) == None
    ensures Resized([1, 2, 3, 4], 2, 0) == [1, 2]
  {
    assert [1, 2, 3, 4][..2] == [1, 2];
  }

  /** The intended resize: keep the first min(old, new) elements, fill the rest. */
  function Resized<T>(prev: seq<T>, newSize: nat, fill: T): (r: seq<T>)
    ensures |r| == newSize
    ensures forall k :: 0 <= k < newSize && k < |prev| ==> r[k] == prev[k]
    ensures forall k :: |prev| <= k < newSize ==> r[k] == fill
  {
    if newSize <= |prev| then prev[..newSize] else prev + Repeat(fill, newSize - |prev|)
  }

  /** The capacity `Reserve` reaches from `cap` by doubling until it covers `request`. */
  function Doubled(cap: nat, request: nat): (r: nat)
    requires cap > 0
    ensures r >= cap && r >= request
    decreases request - cap
  {
    if request > cap then Doubled(2 * cap, request) else cap
  }

  /** Doubling stops at the first value that covers the request. */
  lemma {:induction false} DoubledIsLeast(cap: nat, request: nat)
    requires cap > 0
    ensures Doubled(cap, request) == cap || Doubled(cap, request) < 2 * request
    decreases request - cap
  {
    if request > cap {
      DoubledIsLeast(2 * cap, request);
    }
  }

  /** Capacity after `Reserve(request)`: unchanged when it already suffices, else 16, 32, ... */
  function GrownCapacity(cap: nat, request: nat): (r: nat)
    ensures r >= cap && r >= request
    ensures request <= cap ==> r == cap
  {
    if request <= cap then cap else Doubled(if cap == 0 then 16 else cap, request)
  }

  /** Growth never more than doubles past the request (or the 16-element minimum). */
  lemma GrownCapacityIsTight(cap: nat, request: nat)
    requires request > cap
    ensures GrownCapacity(cap, request) < 2 * request || GrownCapacity(cap, request) == 16
      || GrownCapacity(cap, request) == cap
  {
    DoubledIsLeast(if cap == 0 then 16 else cap, request);
  }

  /**
   * List::Remove as written: the loop assigns into slot `idx` every time, so slot `idx` ends
   * with the old last element and the other slots keep their values.
   */
  function RemovedAsWritten<T>(s: seq<T>, idx: nat): (r: seq<T>)
    requires idx < |s|
    ensures |r| == |s| - 1
  {
    s[idx := s[|s| - 1]][..|s| - 1]
  }

  /** The intended Remove: an order-preserving shift. */
  function RemovedInOrder<T>(s: seq<T>, idx: nat): (r: seq<T>)
    requires idx < |s|
    ensures |r| == |s| - 1
    ensures forall k :: 0 <= k < idx ==> r[k] == s[k]
    ensures forall k :: idx <= k < |s| - 1 ==> r[k] == s[k + 1]
  {
    s[..idx] + s[idx + 1..]
  }

  /** The as-written Remove still removes exactly the element at idx, but reorders. */
  lemma RemovedAsWrittenIsPermutation<T>(s: seq<T>, idx: nat)
    requires idx < |s|
    ensures multiset(RemovedAsWritten(s, idx)) == multiset(s) - multiset{s[idx]}
    ensures multiset(RemovedInOrder(s, idx)) == multiset(s) - multiset{s[idx]}
  {
    var n := |s| - 1;
    var a, x := s[..idx], s[idx];
    if idx < n {
      var m, y := s[idx + 1..n], s[n];
      assert s == a + [x] + m + [y];
      assert RemovedAsWritten(s, idx) == a + [y] + m;
      assert RemovedInOrder(s, idx) == a + m + [y];
      SplitMultiset(a, x, m, y);
    } else {
      assert s == a + [x];
      assert RemovedAsWritten(s, idx) == a == RemovedInOrder(s, idx);
    }
  }

  lemma SplitMultiset<T>(a: seq<T>, x: T, m: seq<T>, y: T)
    ensures multiset(a + [y] + m) == multiset(a + [x] + m + [y]) - multiset{x}
    ensures multiset(a + m + [y]) == multiset(a + [x] + m + [y]) - multiset{x}
  {
    assert multiset(a + [x] + m + [y]) == multiset(a) + multiset{x} + multiset(m) + multiset{y};
    assert multiset(a + [y] + m) == multiset(a) + multiset{y} + multiset(m);
    assert multiset(a + m + [y]) == multiset(a) + multiset(m) + multiset{y};
  }

  /** The two agree on removing the last element, and differ already on [0, 1, 2] at 0. */
  lemma RemovedAsWrittenReorders()
    ensures RemovedAsWritten([0, 1, 2], 0) == [2, 1]
    ensures RemovedInOrder([0, 1, 2], 0) == [1, 2]
  {
    assert [0, 1, 2][0 := 2][..2] == [2, 1];
    assert [0, 1, 2][1..] == [1, 2];
  }

  lemma RemoveLastAgrees<T>(s: seq<T>)
    requires |s| > 0
    ensures RemovedAsWritten(s, |s| - 1) == RemovedInOrder(s, |s| - 1) == s[..|s| - 1]
  {
    assert s[|s| - 1 := s[|s| - 1]] == s;
  }

  /**
   * List::RemoveMultiple as written: only the `numItems` slots starting at idx receive the
   * elements `numItems` further on; slots from idx + numItems onward are not moved.
   */
  function RemovedMultipleAsWritten<T>(s: seq<T>, idx: nat, numItems: nat): (r: seq<T>)
    requires idx + numItems <= |s|
    ensures |r| == |s| - numItems
  {
    seq(|s| - numItems, j requires 0 <= j < |s| - numItems =>
      if idx <= j < idx + numItems then s[j + numItems] else s[j])
  }

  /** The intended RemoveMultiple: delete the run [idx, idx + numItems) and close the gap. */
  function RemovedMultipleInOrder<T>(s: seq<T>, idx: nat, numItems: nat): (r: seq<T>)
    requires idx + numItems <= |s|
    ensures |r| == |s| - numItems
    ensures forall k :: 0 <= k < idx ==> r[k] == s[k]
    ensures forall k :: idx <= k < |s| - numItems ==> r[k] == s[k + numItems]
  {
    s[..idx] + s[idx + numItems..]
  }

  /** The two agree whenever the tail after the removed run is no longer than the run. */
  lemma RemovedMultipleAgreesOnShortTail<T>(s: seq<T>, idx: nat, numItems: nat)
    requires idx + numItems <= |s| && |s| <= idx + 2 * numItems
    ensures RemovedMultipleAsWritten(s, idx, numItems) == RemovedMultipleInOrder(s, idx, numItems)
  {
  }

  /** ... and differ on [0, 1, 2, 3] removing one element at 0: the tail is not shifted. */
  lemma RemovedMultipleAsWrittenLosesTail()
    ensures RemovedMultipleAsWritten([0, 1, 2, 3], 0, 1) == [1, 1, 2]
    ensures RemovedMultipleInOrder([0, 1, 2, 3], 0, 1) == [1, 2, 3]
  {
    assert [0, 1, 2, 3][1..] == [1, 2, 3];
  }

  /** `count` elements `Insert` places at idx, shifting the rest up by one. */
  function Inserted<T>(s: seq<T>, item: T, idx: nat): (r: seq<T>)
    requires idx <= |s|
    ensures |r| == |s| + 1 && r[idx] == item
    ensures forall k :: 0 <= k < idx ==> r[k] == s[k]
    ensures forall k :: idx < k <= |s| ==> r[k] == s[k - 1]
  {
    s[..idx] + [item] + s[idx..]
  }

  /** Removing what was inserted gives the original list back. */
  lemma InsertThenRemove<T>(s: seq<T>, item: T, idx: nat)
    requires idx <= |s|
    ensures RemovedInOrder(Inserted(s, item, idx), idx) == s
  {
    var t := Inserted(s, item, idx);
    assert t[..idx] == s[..idx];
    assert t[idx + 1..] == s[idx..];
    assert s == s[..idx] + s[idx..];
  }

  // ---------------------------------------------------------------------------------------
  // Array<T>

  class Array<T> {
    /** The element block; its length is the array's `size`. */
    var data: array<T>
    /** The value a default-constructed `T` has. */
    const DefaultItem: T

    function Size(): nat
      reads this
    {
      data.Length
    }

    function Elements(): seq<T>
      reads this, data
    {
      data[..]
    }

    /** `Array()`: no elements. */
    constructor (defaultItem: T)
      ensures DefaultItem == defaultItem
      ensures Elements() == []
    {
      DefaultItem := defaultItem;
      data := new T[0];
    }

    /** `Init(numElements)`: a new block of default-constructed elements. */
    method Init(numElements: nat)
      modifies this
      ensures fresh(data)
      ensures Elements() == Repeat(DefaultItem, numElements)
    {
      var d := DefaultItem;
      data := new T[numElements](_ => d);
    }

    /** `Fill(value)`: every element becomes `value`. */
    method Fill(value: T)
      modifies data
      ensures Elements() == Repeat(value, Size())
    {
      var i := 0;
      while i < data.Length
        invariant 0 <= i <= data.Length
        invariant forall k :: 0 <= k < i ==> data[k] == value
      {
        data[i] := value;
        i := i + 1;
      }
    }

    /** `Init(numElements, fillValue)`. */
    method InitFilled(numElements: nat, fillValue: T)
      modifies this
      ensures fresh(data)
      ensures Elements() == Repeat(fillValue, numElements)
    {
      Init(numElements);
      Fill(fillValue);
    }

    /** `Shutdown()`: releases the block. */
    method Shutdown()
      modifies this
      ensures Elements() == []
    {
      data := new T[0];
    }

    /**
     * `Resize(numElements)`, with the copy bounded by the smaller of the two sizes (the
     * as-written loop bound is `ResizeAsWritten`).
     */
    method Resize(numElements: nat)
      modifies this
      ensures Elements() == Resized(old(Elements()), numElements, DefaultItem)
      ensures numElements == old(Size()) ==> data == old(data)
    {
      if numElements == data.Length {
        assert Resized(data[..], numElements, DefaultItem) == data[..];
        return;
      }
      if numElements == 0 {
        Shutdown();
        return;
      }
      var d := DefaultItem;
      var newData := new T[numElements](_ => d);
      var n := if data.Length < numElements then data.Length else numElements;
      var i := 0;
      while i < n
        invariant 0 <= i <= n
        invariant forall k :: 0 <= k < i ==> newData[k] == data[k]
        invariant forall k :: n <= k < numElements ==> newData[k] == d
        modifies newData
      {
        newData[i] := data[i];
        i := i + 1;
      }
      data := newData;
    }
  }

  // ---------------------------------------------------------------------------------------
  // List<T>

  class List<T> {
    /** The storage block; its length is `maxCount`, the current capacity. */
    var data: array<T>
    var count: nat
    const DefaultItem: T

    ghost predicate Valid()
      reads this
    {
      count <= data.Length
    }

    function MaxCount(): nat
      reads this
    {
      data.Length
    }

    /** The live elements `data[0..count)`. */
    function Contents(): seq<T>
      requires Valid()
      reads this, data
    {
      data[..count]
    }

    /** `List()`: no storage and no elements. */
    constructor (defaultItem: T)
      ensures Valid() && Contents() == [] && MaxCount() == 0
      ensures DefaultItem == defaultItem
    {
      DefaultItem := defaultItem;
      data := new T[0];
      count := 0;
    }

    /**
     * `Reserve(newMaxCount)`: never shrinks; grows to the first of 16, 32, ... (or of the
     * current capacity doubled) that covers the request, moving the elements across.
     */
    method Reserve(newMaxCount: nat)
      requires Valid()
      modifies this
      ensures Valid() && count == old(count)
      ensures Contents() == old(Contents())
      ensures MaxCount() == GrownCapacity(old(MaxCount()), newMaxCount)
      ensures newMaxCount <= old(MaxCount()) ==> data == old(data)
      ensures newMaxCount > old(MaxCount()) ==> fresh(data)
    {
      if newMaxCount <= data.Length {
        return;
      }
      var maxCount := if data.Length == 0 then 16 else data.Length;
      while newMaxCount > maxCount
        invariant maxCount > 0
        invariant Doubled(maxCount, newMaxCount) == GrownCapacity(data.Length, newMaxCount)
        modifies {}
        decreases newMaxCount - maxCount
      {
        maxCount := maxCount * 2;
      }
      var d := DefaultItem;
      var newData := new T[maxCount](_ => d);
      var i := 0;
      while i < count
        invariant 0 <= i <= count
        invariant forall k :: 0 <= k < i ==> newData[k] == data[k]
        modifies newData
      {
        newData[i] := data[i];
        i := i + 1;
      }
      data := newData;
    }

    /** `Init(initialMaxCount, initialCount)`: capacity for both, `initialCount` defaults. */
    method Init(initialMaxCount: nat, initialCount: nat)
      requires Valid()
      modifies this, data
      ensures Valid() && Contents() == Repeat(DefaultItem, initialCount)
      ensures MaxCount() >= initialMaxCount && MaxCount() >= old(MaxCount())
    {
      var reserveAmt := if initialMaxCount > initialCount then initialMaxCount else initialCount;
      Reserve(reserveAmt);
      count := initialCount;
      Fill(DefaultItem);
    }

    /** `Fill(value)`: every live element becomes `value`. */
    method Fill(value: T)
      requires Valid()
      modifies data
      ensures Valid() && Contents() == Repeat(value, count)
    {
      var i := 0;
      while i < count
        invariant 0 <= i <= count
        invariant forall k :: 0 <= k < i ==> data[k] == value
      {
        data[i] := value;
        i := i + 1;
      }
    }

    /** `Shutdown()`: releases storage. */
    method Shutdown()
      modifies this
      ensures Valid() && Contents() == [] && MaxCount() == 0
    {
      data := new T[0];
      count := 0;
    }

    /** `Add(item)`: appends and returns the index the item landed at. */
    method Add(item: T) returns (idx: nat)
      requires Valid()
      modifies this, data
      ensures Valid() && Contents() == old(Contents()) + [item]
      ensures idx == old(count)
      ensures MaxCount() == GrownCapacity(old(MaxCount()), old(count) + 1)
    {
      Reserve(count + 1);
      idx := count;
      data[idx] := item;
      count := count + 1;
      assert Contents() == old(Contents()) + [item];
    }

    /** `Add()`: appends a default-constructed element. */
    method AddDefault() returns (idx: nat)
      requires Valid()
      modifies this, data
      ensures Valid() && Contents() == old(Contents()) + [DefaultItem]
      ensures idx == old(count)
    {
      idx := Add(DefaultItem);
    }

    /** `AddMultiple(itemCount, item)`: appends `itemCount` copies; nothing when 0. */
    method AddMultiple(itemCount: nat, item: T)
      requires Valid()
      modifies this, data
      ensures Valid() && Contents() == old(Contents()) + Repeat(item, itemCount)
      ensures itemCount == 0 ==> data == old(data) && MaxCount() == old(MaxCount())
    {
      Append(Repeat(item, itemCount));
    }

    /** `AddMultiple(itemCount)`: appends `itemCount` default-constructed elements. */
    method AddMultipleDefault(itemCount: nat)
      requires Valid()
      modifies this, data
      ensures Valid() && Contents() == old(Contents()) + Repeat(DefaultItem, itemCount)
    {
      AddMultiple(itemCount, DefaultItem);
    }

    /** `Append(items, itemCount)`: appends the items in order; nothing when empty. */
    method Append(items: seq<T>)
      requires Valid()
      modifies this, data
      ensures Valid() && Contents() == old(Contents()) + items
      ensures items == [] ==> data == old(data) && MaxCount() == old(MaxCount())
      ensures MaxCount() >= old(count) + |items|
    {
      if |items| == 0 {
        assert Contents() == old(Contents()) + items;
        return;
      }
      Reserve(count + |items|);
      var i := 0;
      while i < |items|
        invariant 0 <= i <= |items|
        invariant Valid() && count + |items| <= data.Length
        invariant count == old(count) && data[..count] == old(Contents())
        invariant forall k :: 0 <= k < i ==> data[count + k] == items[k]
        modifies data
      {
        data[count + i] := items[i];
        i := i + 1;
      }
      count := count + |items|;
      assert Contents() == old(Contents()) + items;
    }

    /** `Insert(item, idx)`: idx <= count is asserted; later elements move up by one. */
    method Insert(item: T, idx: nat)
      requires Valid() && idx <= count
      modifies this, data
      ensures Valid() && Contents() == Inserted(old(Contents()), item, idx)
    {
      if idx == count {
        var _ := Add(item);
        assert Inserted(old(Contents()), item, idx) == old(Contents()) + [item];
        return;
      }
      var c := count;
      Reserve(c + 1);
      ghost var s := Contents();
      ShiftUp(idx);
      data[idx] := item;
      count := c + 1;
      assert Contents() == Inserted(s, item, idx);
    }

    /** The loop of `Insert`: every element from slot idx on moves one slot up. */
    method ShiftUp(idx: nat)
      requires Valid() && idx < count < data.Length
      modifies data
      ensures forall k :: 0 <= k < idx ==> data[k] == old(data[k])
      ensures forall k :: idx < k <= count ==> data[k] == old(data[k - 1])
    {
      ghost var s := data[..];
      var c := count;
      data[c] := data[c - 1];
      var i := c - 1;
      while i > idx
        invariant idx <= i <= c - 1
        invariant forall k :: 0 <= k <= i ==> data[k] == s[k]
        invariant forall k :: i < k <= c ==> data[k] == s[k - 1]
      {
        data[i] := data[i - 1];
        i := i - 1;
      }
    }

    /**
     * `Remove(idx)` as written: the last element ends up in slot idx (see RemovedAsWritten);
     * idx < count is asserted.
     */
    method Remove(idx: nat)
      requires Valid() && idx < count
      modifies this, data
      ensures Valid() && Contents() == RemovedAsWritten(old(Contents()), idx)
      ensures data == old(data)
    {
      ghost var s := Contents();
      if idx == count - 1 {
        count := count - 1;
        assert s[idx := s[idx]] == s;
        return;
      }
      var i := idx;
      while i < count - 1
        invariant idx <= i <= count - 1
        invariant data[..count] == s[idx := s[i]]
        modifies data
      {
        data[idx] := data[i + 1];
        i := i + 1;
      }
      count := count - 1;
    }

    /** Remove with the shift written as intended: `data[i] = data[i + 1]`. */
    method RemoveInOrder(idx: nat)
      requires Valid() && idx < count
      modifies this, data
      ensures Valid() && Contents() == RemovedInOrder(old(Contents()), idx)
      ensures data == old(data)
    {
      ghost var s := Contents();
      var i := idx;
      while i < count - 1
        invariant idx <= i <= count - 1
        invariant forall k :: 0 <= k < idx ==> data[k] == s[k]
        invariant forall k :: idx <= k < i ==> data[k] == s[k + 1]
        invariant forall k :: i <= k < count ==> data[k] == s[k]
        modifies data
      {
        data[i] := data[i + 1];
        i := i + 1;
      }
      count := count - 1;
      assert Contents() == RemovedInOrder(s, idx);
    }

    /**
     * `RemoveMultiple(idx, numItems)` as written (see RemovedMultipleAsWritten);
     * idx < count and idx + numItems <= count are asserted.
     */
    method RemoveMultiple(idx: nat, numItems: nat)
      requires Valid() && idx < count && idx + numItems <= count
      modifies this, data
      ensures Valid() && Contents() == RemovedMultipleAsWritten(old(Contents()), idx, numItems)
      ensures data == old(data)
    {
      ghost var s := Contents();
      var i := 0;
      while i < numItems
        invariant 0 <= i <= numItems
        invariant forall k :: 0 <= k < count && !(idx <= k < idx + i) ==> data[k] == s[k]
        invariant forall k :: idx <= k < idx + i && k + numItems < count ==> data[k] == s[k + numItems]
        modifies data
      {
        if i + idx + numItems < count {
          data[i + idx] := data[i + idx + numItems];
        }
        i := i + 1;
      }
      count := count - numItems;
      assert Contents() == RemovedMultipleAsWritten(s, idx, numItems);
    }

    /** RemoveMultiple with every later element moved down by numItems, as intended. */
    method RemoveMultipleInOrder(idx: nat, numItems: nat)
      requires Valid() && idx < count && idx + numItems <= count
      modifies this, data
      ensures Valid() && Contents() == RemovedMultipleInOrder(old(Contents()), idx, numItems)
      ensures data == old(data)
    {
      ghost var s := Contents();
      var j := idx;
      while j < count - numItems
        invariant idx <= j <= count - numItems
        invariant forall k :: 0 <= k < idx ==> data[k] == s[k]
        invariant forall k :: idx <= k < j ==> data[k] == s[k + numItems]
        invariant forall k :: j <= k < count ==> data[k] == s[k]
        modifies data
      {
        data[j] := data[j + numItems];
        j := j + 1;
      }
      count := count - numItems;
      assert Contents() == RemovedMultipleInOrder(s, idx, numItems);
    }

    /** `RemoveAll()`: no elements, storage kept. */
    method RemoveAll()
      requires Valid()
      modifies this
      ensures Valid() && Contents() == [] && data == old(data)
    {
      count := 0;
    }
  }
}
