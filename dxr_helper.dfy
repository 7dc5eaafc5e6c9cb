/**
 * SampleFramework12's state-object builder for DXR: a byte buffer cut into fixed-size slots,
 * one per sub-object, and the array of sub-object records that point into it. Each added
 * descriptor is copied into the next free slot, and the finished description lists the
 * records filled so far.
 *
 * A descriptor is its bytes. The record's pointer into the byte buffer is the byte offset it
 * points at; the default record's null pointer is `None`.
 */
module DXRHelper {
  import opened Ints
  import opened Wrappers

  /** `MaxSubObjDescSize`: `sizeof(D3D12_HIT_GROUP_DESC)` on a 64-bit target (four pointers and an enum, padded). */
  const MAX_SUB_OBJ_DESC_SIZE: nat := 40

  /**
   * `D3D12_STATE_SUBOBJECT_TYPE_MAX_VALID` in the DXR 1.1 headers. The real bound comes from the
   * D3D12 headers the framework is built with: with the work-graphs preview enabled it also
   * admits the work-graph sub-object, so this constant is a choice of header version.
   */
  const SUBOBJECT_TYPE_MAX_VALID: nat := 13

  /** The byte offset of slot `i`. */
  function SlotOffset(i: nat): nat
  {
    i * 40
  }

  /** `D3D12_STATE_SUBOBJECT`: a type and a pointer to the descriptor. */
  datatype SubObject = SubObject(subObjType: nat, desc: Option<nat>)

  /** The zero-initialised record `Init` fills the array with. */
  const DEFAULT_SUBOBJECT: SubObject := SubObject(0, None)

  /** `D3D12_STATE_OBJECT_DESC` as `BuildDesc` fills it; `subobjects` is `None` for the null pointer. */
  datatype StateObjectDesc = StateObjectDesc(stateType: nat, numSubobjects: u32, subobjects: Option<seq<SubObject>>)

  /** `s` with `d` copied over it at `offset`. */
  function Overwrite(s: seq<u8>, offset: nat, d: seq<u8>): (r: seq<u8>)
    requires offset + |d| <= |s|
    ensures |r| == |s|
    ensures forall j :: 0 <= j < |s| ==> r[j] == if offset <= j < offset + |d| then d[j - offset] else s[j]
  {
    s[..offset] + d + s[offset + |d|..]
  }

  /** Copying over one range leaves every range below it unchanged. */
  lemma OverwriteKeepsBelow(s: seq<u8>, offset: nat, d: seq<u8>, lo: nat, hi: nat)
    requires offset + |d| <= |s| && lo <= hi <= offset
    ensures Overwrite(s, offset, d)[lo..hi] == s[lo..hi]
  {
  }

  /** Slot `i` of `data` begins with the bytes `d`. */
  ghost predicate InSlot(data: seq<u8>, i: nat, d: seq<u8>)
  {
    SlotOffset(i) + |d| <= |data| && data[SlotOffset(i)..SlotOffset(i) + |d|] == d
  }

  class StateObjectBuilder {
    var subObjectData: array<u8>
    var subObjects: array<SubObject>
    var numSubObjects: nat
    var maxSubObjects: nat
    /** The descriptors added so far, in order. */
    ghost var added: seq<seq<u8>>

    /**
     * The buffers are sized for `maxSubObjects` slots; record `i` of the first
     * `numSubObjects` points at slot `i`, which still holds the `i`-th descriptor; the other
     * records are the default one.
     */
    ghost predicate Valid()
      reads this, subObjectData, subObjects
    {
      subObjectData.Length == SlotOffset(maxSubObjects) &&
      subObjects.Length == maxSubObjects &&
      numSubObjects <= maxSubObjects && |added| == numSubObjects &&
      (forall i :: 0 <= i < numSubObjects ==>
         0 < |added[i]| <= MAX_SUB_OBJ_DESC_SIZE &&
         subObjects[i].desc == Some(SlotOffset(i)) && subObjects[i].subObjType < SUBOBJECT_TYPE_MAX_VALID &&
         InSlot(subObjectData[..], i, added[i])) &&
      (forall i :: numSubObjects <= i < maxSubObjects ==> subObjects[i] == DEFAULT_SUBOBJECT)
    }

    /** A builder before `Init`: no slots and nothing added. */
    constructor()
      ensures Valid() && numSubObjects == 0 && maxSubObjects == 0 && added == []
    {
      subObjectData := new u8[0];
      subObjects := new SubObject[0];
      numSubObjects, maxSubObjects := 0, 0;
      added := [];
    }

    /**
     * `Init`: `maxSubObjects` zeroed slots and as many default records. The count of added
     * sub-objects is left as it was, so the builder is consistent only if nothing was added.
     */
    method Init(maxSubObjects_: nat)
      requires maxSubObjects_ > 0
      modifies this
      ensures old(numSubObjects) == 0 ==> Valid()
      ensures fresh(subObjectData) && fresh(subObjects)
      ensures maxSubObjects == maxSubObjects_ && numSubObjects == old(numSubObjects) && added == []
      ensures forall j :: 0 <= j < subObjectData.Length ==> subObjectData[j] == 0
      ensures forall i :: 0 <= i < subObjects.Length ==> subObjects[i] == DEFAULT_SUBOBJECT
    {
      maxSubObjects := maxSubObjects_;
      subObjectData := new u8[SlotOffset(maxSubObjects_)](_ => 0);
      subObjects := new SubObject[maxSubObjects_](_ => DEFAULT_SUBOBJECT);
      added := [];
    }

    /**
     * `AddSubObject`: the descriptor is copied to the next free slot, the next record gets the
     * type and points at that slot, and the count grows by one. The result is the index of
     * the new record. Every earlier descriptor is still intact in its slot.
     */
    method AddSubObject(desc: seq<u8>, subObjType: nat) returns (index: nat)
      requires Valid()
      requires 0 < |desc| <= MAX_SUB_OBJ_DESC_SIZE && subObjType < SUBOBJECT_TYPE_MAX_VALID
      requires numSubObjects < maxSubObjects
      modifies this, subObjectData, subObjects
      ensures Valid() && index == old(numSubObjects) && numSubObjects == old(numSubObjects) + 1
      ensures added == old(added) + [desc] && maxSubObjects == old(maxSubObjects)
      ensures subObjectData == old(subObjectData) && subObjects == old(subObjects)
      ensures subObjectData[..] == Overwrite(old(subObjectData[..]), SlotOffset(index), desc)
      ensures subObjects[..] == old(subObjects[..])[index := SubObject(subObjType, Some(SlotOffset(index)))]
    {
      var subObjOffset := SlotOffset(numSubObjects);
      ghost var before := subObjectData[..];
      CopyBytes(subObjectData, subObjOffset, desc);
      subObjects[numSubObjects] := SubObject(subObjType, Some(subObjOffset));
      index := numSubObjects;
      numSubObjects := numSubObjects + 1;
      added := added + [desc];
      forall i | 0 <= i < index
        ensures InSlot(subObjectData[..], i, added[i])
      {
        OverwriteKeepsBelow(before, subObjOffset, desc, SlotOffset(i), SlotOffset(i) + |added[i]|);
      }
      assert InSlot(subObjectData[..], index, desc);
    }

    /** The `memcpy` of `AddSubObject`: `d` copied into `data` at `offset`. */
    static method CopyBytes(data: array<u8>, offset: nat, d: seq<u8>)
      requires offset + |d| <= data.Length
      modifies data
      ensures data[..] == Overwrite(old(data[..]), offset, d)
    {
      var k := 0;
      while k < |d|
        invariant k <= |d|
        invariant forall j :: 0 <= j < data.Length ==>
          data[j] == if offset <= j < offset + k then d[j - offset] else old(data[j])
      {
        data[offset + k] := d[k];
        k := k + 1;
      }
    }

    /**
     * `BuildDesc`: the description counts the added sub-objects (as a `uint32`) and points at
     * the records exactly when there is at least one.
     */
    method BuildDesc(stateType: nat) returns (desc: StateObjectDesc)
      requires Valid()
      ensures desc.stateType == stateType && desc.numSubobjects == Wrap32(numSubObjects)
      ensures desc.subobjects.Some? <==> numSubObjects > 0
      ensures desc.subobjects.Some? ==> desc.subobjects.value == subObjects[..]
      ensures desc.subobjects.Some? ==> forall i :: 0 <= i < numSubObjects ==> desc.subobjects.value[i].desc == Some(SlotOffset(i))
    {
      var records := if numSubObjects > 0 then Some(subObjects[..]) else None;
      desc := StateObjectDesc(stateType, Wrap32(numSubObjects), records);
    }
  }
}
