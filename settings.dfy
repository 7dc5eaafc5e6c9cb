/**
 * SampleFramework12's settings registry: integer, boolean and enum settings, each a small
 * state machine over its value, the value last reported (`oldVal`) and a latched `changed`
 * flag, and the container that groups the settings by name.
 *
 * The C++ `Setting` base class is the `Setting` class below; each concrete setting holds
 * its base part in `base`. ImGui widgets are modelled by the value they hand back.
 */
module Settings {
  import opened Ints
  import opened Wrappers
  import opened SF12Math

  const INT32_MAX: int := 0x7FFF_FFFF

  datatype SettingType = Float | Int | Bool | Enum | Direction | Orientation | Color | Button | Invalid

  // ---------------------------------------------------------------------------------------
  // Setting (the common part)

  class Setting {
    var kind: SettingType
    var name: string
    var group: string
    var labelText: string
    var helpText: string
    var changed: bool
    var initialized: bool
    var visible: bool

    /** A fresh setting: not changed, not initialized, visible. */
    constructor ()
      ensures kind == Invalid && name == "" && group == "" && labelText == "" && helpText == ""
      ensures !changed && !initialized && visible
    {
      kind := Invalid;
      name, group, labelText, helpText := "", "", "", "";
      changed, initialized, visible := false, false, true;
    }

    /** `Setting::Initialize`: records the identity, clears `changed`, marks initialized. */
    method Initialize(kind': SettingType, name': string, group': string, labelText': string, helpText': string)
      modifies this
      ensures kind == kind' && name == name' && group == group' && labelText == labelText' && helpText == helpText'
      ensures !changed && initialized && visible == old(visible)
    {
      kind, name, group, labelText, helpText := kind', name', group', labelText', helpText';
      changed := false;
      initialized := true;
    }

    /** `SetHidden`: visibility is the negation; the changed flag stays latched. */
    method SetHidden(hidden: bool)
      modifies this
      ensures visible == !hidden
      ensures changed == old(changed) && name == old(name) && group == old(group)
    {
      visible := !hidden;
    }

    method SetVisible(visible': bool)
      modifies this
      ensures visible == visible'
      ensures changed == old(changed) && name == old(name) && group == old(group) && initialized == old(initialized)
    {
      visible := visible';
    }

    method SetLabel(labelText': string)
      modifies this
      ensures labelText == labelText' && changed == old(changed) && visible == old(visible)
    {
      labelText := labelText';
    }

    /** `Changed()` only reports the stored flag. */
    function Changed(): bool
      reads this
    {
      changed
    }
  }

  // ---------------------------------------------------------------------------------------
  // IntSetting

  class IntSetting {
    const base: Setting
    var val: i32
    var oldVal: i32
    var minVal: i32
    var maxVal: i32

    ghost predicate Valid()
      reads this
    {
      minVal <= val <= maxVal
    }

    /** `IntSetting()`: every field 0. */
    constructor ()
      ensures fresh(base) && !base.changed && !base.initialized && base.visible
      ensures val == 0 && oldVal == 0 && minVal == 0 && maxVal == 0 && Valid()
    {
      base := new Setting();
      val, oldVal, minVal, maxVal := 0, 0, 0, 0;
    }

    /** `Initialize`: asserts minVal <= initialVal <= maxVal; nothing reported as changed. */
    method Initialize(name: string, group: string, labelText: string, helpText: string,
                      initialVal: i32, minVal': i32, maxVal': i32)
      requires minVal' <= initialVal <= maxVal'
      modifies this, base
      ensures Valid() && val == initialVal && oldVal == initialVal
      ensures minVal == minVal' && maxVal == maxVal'
      ensures base.kind == Int && base.name == name && base.group == group
      ensures !base.changed && base.initialized && base.visible == old(base.visible)
    {
      val, oldVal := initialVal, initialVal;
      minVal, maxVal := minVal', maxVal';
      base.Initialize(Int, name, group, labelText, helpText);
    }

    /**
     * `SetValue`: stores the clamped value; `changed` says whether it differs from the value
     * stored by the previous SetValue/Update, which it then becomes.
     */
    method SetValue(newVal: i32)
      requires minVal <= maxVal
      modifies this, base
      ensures minVal == old(minVal) && maxVal == old(maxVal)
      ensures val == Clamp(newVal, minVal, maxVal) && Valid()
      ensures base.changed <==> val != old(oldVal)
      ensures oldVal == val
      ensures base.visible == old(base.visible) && base.name == old(base.name)
    {
      val := Clamp(newVal, minVal, maxVal);
      base.changed := oldVal != val;
      oldVal := val;
    }

    /**
     * `Update` with `uiVal` the value the widget leaves in `val`. Bounded ranges use a slider,
     * which only produces values in range; other ranges use a text box whose value is clamped.
     */
    method Update(uiVal: i32)
      requires minVal <= maxVal
      requires minVal > -INT32_MAX && maxVal < INT32_MAX ==> minVal <= uiVal <= maxVal
      modifies this, base
      ensures minVal == old(minVal) && maxVal == old(maxVal)
      ensures val == Clamp(uiVal, minVal, maxVal) && Valid()
      ensures base.changed <==> val != old(oldVal)
      ensures oldVal == val
    {
      if minVal > -INT32_MAX && maxVal < INT32_MAX {
        val := uiVal;
      } else {
        val := Clamp(uiVal, minVal, maxVal);
      }
      base.changed := oldVal != val;
      oldVal := val;
    }

    /** `SetMinValue`: raises the value to the new minimum if needed. */
    method SetMinValue(newMinVal: i32)
      modifies this
      ensures minVal == newMinVal && val == Max(old(val), newMinVal)
      ensures maxVal == old(maxVal) && oldVal == old(oldVal)
    {
      minVal := newMinVal;
      val := Max(val, minVal);
    }

    /** `SetMaxValue`: lowers the value to the new maximum if needed. */
    method SetMaxValue(newMaxVal: i32)
      modifies this
      ensures maxVal == newMaxVal && val == Min(old(val), newMaxVal)
      ensures minVal == old(minVal) && oldVal == old(oldVal)
    {
      maxVal := newMaxVal;
      val := Min(val, maxVal);
    }

    /** `SerializeValue` with a read serializer: the stored value is clamped into range. */
    method SerializeRead(stored: i32)
      requires base.initialized && minVal <= maxVal
      modifies this
      ensures oldVal == old(oldVal) && minVal == old(minVal) && maxVal == old(maxVal)
      ensures val == Clamp(stored, minVal, maxVal) && Valid()
    {
      val := Clamp(stored, minVal, maxVal);
    }

    function Value(): i32
      reads this
    {
      val
    }
  }

  /** Setting the same value twice in a row reports no change the second time. */
  method RepeatedSetValueIsUnchanged(s: IntSetting, v: i32)
    requires s.minVal <= s.maxVal
    modifies s, s.base
    ensures s.minVal == old(s.minVal) && s.maxVal == old(s.maxVal)
    ensures !s.base.changed && s.val == Clamp(v, s.minVal, s.maxVal)
  {
    s.SetValue(v);
    s.SetValue(v);
  }

  // ---------------------------------------------------------------------------------------
  // BoolSetting

  /** `bool32` is a 32-bit integer; the setting normalises it to 0 or 1. */
  function Normalised(b: i32): (r: i32)
    ensures r == 0 || r == 1
    ensures r == 1 <==> b != 0
  {
    if b != 0 then 1 else 0
  }

  class BoolSetting {
    const base: Setting
    var val: i32
    var oldVal: i32

    constructor ()
      ensures fresh(base) && !base.changed && !base.initialized && base.visible
      ensures val == 0 && oldVal == 0
    {
      base := new Setting();
      val, oldVal := 0, 0;
    }

    method Initialize(name: string, group: string, labelText: string, helpText: string, initialVal: i32)
      modifies this, base
      ensures val == Normalised(initialVal) && oldVal == val
      ensures base.kind == Bool && base.name == name && base.group == group
      ensures !base.changed && base.initialized && base.visible == old(base.visible)
    {
      val := Normalised(initialVal);
      oldVal := val;
      base.Initialize(Bool, name, group, labelText, helpText);
    }

    /** `Update` with the checkbox state the user left. */
    method Update(checked: bool)
      modifies this, base
      ensures val == (if checked then 1 else 0) && oldVal == val
      ensures base.changed <==> val != old(oldVal)
    {
      val := if checked then 1 else 0;
      base.changed := oldVal != val;
      oldVal := val;
    }

    method SetValue(newVal: i32)
      modifies this, base
      ensures val == Normalised(newVal) && oldVal == val
      ensures base.changed <==> val != old(oldVal)
      ensures base.visible == old(base.visible) && base.name == old(base.name)
    {
      val := Normalised(newVal);
      base.changed := oldVal != val;
      oldVal := val;
    }

    /** The serialized value is taken as stored (no normalisation on read). */
    method SerializeRead(stored: i32)
      requires base.initialized
      modifies this
      ensures val == stored && oldVal == old(oldVal)
    {
      val := stored;
    }
  }

  // ---------------------------------------------------------------------------------------
  // EnumSetting

  /** `Min(v, numValues - 1)` in uint32: with numValues == 0 the bound wraps to UINT32_MAX. */
  function EnumBound(v: u32, numValues: u32): (r: u32)
    ensures numValues == 0 ==> r == v
    ensures numValues > 0 ==> r < numValues && (v < numValues ==> r == v)
    ensures r <= v
  {
    Min(v, Wrap32(numValues - 1))
  }

  class EnumSetting {
    const base: Setting
    var val: u32
    var oldVal: u32
    var numValues: u32
    var numValuesClamp: u32
    var valueLabels: seq<string>

    /** `EnumSetting()`: every count and value 0. */
    constructor ()
      ensures fresh(base) && !base.changed && !base.initialized && base.visible
      ensures val == 0 && oldVal == 0 && numValues == 0 && numValuesClamp == 0 && valueLabels == []
    {
      base := new Setting();
      val, oldVal, numValues, numValuesClamp := 0, 0, 0, 0;
      valueLabels := [];
    }

    /**
     * `Initialize`: the initial value is clamped with the count held BEFORE this call (the new
     * count is assigned afterwards), so on a fresh setting no clamping happens.
     */
    method Initialize(name: string, group: string, labelText: string, helpText: string,
                      initialVal: u32, numValues': u32, valueLabels': seq<string>)
      modifies this, base
      ensures val == EnumBound(initialVal, old(numValues)) && oldVal == val
      ensures numValues == numValues' && numValuesClamp == numValues' && valueLabels == valueLabels'
      ensures base.kind == Enum && base.name == name && base.group == group
      ensures !base.changed && base.initialized && base.visible == old(base.visible)
    {
      val := EnumBound(initialVal, numValues);
      oldVal := val;
      numValues := numValues';
      numValuesClamp := numValues';
      valueLabels := valueLabels';
      base.Initialize(Enum, name, group, labelText, helpText);
    }

    /** `Update` with the combo box's selection, one of the first numValuesClamp entries or untouched. */
    method Update(uiVal: u32)
      requires uiVal == val || uiVal < numValuesClamp
      modifies this, base
      ensures val == uiVal && oldVal == val
      ensures base.changed <==> val != old(oldVal)
      ensures numValues == old(numValues) && numValuesClamp == old(numValuesClamp)
    {
      val := uiVal;
      base.changed := oldVal != val;
      oldVal := val;
    }

    /** `SetValue` clamps with numValues, not with numValuesClamp. */
    method SetValue(newVal: u32)
      modifies this, base
      ensures val == EnumBound(newVal, numValues) && oldVal == val
      ensures base.changed <==> val != old(oldVal)
      ensures numValues == old(numValues) && numValuesClamp == old(numValuesClamp)
      ensures base.visible == old(base.visible) && base.name == old(base.name)
    {
      val := EnumBound(newVal, numValues);
      base.changed := oldVal != val;
      oldVal := val;
    }

    /**
     * `ClampNumValues(num)`: asserts 0 < num <= numValues; lowers the value below num if
     * needed, leaving the changed flag and oldVal alone.
     */
    method ClampNumValues(num: u32)
      requires 0 < num <= numValues
      modifies this
      ensures numValuesClamp == num && numValues == old(numValues)
      ensures val == (if old(val) >= num then num - 1 else old(val))
      ensures val < num && oldVal == old(oldVal)
    {
      numValuesClamp := num;
      if val >= numValuesClamp {
        val := numValuesClamp - 1;
      }
    }

    /** `SerializeValue` with a read serializer: clamps with numValues, ignoring numValuesClamp. */
    method SerializeRead(stored: u32)
      requires base.initialized
      modifies this
      ensures val == EnumBound(stored, numValues) && oldVal == old(oldVal)
      ensures numValuesClamp == old(numValuesClamp)
    {
      val := EnumBound(stored, numValues);
    }

    function Value(): u32
      reads this
    {
      val
    }
  }

  /**
   * A value above the ClampNumValues limit can still be stored by SetValue: clamp a 4-value
   * enum to 2 values, then set 3.
   */
  method SetValueIgnoresClampLimit(e: EnumSetting)
    requires e.numValues == 4
    modifies e, e.base
    ensures e.numValuesClamp == 2 && e.val == 3
  {
    e.ClampNumValues(2);
    e.SetValue(3);
  }

  // ---------------------------------------------------------------------------------------
  // SettingsContainer

  /** A registered setting together with the name and group it was registered under. */
  datatype SettingEntry = SettingEntry(name: string, group: string, setting: Setting)

  datatype Group = Group(name: string, expanded: bool, settings: seq<SettingEntry>)

  /** The first entry of `es` with the given name. */
  function FindIn(es: seq<SettingEntry>, name: string): (r: Option<SettingEntry>)
    ensures r.Some? ==> r.value in es && r.value.name == name
    ensures r.None? <==> forall k :: 0 <= k < |es| ==> es[k].name != name
  {
    if es == [] then None
    else if es[0].name == name then Some(es[0])
    else FindIn(es[1..], name)
  }

  /** `FindSetting`'s answer: the first match in group order, then insertion order. */
  function Find(gs: seq<Group>, name: string): (r: Option<SettingEntry>)
    ensures r.Some? ==> r.value.name == name
  {
    if gs == [] then None
    else if FindIn(gs[0].settings, name).Some? then FindIn(gs[0].settings, name)
    else Find(gs[1..], name)
  }

  /** Find fails exactly when no group holds an entry of that name. */
  lemma {:induction false} FindNoneIff(gs: seq<Group>, name: string)
    ensures Find(gs, name).None? <==>
      forall i, k :: 0 <= i < |gs| && 0 <= k < |gs[i].settings| ==> gs[i].settings[k].name != name
  {
    if gs != [] {
      FindNoneIff(gs[1..], name);
      assert forall i :: 1 <= i < |gs| ==> gs[i] == gs[1..][i - 1];
    }
  }

  /** Group names are distinct and setting names are distinct across all groups. */
  ghost predicate UniqueNames(gs: seq<Group>)
  {
    (forall i, j :: 0 <= i < j < |gs| ==> gs[i].name != gs[j].name) &&
    (forall i, k, j, l :: (0 <= i < |gs| && 0 <= k < |gs[i].settings| &&
                           0 <= j < |gs| && 0 <= l < |gs[j].settings| &&
                           (i, k) != (j, l)) ==> gs[i].settings[k].name != gs[j].settings[l].name)
  }

  /** The index of the first group with the given name. */
  function GroupIndex(gs: seq<Group>, name: string): (r: nat)
    ensures r <= |gs|
    ensures r < |gs| ==> gs[r].name == name
    ensures forall i :: 0 <= i < r ==> gs[i].name != name
  {
    if gs == [] then 0
    else if gs[0].name == name then 0
    else 1 + GroupIndex(gs[1..], name)
  }

  /** The groups after `AddSetting(entry)`: the entry appended to the first group of its group name. */
  function AddedTo(gs: seq<Group>, entry: SettingEntry): (r: seq<Group>)
    requires GroupIndex(gs, entry.group) < |gs|
    ensures |r| == |gs|
  {
    var gi := GroupIndex(gs, entry.group);
    gs[gi := Group(gs[gi].name, gs[gi].expanded, gs[gi].settings + [entry])]
  }

  /**
   * AddSetting changes only the entries of the target group, and only by appending the entry;
   * group names and expansion flags stay as they were.
   */
  lemma AddedToEntries(gs: seq<Group>, entry: SettingEntry)
    requires GroupIndex(gs, entry.group) < |gs|
    ensures forall i :: 0 <= i < |gs| ==>
      AddedTo(gs, entry)[i].name == gs[i].name && AddedTo(gs, entry)[i].expanded == gs[i].expanded
    ensures forall i :: 0 <= i < |gs| && gs[i].name != entry.group ==> AddedTo(gs, entry)[i] == gs[i]
    ensures var gi := GroupIndex(gs, entry.group);
      AddedTo(gs, entry)[gi].settings == gs[gi].settings + [entry]
  {
  }

  /** The names of a run of entries, in order. */
  function Names(es: seq<SettingEntry>): (r: seq<string>)
    ensures |r| == |es| && forall k :: 0 <= k < |es| ==> r[k] == es[k].name
  {
    if es == [] then [] else [es[0].name] + Names(es[1..])
  }

  /** The names of a group's entries. */
  ghost function EntryNames(es: seq<SettingEntry>): set<string>
  {
    set k | 0 <= k < |es| :: es[k].name
  }

  /** Every registered setting name. */
  ghost function RegisteredNames(gs: seq<Group>): set<string>
  {
    if gs == [] then {} else EntryNames(gs[0].settings) + RegisteredNames(gs[1..])
  }

  /** The names of two runs of groups are the names of each. */
  lemma {:induction false} RegisteredNamesAppend(a: seq<Group>, b: seq<Group>)
    ensures RegisteredNames(a + b) == RegisteredNames(a) + RegisteredNames(b)
  {
    if a == [] {
      assert a + b == b;
    } else {
      assert a + b != [] && (a + b)[0] == a[0];
      assert (a + b)[1..] == a[1..] + b;
      RegisteredNamesAppend(a[1..], b);
    }
  }

  /** The number of registered entries, over all groups. */
  function TotalEntries(gs: seq<Group>): (r: nat)
    ensures gs == [] ==> r == 0
  {
    if gs == [] then 0 else |gs[0].settings| + TotalEntries(gs[1..])
  }

  /** AddGroup appends an empty group, AddSetting one entry. */
  lemma {:induction false} TotalEntriesAppend(a: seq<Group>, b: seq<Group>)
    ensures TotalEntries(a + b) == TotalEntries(a) + TotalEntries(b)
  {
    if a == [] {
      assert a + b == b;
    } else {
      assert a + b != [] && (a + b)[0] == a[0];
      assert (a + b)[1..] == a[1..] + b;
      TotalEntriesAppend(a[1..], b);
    }
  }

  lemma {:induction false} TotalEntriesAdded(gs: seq<Group>, entry: SettingEntry)
    requires GroupIndex(gs, entry.group) < |gs|
    ensures TotalEntries(AddedTo(gs, entry)) == TotalEntries(gs) + 1
  {
    var gs' := AddedTo(gs, entry);
    if gs[0].name == entry.group {
      assert gs'[1..] == gs[1..];
    } else {
      assert gs'[0] == gs[0];
      assert gs'[1..] == AddedTo(gs[1..], entry);
      TotalEntriesAdded(gs[1..], entry);
    }
  }

  /** A run of entries has at most as many names as entries, and as many exactly when they are distinct. */
  lemma {:induction false} EntryNamesCount(es: seq<SettingEntry>)
    ensures |EntryNames(es)| <= |es|
    ensures |EntryNames(es)| == |es| ==> forall k, l :: 0 <= k < l < |es| ==> es[k].name != es[l].name
  {
    if es != [] {
      var rest := es[1..];
      assert EntryNames(es) == {es[0].name} + EntryNames(rest) by {
        forall n | n in EntryNames(es) ensures n in {es[0].name} + EntryNames(rest) {
          var k :| 0 <= k < |es| && es[k].name == n;
          if k > 0 { assert rest[k - 1].name == n; }
        }
        forall n | n in EntryNames(rest) ensures n in EntryNames(es) {
          var k :| 0 <= k < |rest| && rest[k].name == n;
          assert es[k + 1].name == n;
        }
        assert es[0].name in EntryNames(es);
      }
      EntryNamesCount(rest);
      if |EntryNames(es)| == |es| {
        assert es[0].name !in EntryNames(rest);
        forall k, l | 0 <= k < l < |es| ensures es[k].name != es[l].name {
          if k == 0 {
            assert es[l].name == rest[l - 1].name;
            assert rest[l - 1].name in EntryNames(rest);
          } else {
            assert es[k] == rest[k - 1] && es[l] == rest[l - 1];
          }
        }
      }
    }
  }

  /**
   * There are at most as many registered names as registered entries, and exactly as many
   * when no name is registered twice.
   */
  lemma {:induction false} RegisteredNamesCount(gs: seq<Group>)
    ensures |RegisteredNames(gs)| <= TotalEntries(gs)
    ensures |RegisteredNames(gs)| == TotalEntries(gs) ==>
      forall i, k, j, l :: (0 <= i < |gs| && 0 <= k < |gs[i].settings| &&
                            0 <= j < |gs| && 0 <= l < |gs[j].settings| &&
                            (i, k) != (j, l)) ==> gs[i].settings[k].name != gs[j].settings[l].name
  {
    if gs != [] {
      var es := gs[0].settings;
      var rest := gs[1..];
      var a, b := EntryNames(es), RegisteredNames(rest);
      EntryNamesCount(es);
      RegisteredNamesCount(rest);
      assert |a + b| + |a * b| == |a| + |b|;
      if |RegisteredNames(gs)| == TotalEntries(gs) {
        assert |a| == |es| && |b| == TotalEntries(rest) && a * b == {};
        DisjointEntriesUnique(gs);
      }
    }
  }

  /** A first group with distinct names, disjoint from the other groups' distinct names, keeps them distinct. */
  lemma DisjointEntriesUnique(gs: seq<Group>)
    requires gs != []
    requires forall k, l :: 0 <= k < l < |gs[0].settings| ==> gs[0].settings[k].name != gs[0].settings[l].name
    requires forall i, k, j, l :: (0 <= i < |gs[1..]| && 0 <= k < |gs[1..][i].settings| &&
                                   0 <= j < |gs[1..]| && 0 <= l < |gs[1..][j].settings| &&
                                   (i, k) != (j, l)) ==> gs[1..][i].settings[k].name != gs[1..][j].settings[l].name
    requires EntryNames(gs[0].settings) * RegisteredNames(gs[1..]) == {}
    ensures forall i, k, j, l :: (0 <= i < |gs| && 0 <= k < |gs[i].settings| &&
                                  0 <= j < |gs| && 0 <= l < |gs[j].settings| &&
                                  (i, k) != (j, l)) ==> gs[i].settings[k].name != gs[j].settings[l].name
  {
    var es, rest := gs[0].settings, gs[1..];
    var a := EntryNames(es);
    forall n | n in a ensures n !in RegisteredNames(rest) {
      assert n !in a * RegisteredNames(rest);
    }
    forall i, k, j, l | 0 <= i < |gs| && 0 <= k < |gs[i].settings| &&
                        0 <= j < |gs| && 0 <= l < |gs[j].settings| && (i, k) != (j, l)
      ensures gs[i].settings[k].name != gs[j].settings[l].name
    {
      if i == 0 && j == 0 {
        if k > l { assert es[l].name != es[k].name; }
      } else if i == 0 {
        assert gs[j] == rest[j - 1];
        assert gs[i].settings[k].name in a;
        RegisteredNamesHold(rest, j - 1, l);
      } else if j == 0 {
        assert gs[i] == rest[i - 1];
        assert gs[j].settings[l].name in a;
        RegisteredNamesHold(rest, i - 1, k);
      } else {
        assert gs[i] == rest[i - 1] && gs[j] == rest[j - 1];
      }
    }
  }

  /** Every entry's name is registered. */
  lemma {:induction false} RegisteredNamesHold(gs: seq<Group>, i: nat, k: nat)
    requires i < |gs| && k < |gs[i].settings|
    ensures gs[i].settings[k].name in RegisteredNames(gs)
  {
    if i == 0 {
      assert gs[0].settings[k].name in EntryNames(gs[0].settings);
    } else {
      assert gs[1..][i - 1] == gs[i];
      RegisteredNamesHold(gs[1..], i - 1, k);
    }
  }

  /** A name that was never registered is not found. */
  lemma {:induction false} FindNoneWhenUnregistered(gs: seq<Group>, name: string)
    requires name !in RegisteredNames(gs)
    ensures Find(gs, name).None?
  {
    if gs != [] {
      var es := gs[0].settings;
      forall k | 0 <= k < |es|
        ensures es[k].name != name
      {
        assert es[k].name in EntryNames(es);
      }
      FindNoneWhenUnregistered(gs[1..], name);
    }
  }

  /** AddSetting registers exactly the one new name. */
  lemma {:induction false} RegisteredNamesAdded(gs: seq<Group>, entry: SettingEntry)
    requires GroupIndex(gs, entry.group) < |gs|
    ensures RegisteredNames(AddedTo(gs, entry)) == RegisteredNames(gs) + {entry.name}
  {
    var gs' := AddedTo(gs, entry);
    if gs[0].name == entry.group {
      var es := gs[0].settings;
      assert EntryNames(es + [entry]) == EntryNames(es) + {entry.name} by {
        var es' := es + [entry];
        assert es'[|es|].name == entry.name;
        forall n | n in EntryNames(es) ensures n in EntryNames(es') {
          var k :| 0 <= k < |es| && es[k].name == n;
          assert es'[k].name == n;
        }
      }
      assert gs'[1..] == gs[1..];
    } else {
      assert gs'[0] == gs[0];
      assert gs'[1..] == AddedTo(gs[1..], entry);
      RegisteredNamesAdded(gs[1..], entry);
    }
  }

  /** Every entry visible to `Update`, in order: the entries of the groups whose header is open. */
  function OpenEntries(gs: seq<Group>, headerOpen: seq<bool>): seq<SettingEntry>
    requires |headerOpen| == |gs|
  {
    if gs == [] then []
    else OpenEntries(gs[..|gs| - 1], headerOpen[..|gs| - 1]) +
         (if headerOpen[|gs| - 1] then gs[|gs| - 1].settings else [])
  }

  /** The settings of `es` whose `visible` flag is set, in order. */
  function VisibleSettings(es: seq<SettingEntry>): (r: seq<Setting>)
    reads set k | 0 <= k < |es| :: es[k].setting
    ensures |r| <= |es|
  {
    if es == [] then []
    else
      var last := es[|es| - 1].setting;
      VisibleSettings(es[..|es| - 1]) + (if last.visible then [last] else [])
  }

  lemma OpenEntriesStep(gs: seq<Group>, headerOpen: seq<bool>, gi: nat)
    requires |headerOpen| == |gs| && gi < |gs|
    ensures OpenEntries(gs[..gi + 1], headerOpen[..gi + 1]) ==
      OpenEntries(gs[..gi], headerOpen[..gi]) + (if headerOpen[gi] then gs[gi].settings else [])
  {
    assert gs[..gi + 1][..gi] == gs[..gi] && headerOpen[..gi + 1][..gi] == headerOpen[..gi];
  }

  /** Only visible settings are updated, and each of them belongs to one of the entries. */
  lemma {:induction false} VisibleSettingsSound(es: seq<SettingEntry>)
    ensures forall s :: s in VisibleSettings(es) ==> s.visible && exists k :: 0 <= k < |es| && es[k].setting == s
  {
    if es != [] {
      var init := es[..|es| - 1];
      VisibleSettingsSound(init);
      forall s | s in VisibleSettings(es)
        ensures s.visible && exists k :: 0 <= k < |es| && es[k].setting == s
      {
        if s in VisibleSettings(init) {
          var k :| 0 <= k < |init| && init[k].setting == s;
          assert es[k].setting == s;
        } else {
          assert es[|es| - 1].setting == s;
        }
      }
    }
  }

  /** One more entry adds its setting when that setting is visible. */
  lemma VisibleSettingsStep(es: seq<SettingEntry>, i: nat)
    requires i < |es|
    ensures VisibleSettings(es[..i + 1]) ==
            VisibleSettings(es[..i]) + (if es[i].setting.visible then [es[i].setting] else [])
  {
    assert es[..i + 1][..i] == es[..i];
  }

  lemma {:induction false} VisibleSettingsAppend(a: seq<SettingEntry>, b: seq<SettingEntry>)
    ensures VisibleSettings(a + b) == VisibleSettings(a) + VisibleSettings(b)
    decreases |b|
  {
    if b == [] {
      assert a + b == a;
    } else {
      var b' := b[..|b| - 1];
      assert (a + b)[..|a + b| - 1] == a + b';
      VisibleSettingsAppend(a, b');
    }
  }

  class SettingsContainer {
    var groups: seq<Group>
    var initialized: bool
    var windowOpened: bool

    constructor ()
      ensures groups == [] && !initialized && windowOpened
    {
      groups := [];
      initialized := false;
      windowOpened := true;
    }

    /** `Initialize(numGroups)`: `groups.Init(numGroups)` leaves the group list empty. */
    method Initialize(numGroups: nat)
      modifies this
      ensures groups == [] && initialized && windowOpened == old(windowOpened)
    {
      groups := [];
      initialized := true;
    }

    /** `AddGroup`: asserts the name is new; appends an empty group. */
    method AddGroup(name: string, expanded: bool)
      requires forall i :: 0 <= i < |groups| ==> groups[i].name != name
      modifies this
      ensures groups == old(groups) + [Group(name, expanded, [])]
      ensures UniqueNames(old(groups)) ==> UniqueNames(groups)
      ensures RegisteredNames(groups) == RegisteredNames(old(groups))
      ensures TotalEntries(groups) == TotalEntries(old(groups))
      ensures initialized == old(initialized)
    {
      RegisteredNamesAppend(groups, [Group(name, expanded, [])]);
      TotalEntriesAppend(groups, [Group(name, expanded, [])]);
      assert [Group(name, expanded, [])][1..] == [];
      groups := groups + [Group(name, expanded, [])];
    }

    /** `FindSetting`: a linear search over groups, then over each group's settings. */
    method FindSetting(name: string) returns (r: Option<Setting>)
      ensures r.Some? <==> Find(groups, name).Some?
      ensures r.Some? ==> r.value == Find(groups, name).value.setting
    {
      var gi := 0;
      while gi < |groups|
        invariant 0 <= gi <= |groups|
        invariant Find(groups, name) == Find(groups[gi..], name)
      {
        var settings := groups[gi].settings;
        var si := 0;
        while si < |settings|
          invariant 0 <= si <= |settings|
          invariant FindIn(settings, name) == FindIn(settings[si..], name)
        {
          if settings[si].name == name {
            return Some(settings[si].setting);
          }
          assert settings[si..][1..] == settings[si + 1..];
          si := si + 1;
        }
        assert groups[gi..][1..] == groups[gi + 1..];
        gi := gi + 1;
      }
      return None;
    }

    /**
     * `AddSetting`: asserts initialization, a new name and an existing group; appends the
     * entry to the first group with the setting's group name.
     */
    method AddSetting(entry: SettingEntry)
      requires initialized
      requires Find(groups, entry.name).None?
      requires exists i :: 0 <= i < |groups| && groups[i].name == entry.group
      modifies this
      ensures groups == AddedTo(old(groups), entry)
      ensures initialized == old(initialized) && windowOpened == old(windowOpened)
      ensures UniqueNames(old(groups)) ==> UniqueNames(groups)
      ensures Find(groups, entry.name) == Some(entry) || !UniqueNames(old(groups))
    {
      ghost var gs := groups;
      FindNoneIff(gs, entry.name);
      var gi := 0;
      while gi < |groups|
        invariant 0 <= gi <= |groups| && groups == gs
        invariant forall i :: 0 <= i < gi ==> groups[i].name != entry.group
        invariant GroupIndex(gs, entry.group) == gi + GroupIndex(gs[gi..], entry.group)
        invariant initialized == old(initialized) && windowOpened == old(windowOpened)
      {
        if groups[gi].name == entry.group {
          var g := groups[gi];
          groups := groups[gi := Group(g.name, g.expanded, g.settings + [entry])];
          AddedKeepsUnique(gs, gi, entry);
          return;
        }
        assert gs[gi..][1..] == gs[gi + 1..];
        gi := gi + 1;
      }
      assert false;
    }

    /**
     * `Update`: when the window is closed only the "Settings" button is drawn; otherwise the
     * visible settings of every group whose header is open are updated, in order. Returns
     * the settings whose `Update` runs; every other setting keeps its changed flag latched.
     */
    method Update(buttonPressed: bool, windowShown: bool, headerOpen: seq<bool>) returns (updated: seq<Setting>)
      requires |headerOpen| == |groups|
      modifies this
      ensures groups == old(groups)
      ensures !old(windowOpened) ==> updated == [] && windowOpened == buttonPressed
      ensures old(windowOpened) && !windowShown ==> updated == [] && windowOpened
      ensures old(windowOpened) && windowShown ==> updated == VisibleSettings(OpenEntries(groups, headerOpen))
    {
      if !windowOpened {
        windowOpened := buttonPressed;
        return [];
      }
      if !windowShown {
        return [];
      }
      var entries := OpenGroupEntries(groups, headerOpen);
      updated := AppendVisible([], entries);
    }
  }

  /** The outer loop of `SettingsContainer::Update`: the entries of groups whose header is open. */
  method OpenGroupEntries(groups: seq<Group>, headerOpen: seq<bool>) returns (entries: seq<SettingEntry>)
    requires |headerOpen| == |groups|
    ensures entries == OpenEntries(groups, headerOpen)
  {
    entries := [];
    var gi := 0;
    while gi < |groups|
      invariant 0 <= gi <= |groups|
      invariant entries == OpenEntries(groups[..gi], headerOpen[..gi])
    {
      OpenEntriesStep(groups, headerOpen, gi);
      if headerOpen[gi] {
        entries := entries + groups[gi].settings;
      }
      gi := gi + 1;
    }
    assert groups[..gi] == groups && headerOpen[..gi] == headerOpen;
  }

  /** The inner loop of `SettingsContainer::Update`: the visible settings of one group, in order. */
  method AppendVisible(updated: seq<Setting>, settings: seq<SettingEntry>) returns (r: seq<Setting>)
    ensures r == updated + VisibleSettings(settings)
  {
    r := updated;
    var si := 0;
    while si < |settings|
      invariant 0 <= si <= |settings|
      invariant r == updated + VisibleSettings(settings[..si])
    {
      VisibleSettingsStep(settings, si);
      var s := settings[si].setting;
      if s.visible {
        r := r + [s];
      }
      si := si + 1;
    }
    assert settings[..si] == settings;
  }

  /** Appending a new name to one group keeps all names unique. */
  lemma AddedKeepsUnique(gs: seq<Group>, gi: nat, entry: SettingEntry)
    requires gi < |gs|
    requires forall i, k :: 0 <= i < |gs| && 0 <= k < |gs[i].settings| ==> gs[i].settings[k].name != entry.name
    ensures var g := gs[gi];
      var gs' := gs[gi := Group(g.name, g.expanded, g.settings + [entry])];
      (UniqueNames(gs) ==> UniqueNames(gs')) &&
      (UniqueNames(gs) ==> Find(gs', entry.name) == Some(entry))
  {
    var g := gs[gi];
    var gs' := gs[gi := Group(g.name, g.expanded, g.settings + [entry])];
    if UniqueNames(gs) {
      FindSomeUnique(gs', gi, |g.settings|);
    }
  }

  /** With unique names, Find returns the one entry carrying the name. */
  lemma {:induction false} FindSomeUnique(gs: seq<Group>, i: nat, k: nat)
    requires UniqueNames(gs) && i < |gs| && k < |gs[i].settings|
    ensures Find(gs, gs[i].settings[k].name) == Some(gs[i].settings[k])
  {
    var name := gs[i].settings[k].name;
    if i == 0 {
      var r := FindIn(gs[0].settings, name);
      assert r.Some? by {
        assert !(forall l :: 0 <= l < |gs[0].settings| ==> gs[0].settings[l].name != name);
      }
    } else {
      var r := FindIn(gs[0].settings, name);
      assert r.None? by {
        forall l | 0 <= l < |gs[0].settings|
          ensures gs[0].settings[l].name != name
        {
          assert (0, l) != (i, k);
        }
      }
      FindSomeUnique(gs[1..], i - 1, k);
    }
  }
}
