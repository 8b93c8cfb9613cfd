// A control whose value is one of the keys of an option list (a vector of
// key / value pairs).  A map from each key to its position in the list is
// rebuilt whenever the list is refreshed, and only keys in that map are
// accepted.  The ESPUI option elements are not part of the model.
module ChoiceListControl {
  import opened Ints
  import opened ArduinoString
  import opened ControlCommon

  type ChoiceList = seq<(string, string)>

  /** The map RefreshOptionList builds: every key of the list, at the last
      position it appears. */
  function IndexMap(v: ChoiceList): (r: map<string, nat>)
    ensures forall k :: k in r <==> exists i :: 0 <= i < |v| && v[i].0 == k
    ensures forall k :: k in r ==> r[k] < |v| && v[r[k]].0 == k
    ensures forall k, j :: k in r && r[k] < j < |v| ==> v[j].0 != k
  {
    if |v| == 0 then map[]
    else
      var m := IndexMap(v[..|v| - 1]);
      IndexMapStep(v, m);
      m[v[|v| - 1].0 := |v| - 1]
  }

  /** One step of IndexMap: adding the last entry to the map of the others. */
  lemma IndexMapStep(v: ChoiceList, m: map<string, nat>)
    requires |v| > 0
    requires var p := v[..|v| - 1];
      && (forall k :: k in m <==> exists i :: 0 <= i < |p| && p[i].0 == k)
      && (forall k :: k in m ==> m[k] < |p| && p[m[k]].0 == k)
      && (forall k, j :: k in m && m[k] < j < |p| ==> p[j].0 != k)
    ensures var r := m[v[|v| - 1].0 := |v| - 1];
      && (forall k :: k in r <==> exists i :: 0 <= i < |v| && v[i].0 == k)
      && (forall k :: k in r ==> r[k] < |v| && v[r[k]].0 == k)
      && (forall k, j :: k in r && r[k] < j < |v| ==> v[j].0 != k)
  {
    var p := v[..|v| - 1];
    assert forall i :: 0 <= i < |p| ==> p[i] == v[i];
  }

  /** Keys appearing once each. */
  predicate DistinctKeys(v: ChoiceList)
  {
    forall i, j :: 0 <= i < j < |v| ==> v[i].0 != v[j].0
  }

  function DuplicateMessage(title: string, value: string): string
  {
    title + ": Ignoring duplicate setting for '" + value + "'"
  }

  /** validate: a non-forced set to the current key is refused as a
      duplicate; a known key is taken; anything else is a bad value. */
  function ChoiceValidate(title: string, keys: map<string, nat>, current: string, value: string, forced: bool): (r: Validation)
  {
    if !forced && current == value && value in keys then Validation(false, current, DuplicateMessage(title, value))
    else if value in keys then Validation(true, value, "")
    else Validation(false, current, BadValueMessage(title, value))
  }

  /** getIndex: the position of the current key, or 0xFFFFFFFF. */
  function GetIndex(keys: map<string, nat>, current: string): (r: uint32)
  {
    if current in keys && keys[current] <= UINT32_MAX then keys[current] else UINT32_MAX
  }

  /** Builds the key map one entry at a time, as the refresh loop does. */
  method BuildKeyMap(v: ChoiceList) returns (m: map<string, nat>)
    ensures m == IndexMap(v)
  {
    m := map[];
    var Index := 0;
    while Index < |v|
      invariant 0 <= Index <= |v|
      invariant m == IndexMap(v[..Index])
    {
      assert v[..Index + 1][..Index] == v[..Index];
      m := m[v[Index].0 := Index];
      Index := Index + 1;
    }
    assert v[..Index] == v;
  }

  class ChoiceListControl {
    const Title: string
    var DataValueStr: string
    var ChoiceVector: ChoiceList
    var KeyToChoiceVectorMap: map<string, nat>
    var Booting: bool
    var UiValue: string
    var SaveWarning: bool

    /** The map starts empty: RefreshOptionList fills it. */
    constructor(title: string, defaultValue: string, choices: ChoiceList)
      ensures Title == title && DataValueStr == defaultValue && ChoiceVector == choices
      ensures KeyToChoiceVectorMap == map[] && Booting && UiValue == "" && !SaveWarning
    {
      Title := title;
      DataValueStr := defaultValue;
      ChoiceVector := choices;
      KeyToChoiceVectorMap := map[];
      Booting := true;
      UiValue := "";
      SaveWarning := false;
    }

    function getIndex(): uint32
      reads this
    {
      GetIndex(KeyToChoiceVectorMap, DataValueStr)
    }

    /** get32: the number in the value half of the current entry. */
    method get32() returns (r: uint32)
      ensures DataValueStr !in KeyToChoiceVectorMap ==> r == UINT32_MAX
      ensures DataValueStr in KeyToChoiceVectorMap && getIndex() < |ChoiceVector| ==>
        r == ToU32(ToInt(ChoiceVector[getIndex()].1))
    {
      r := UINT32_MAX;
      if DataValueStr in KeyToChoiceVectorMap {
        var i := getIndex();
        if i < |ChoiceVector| {
          r := ToU32(ToInt(ChoiceVector[i].1));
        }
      }
    }

    /** set, with the choice-list validate. */
    method Set(value: string, forced: bool) returns (ok: bool, message: string)
      modifies this
      ensures var r := SetWith(Title, old(DataValueStr), value,
                               ChoiceValidate(Title, KeyToChoiceVectorMap, old(DataValueStr), value, forced), forced);
        ok == r.ok && message == r.message && DataValueStr == r.dataValue
        && UiValue == (if r.uiWritten then r.dataValue else old(UiValue))
        && SaveWarning == (old(SaveWarning) || (r.uiWritten && !Booting))
      ensures Booting == old(Booting) && ChoiceVector == old(ChoiceVector)
      ensures KeyToChoiceVectorMap == old(KeyToChoiceVectorMap)
    {
      var original := DataValueStr;
      var v := ChoiceValidate(Title, KeyToChoiceVectorMap, DataValueStr, value, forced);
      DataValueStr := v.dataValue;
      if !v.ok {
        ok := false;
        message := if v.message == "" then BadValueMessage(Title, value) else v.message;
        return;
      }
      ok := true;
      message := SetToMessage(Title, DataValueStr);
      if original == DataValueStr && !forced {
        return;
      }
      UiValue := DataValueStr;
      if !Booting {
        SaveWarning := true;
      }
    }

    /** setIndex: an index past the list fails and changes nothing; any
        other sets the key at that position.  set's own message is not
        passed back. */
    method SetIndex(value: uint32, forced: bool) returns (ok: bool, message: string)
      modifies this
      ensures value >= |ChoiceVector| ==>
        !ok && message == BadValueMessage(Title, DecString(value))
        && DataValueStr == old(DataValueStr) && UiValue == old(UiValue) && SaveWarning == old(SaveWarning)
      ensures value < |ChoiceVector| ==>
        var key := ChoiceVector[value].0;
        var r := SetWith(Title, old(DataValueStr), key,
                         ChoiceValidate(Title, KeyToChoiceVectorMap, old(DataValueStr), key, forced), forced);
        message == "" && ok == r.ok && DataValueStr == r.dataValue
        && UiValue == (if r.uiWritten then r.dataValue else old(UiValue))
        && SaveWarning == (old(SaveWarning) || (r.uiWritten && !Booting))
      ensures Booting == old(Booting) && ChoiceVector == old(ChoiceVector)
      ensures KeyToChoiceVectorMap == old(KeyToChoiceVectorMap)
    {
      if |ChoiceVector| <= value {
        ok := false;
        message := BadValueMessage(Title, DecString(value));
        return;
      }
      var NewValue := ChoiceVector[value].0;
      var dummy;
      ok, dummy := Set(NewValue, forced);
      message := "";
    }

    /** RefreshOptionList: the new list replaces the old, the key map is
        rebuilt, and the position the current key had is selected again,
        now in the new list, with a forced set (which raises the save
        warning once the control has booted).  The UI then shows the value,
        whatever happened. */
    method RefreshOptionList(OptionList: ChoiceList)
      modifies this
      ensures ChoiceVector == OptionList && KeyToChoiceVectorMap == IndexMap(OptionList)
      ensures old(getIndex()) < |OptionList| ==>
        DataValueStr == OptionList[old(getIndex())].0 && SaveWarning == (old(SaveWarning) || !Booting)
      ensures old(getIndex()) >= |OptionList| ==>
        DataValueStr == old(DataValueStr) && SaveWarning == old(SaveWarning)
      ensures UiValue == DataValueStr
      ensures Booting == old(Booting)
    {
      var CurrentIndex := getIndex();
      ChoiceVector := OptionList;
      var m := BuildKeyMap(OptionList);
      KeyToChoiceVectorMap := m;
      if CurrentIndex < |OptionList| {
        assert OptionList[CurrentIndex].0 in m;
      }
      var ok, msg := SetIndex(CurrentIndex, true);
      UiValue := DataValueStr;
    }
  }

  // ---------------------------------------------------------------------
  // Properties
  // ---------------------------------------------------------------------

  /** getIndex gives the position of a known key and 0xFFFFFFFF for an
      unknown one. */
  lemma GetIndexPosition(v: ChoiceList, current: string)
    requires |v| <= UINT32_MAX
    ensures var i := GetIndex(IndexMap(v), current);
      (i == UINT32_MAX <==> forall j :: 0 <= j < |v| ==> v[j].0 != current)
      && (i != UINT32_MAX ==> v[i].0 == current)
  {
  }

  /** A non-forced set to the current valid key is refused as a duplicate;
      an unknown key is refused as a bad value; a known key otherwise is
      stored. */
  lemma ValidateRules(title: string, keys: map<string, nat>, current: string, value: string, forced: bool)
    ensures var r := ChoiceValidate(title, keys, current, value, forced);
      (r.ok <==> value in keys && (forced || current != value))
      && (r.ok ==> r.dataValue == value)
      && (!r.ok ==> r.dataValue == current)
      && (value !in keys ==> r.message == BadValueMessage(title, value))
      && (!forced && value == current && value in keys ==> r.message == DuplicateMessage(title, value))
  {
  }

  /** Before the first refresh the map is empty and every value is refused. */
  lemma EmptyMapRejects(title: string, current: string, value: string, forced: bool)
    ensures !ChoiceValidate(title, map[], current, value, forced).ok
  {
  }

  /** With distinct keys, the rebuilt map gives each key its own position,
      so the position selected before a refresh is the one selected after. */
  lemma {:induction false} DistinctKeysPositions(v: ChoiceList, i: nat)
    requires DistinctKeys(v) && i < |v|
    ensures IndexMap(v)[v[i].0] == i
  {
    var p := IndexMap(v)[v[i].0];
    assert v[p].0 == v[i].0;
  }

  /** Refreshing with the same list of distinct keys keeps the selected
      position. */
  lemma RefreshKeepsIndex(v: ChoiceList, current: string)
    requires DistinctKeys(v) && |v| <= UINT32_MAX
    requires current in IndexMap(v)
    ensures GetIndex(IndexMap(v), v[GetIndex(IndexMap(v), current)].0) == GetIndex(IndexMap(v), current)
  {
    DistinctKeysPositions(v, IndexMap(v)[current]);
  }
}
