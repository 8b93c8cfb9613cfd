// The FPP sequences of the FPPD controller: a std::map from sequence name to
// sequence, the name of the selected sequence, the Create / Delete / Update
// buttons that edit the map and the rule that enables them.  A sequence is
// kept as its name; its message list and UI elements are not part of the
// model.  The UI text field and choice list are passed in as strings.
module ControllerFPPDSequences {
  import opened ArduinoString
  import opened EspUi

  /** The name of the sequence that always exists. */
  const DefaultName: string := "default"

  /** The prompt shown in an empty text field. */
  const DefaultTextFieldValue: string := "Type New Sequence Name Here"

  const BlankNameWarning: string := "A Blank Name Is Not Allowed"
  const DefaultNameWarning: string := "Cannot Create Another Default Sequence"

  datatype Sequence = Sequence(name: string)

  /** A default-constructed sequence. */
  const EmptySequence: Sequence := Sequence("")

  /** One element of the saved sequence array. */
  datatype SequenceConfig = SequenceConfig(name: Option<string>)

  /** Every sequence is stored under its own name. */
  ghost predicate NamesMatchKeys(S: map<string, Sequence>)
  {
    forall k :: k in S ==> S[k].name == k
  }

  /** operator[]: the sequence under k, default-constructed when absent. */
  function Touched(S: map<string, Sequence>, k: string): (r: map<string, Sequence>)
    ensures r.Keys == S.Keys + {k}
    ensures forall j :: j in S ==> r[j] == S[j]
    ensures k !in S ==> r[k] == EmptySequence
  {
    if k in S then S else S[k := EmptySequence]
  }

  /** AddSequence: the sequence under the name is created if needed and
      named, and becomes the selected one. */
  function Added(S: map<string, Sequence>, name: string): (r: map<string, Sequence>)
  {
    S[name := Sequence(name)]
  }

  /** CbButtonDelete: on a button press an existing chosen key is erased.
      The selected name is left as it was. */
  function Deleted(S: map<string, Sequence>, eventType: int, key: string): (r: map<string, Sequence>)
  {
    if eventType != B_DOWN || key !in S then S else S - {key}
  }

  /** CbButtonUpdate as written: the sequence under the original name is
      copied under the new name, and then the one left under the original
      name is renamed to the new name. */
  function Updated(S: map<string, Sequence>, eventType: int, original: string, newName: string): (r: map<string, Sequence>)
  {
    if eventType != B_DOWN then S
    else
      var S1 := Touched(S, original);
      var S2 := S1[newName := S1[original]];
      S2[original := S2[original].(name := newName)]
  }

  /** CbButtonUpdate as intended: the sequence moves from the original name
      to the new one and takes the new name. */
  function UpdatedIntended(S: map<string, Sequence>, eventType: int, original: string, newName: string): (r: map<string, Sequence>)
  {
    if eventType != B_DOWN || original !in S then S
    else (S - {original})[newName := S[original].(name := newName)]
  }

  /** What CbTextChange decides: the enabled buttons and the status line,
      None where the status line is left as it was. */
  datatype Buttons = Buttons(create: bool, delete: bool, update: bool, status: Option<string>)

  function TextChange(S: map<string, Sequence>, choice: string, text: string): (b: Buttons)
  {
    var deleteOk := choice != DefaultName;
    var status := if deleteOk then None else Some(DefaultTextFieldValue);
    if IndexOf(text, DefaultTextFieldValue) != -1 then Buttons(false, deleteOk, false, Some(""))
    else if text == "" then Buttons(false, deleteOk, false, Some(BlankNameWarning))
    else if text == DefaultName then Buttons(false, deleteOk, false, Some(DefaultNameWarning))
    else if text == choice then Buttons(false, deleteOk, false, Some(""))
    else if text in S then Buttons(false, deleteOk, false, status)
    else Buttons(true, deleteOk, deleteOk, Some(""))
  }

  /** RestoreConfig for one element: skipped without a name, otherwise
      added (and selected) under that name. */
  function RestoreOne(S: map<string, Sequence>, selected: string, cfg: SequenceConfig): (r: (map<string, Sequence>, string))
  {
    if cfg.name.None? then (S, selected) else (Added(S, cfg.name.value), cfg.name.value)
  }

  /** RestoreConfig's loop over the saved array. */
  function RestoreAll(S: map<string, Sequence>, selected: string, cfgs: seq<SequenceConfig>): (r: (map<string, Sequence>, string))
    decreases |cfgs|
  {
    if |cfgs| == 0 then (S, selected)
    else
      var p := RestoreAll(S, selected, cfgs[..|cfgs| - 1]);
      RestoreOne(p.0, p.1, cfgs[|cfgs| - 1])
  }

  /** The names of the elements that carry one. */
  function NamesIn(cfgs: seq<SequenceConfig>): (r: set<string>)
    ensures forall i :: 0 <= i < |cfgs| && cfgs[i].name.Some? ==> cfgs[i].name.value in r
    ensures forall n :: n in r ==> exists i :: 0 <= i < |cfgs| && cfgs[i].name == Some(n)
  {
    if |cfgs| == 0 then {}
    else
      var last := cfgs[|cfgs| - 1];
      var before := NamesIn(cfgs[..|cfgs| - 1]);
      if last.name.Some? then before + {last.name.value} else before
  }

  class SequenceList {
    var Sequences: map<string, Sequence>
    var SelectedSequenceName: string

    constructor()
      ensures Sequences == map[] && SelectedSequenceName == DefaultName
    {
      Sequences := map[];
      SelectedSequenceName := DefaultName;
    }

    method AddSequence(SequenceName: string)
      modifies this
      ensures Sequences == Added(old(Sequences), SequenceName)
      ensures SelectedSequenceName == SequenceName
    {
      SelectedSequenceName := SequenceName;
      var S := Touched(Sequences, SequenceName);
      Sequences := S[SequenceName := S[SequenceName].(name := SequenceName)];
    }

    /** begin: the default sequence is created and selected. */
    method Begin()
      modifies this
      ensures Sequences == Added(old(Sequences), DefaultName)
      ensures SelectedSequenceName == DefaultName
    {
      AddSequence(DefaultName);
    }

    method CbButtonCreate(eventType: int, text: string)
      modifies this
      ensures eventType != B_DOWN ==> Sequences == old(Sequences) && SelectedSequenceName == old(SelectedSequenceName)
      ensures eventType == B_DOWN ==> Sequences == Added(old(Sequences), text) && SelectedSequenceName == text
    {
      if eventType != B_DOWN {
        return;
      }
      SelectedSequenceName := text;
      AddSequence(SelectedSequenceName);
    }

    method CbButtonDelete(eventType: int, choice: string)
      modifies this
      ensures Sequences == Deleted(old(Sequences), eventType, choice)
      ensures SelectedSequenceName == old(SelectedSequenceName)
    {
      if eventType != B_DOWN {
        return;
      }
      if choice !in Sequences {
        return;
      }
      Sequences := Sequences - {choice};
    }

    method CbButtonUpdate(eventType: int, text: string, choice: string)
      modifies this
      ensures Sequences == Updated(old(Sequences), eventType, choice, text)
      ensures SelectedSequenceName == old(SelectedSequenceName)
    {
      var NewSequenceName := text;
      var OriginalSequenceName := choice;
      if eventType != B_DOWN {
        return;
      }
      var S := Touched(Sequences, OriginalSequenceName);
      S := S[NewSequenceName := S[OriginalSequenceName]];
      S := S[OriginalSequenceName := S[OriginalSequenceName].(name := NewSequenceName)];
      Sequences := S;
    }

    method CbChoiceList(value: string)
      modifies this
      ensures SelectedSequenceName == value && Sequences == old(Sequences)
    {
      SelectedSequenceName := value;
    }

    method CbTextChange(choice: string, text: string) returns (b: Buttons)
      ensures b == TextChange(Sequences, choice, text)
    {
      b := TextChange(Sequences, choice, text);
    }

    /** RestoreConfig: the default sequence first, then every named element
        of the saved array. */
    method RestoreConfig(SequencesArray: seq<SequenceConfig>)
      modifies this
      ensures (Sequences, SelectedSequenceName) == RestoreAll(Added(old(Sequences), DefaultName), DefaultName, SequencesArray)
    {
      AddSequence(DefaultName);
      var i := 0;
      while i < |SequencesArray|
        invariant 0 <= i <= |SequencesArray|
        invariant (Sequences, SelectedSequenceName) == RestoreAll(Added(old(Sequences), DefaultName), DefaultName, SequencesArray[..i])
      {
        assert SequencesArray[..i + 1][..i] == SequencesArray[..i];
        var CurrentSequenceConfig := SequencesArray[i];
        if CurrentSequenceConfig.name.Some? {
          var Key := CurrentSequenceConfig.name.value;
          AddSequence(Key);
        }
        i := i + 1;
      }
      assert SequencesArray[..i] == SequencesArray;
    }
  }

  // ---------------------------------------------------------------------
  // Properties
  // ---------------------------------------------------------------------

  /** AddSequence keeps every sequence under its own name, and the added
      name is then present. */
  lemma AddedKeepsNames(S: map<string, Sequence>, name: string)
    requires NamesMatchKeys(S)
    ensures NamesMatchKeys(Added(S, name))
    ensures Added(S, name).Keys == S.Keys + {name}
  {
  }

  /** Delete erases exactly the chosen key, and only on a button press. */
  lemma DeleteErasesKey(S: map<string, Sequence>, eventType: int, key: string)
    ensures Deleted(S, eventType, key).Keys == if eventType == B_DOWN then S.Keys - {key} else S.Keys
    ensures forall k :: k in Deleted(S, eventType, key) ==> Deleted(S, eventType, key)[k] == S[k]
  {
  }

  /** As written, Update keeps the original key, stores under the new key a
      sequence still named after the original, and renames the one left
      under the original key. */
  lemma UpdateKeepsOriginal(S: map<string, Sequence>, original: string, newName: string)
    requires NamesMatchKeys(S) && original in S && newName != original
    ensures var r := Updated(S, B_DOWN, original, newName);
      r.Keys == S.Keys + {newName}
      && r[newName] == Sequence(original)
      && r[original] == Sequence(newName)
  {
  }

  /** The smallest map that shows it: renaming "a" to "b" leaves two
      sequences, neither stored under its own name. */
  lemma UpdateBreaksNames()
    ensures var S := map[DefaultName := Sequence(DefaultName), "a" := Sequence("a")];
      NamesMatchKeys(S)
      && !NamesMatchKeys(Updated(S, B_DOWN, "a", "b"))
      && "a" in Updated(S, B_DOWN, "a", "b")
  {
    var S := map[DefaultName := Sequence(DefaultName), "a" := Sequence("a")];
    UpdateKeepsOriginal(S, "a", "b");
  }

  /** As intended, Update moves the sequence: the original key goes, the
      new key comes, and every sequence stays under its own name. */
  lemma UpdateIntendedRenames(S: map<string, Sequence>, original: string, newName: string)
    requires NamesMatchKeys(S) && original in S
    ensures var r := UpdatedIntended(S, B_DOWN, original, newName);
      NamesMatchKeys(r)
      && r.Keys == S.Keys - {original} + {newName}
      && forall k :: k in S && k != original && k != newName ==> r[k] == S[k]
  {
  }

  /** Delete and Update are off when the default sequence is chosen, and
      Delete only then. */
  lemma TextChangeDelete(S: map<string, Sequence>, choice: string, text: string)
    ensures TextChange(S, choice, text).delete <==> choice != DefaultName
    ensures choice == DefaultName ==> !TextChange(S, choice, text).update
  {
  }

  /** Create is on exactly for a text without the prompt that is not empty,
      not "default", not the chosen name and not an existing name; Update
      needs that and a chosen sequence other than the default. */
  lemma TextChangeCreate(S: map<string, Sequence>, choice: string, text: string)
    ensures TextChange(S, choice, text).create <==>
      IndexOf(text, DefaultTextFieldValue) == -1 && text != "" && text != DefaultName && text != choice && text !in S
    ensures TextChange(S, choice, text).update <==>
      TextChange(S, choice, text).create && choice != DefaultName
  {
  }

  /** RestoreConfig adds "default" and every named element, keeps every
      sequence under its own name, and selects the last named element (or
      "default" when there is none). */
  lemma {:induction false} RestoreAllEffect(S: map<string, Sequence>, cfgs: seq<SequenceConfig>)
    requires NamesMatchKeys(S)
    ensures var r := RestoreAll(Added(S, DefaultName), DefaultName, cfgs);
      NamesMatchKeys(r.0)
      && r.0.Keys == S.Keys + {DefaultName} + NamesIn(cfgs)
      && (r.1 == DefaultName || r.1 in NamesIn(cfgs))
    decreases |cfgs|
  {
    if |cfgs| > 0 {
      RestoreAllEffect(S, cfgs[..|cfgs| - 1]);
    }
  }
}
