// The list of RDS messages behind one controller's message editor: a
// std::list of messages in the order they were created, edited through the
// Create / Delete / Update buttons, and saved to and restored from a JSON
// object.  The UI text field and choice list are passed in as strings; the
// message is the one of ControllerMessageSet.
module ControllerMessages {
  import opened Ints
  import opened ArduinoString
  import opened EspUi
  import CMS = ControllerMessageSet

  type Message = CMS.Message

  /** The prompt shown in an empty text field. */
  const DefaultTextFieldValue: string := "Type New Message Here"

  const EmptyMessageWarning: string := "WARN: Empty message is not allowed"
  const PromptInMessageWarning: string := "WARN: Instruction text cannot be in the message"

  // ---------------------------------------------------------------------
  // JSON objects: members in insertion order, each key at most once
  // ---------------------------------------------------------------------

  datatype JsonPair = JsonPair(key: string, cfg: CMS.MessageConfig)

  /** Position of key k among the members, if any. */
  function FindKey(obj: seq<JsonPair>, k: string): (r: Option<nat>)
    ensures r.Some? ==> r.value < |obj| && obj[r.value].key == k
    ensures r.Some? ==> forall j :: r.value < j < |obj| ==> obj[j].key != k
    ensures r.None? ==> forall i :: 0 <= i < |obj| ==> obj[i].key != k
  {
    if |obj| == 0 then None
    else if obj[|obj| - 1].key == k then Some(|obj| - 1)
    else FindKey(obj[..|obj| - 1], k)
  }

  /** `obj[k] = v`: an existing member is overwritten where it is, a new
      one is added at the end. */
  function JsonSet(obj: seq<JsonPair>, k: string, v: CMS.MessageConfig): (r: seq<JsonPair>)
    ensures FindKey(obj, k).Some? ==> r == obj[FindKey(obj, k).value := JsonPair(k, v)]
    ensures FindKey(obj, k).None? ==> r == obj + [JsonPair(k, v)]
  {
    match FindKey(obj, k)
    case Some(i) => obj[i := JsonPair(k, v)]
    case None => obj + [JsonPair(k, v)]
  }

  /** The whole configuration object of the controller. */
  datatype ListConfig = ListConfig(
    name: Option<string>,
    enableDisplayFseqName: Option<bool>,
    displayFseqName: Option<bool>,
    list: Option<seq<JsonPair>>)

  function ListOf(config: ListConfig): seq<JsonPair>
  {
    if config.list.Some? then config.list.value else []
  }

  // ---------------------------------------------------------------------
  // The list operations
  // ---------------------------------------------------------------------

  /** FindMessageByText: the position of the first message with this text. */
  function FindByText(M: seq<Message>, text: string): (r: Option<nat>)
    ensures r.Some? ==> r.value < |M| && M[r.value].text == text
    ensures r.Some? ==> forall j :: 0 <= j < r.value ==> M[j].text != text
    ensures r.None? ==> forall j :: 0 <= j < |M| ==> M[j].text != text
  {
    if |M| == 0 then None
    else if M[0].text == text then Some(0)
    else match FindByText(M[1..], text)
      case None => None
      case Some(i) => Some(i + 1)
  }

  /** The number of messages with this text. */
  function CountText(M: seq<Message>, text: string): nat
  {
    if |M| == 0 then 0
    else CountText(M[..|M| - 1], text) + (if M[|M| - 1].text == text then 1 else 0)
  }

  /** ButtonCreateCb: on a button press a new message with the entered text
      goes to the back. */
  function Created(M: seq<Message>, eventType: int, text: string): (r: seq<Message>)
  {
    if eventType != B_DOWN then M else M + [CMS.NewMessage(text)]
  }

  /** ButtonDeleteCb: on a button press the first message whose text is the
      chosen one is erased. */
  function Deleted(M: seq<Message>, eventType: int, choice: string): (r: seq<Message>)
  {
    if eventType != B_DOWN then M
    else match FindByText(M, choice)
      case None => M
      case Some(i) => M[..i] + M[i + 1..]
  }

  /** ButtonUpdateCb: on a button press the first message whose text is the
      chosen one takes the entered text. */
  function UpdatedText(M: seq<Message>, eventType: int, choice: string, text: string): (r: seq<Message>)
  {
    if eventType != B_DOWN then M
    else match FindByText(M, choice)
      case None => M
      case Some(i) => M[i := M[i].(text := text)]
  }

  /** What TextChangeCb decides: which buttons are enabled, the status line
      and whether the text field is reset to the prompt. */
  datatype Buttons = Buttons(create: bool, delete: bool, update: bool, status: string, resetText: bool)

  function TextChange(choice: string, text: string, listEmpty: bool): (b: Buttons)
  {
    var deleteOk := !(choice == "" || listEmpty);
    if text == DefaultTextFieldValue then Buttons(false, deleteOk, false, "", false)
    else if IndexOf(text, DefaultTextFieldValue) != -1 then Buttons(false, deleteOk, false, PromptInMessageWarning, false)
    else if text == "" && listEmpty then Buttons(false, deleteOk, false, EmptyMessageWarning, true)
    else if text == choice then Buttons(false, deleteOk, false, "", false)
    else Buttons(true, deleteOk, deleteOk, "", false)
  }

  /** SaveConfig as written: the index is never incremented, so every
      message is written to member "0" and the last one wins. */
  function SavedAsWritten(obj: seq<JsonPair>, M: seq<Message>): (r: seq<JsonPair>)
  {
    if |M| == 0 then obj else JsonSet(obj, "0", CMS.ConfigOf(M[|M| - 1]))
  }

  /** SaveConfig as intended: message i is written to member String(i). */
  function SavedIntended(obj: seq<JsonPair>, M: seq<Message>): (r: seq<JsonPair>)
    decreases |M|
  {
    if |M| == 0 then obj
    else JsonSet(SavedIntended(obj, M[..|M| - 1]), DecString(|M| - 1), CMS.ConfigOf(M[|M| - 1]))
  }

  /** RestoreConfig's messages: one default message per member, restored
      from it, in member order; the keys are not looked at. */
  function RestoredList(obj: seq<JsonPair>): (r: seq<Message>)
    ensures |r| == |obj|
    ensures forall i :: 0 <= i < |obj| ==> r[i] == CMS.RestoredMessage(CMS.DefaultMessage, obj[i].cfg)
  {
    if |obj| == 0 then [] else RestoredList(obj[..|obj| - 1]) + [CMS.RestoredMessage(CMS.DefaultMessage, obj[|obj| - 1].cfg)]
  }

  // ---------------------------------------------------------------------
  // The controller
  // ---------------------------------------------------------------------

  class MessageList {
    var Title: string
    var EnableDisplayFseqName: bool
    var DisplayFseqName: bool
    var Messages: seq<Message>

    constructor()
      ensures Title == "Messages" && !EnableDisplayFseqName && DisplayFseqName && Messages == []
    {
      Title := "Messages";
      EnableDisplayFseqName := false;
      DisplayFseqName := true;
      Messages := [];
    }

    method FindMessageByText(text: string) returns (r: Option<nat>)
      ensures r == FindByText(Messages, text)
    {
      var i := 0;
      while i < |Messages|
        invariant 0 <= i <= |Messages|
        invariant forall j :: 0 <= j < i ==> Messages[j].text != text
      {
        if Messages[i].text == text {
          return Some(i);
        }
        i := i + 1;
      }
      return None;
    }

    method ButtonCreateCb(eventType: int, text: string)
      modifies this
      ensures Messages == Created(old(Messages), eventType, text)
      ensures Title == old(Title) && EnableDisplayFseqName == old(EnableDisplayFseqName)
      ensures DisplayFseqName == old(DisplayFseqName)
    {
      if eventType != B_DOWN {
        return;
      }
      Messages := Messages + [CMS.NewMessage(text)];
    }

    method ButtonDeleteCb(eventType: int, choice: string)
      modifies this
      ensures Messages == Deleted(old(Messages), eventType, choice)
      ensures Title == old(Title) && EnableDisplayFseqName == old(EnableDisplayFseqName)
      ensures DisplayFseqName == old(DisplayFseqName)
    {
      if eventType != B_DOWN {
        return;
      }
      var found := FindMessageByText(choice);
      if found.Some? {
        var i := found.value;
        Messages := Messages[..i] + Messages[i + 1..];
      }
    }

    method ButtonUpdateCb(eventType: int, choice: string, text: string)
      modifies this
      ensures Messages == UpdatedText(old(Messages), eventType, choice, text)
      ensures Title == old(Title) && EnableDisplayFseqName == old(EnableDisplayFseqName)
      ensures DisplayFseqName == old(DisplayFseqName)
    {
      if eventType != B_DOWN {
        return;
      }
      var found := FindMessageByText(choice);
      if found.None? {
        return;
      }
      var i := found.value;
      Messages := Messages[i := Messages[i].(text := text)];
    }

    method TextChangeCb(choice: string, text: string) returns (b: Buttons)
      ensures b == TextChange(choice, text, |Messages| == 0)
    {
      b := TextChange(choice, text, |Messages| == 0);
    }

    method DisplayFseqNameCb(eventType: int)
      modifies this
      ensures DisplayFseqName == (eventType == S_ACTIVE)
      ensures Messages == old(Messages) && Title == old(Title)
      ensures EnableDisplayFseqName == old(EnableDisplayFseqName)
    {
      DisplayFseqName := eventType == S_ACTIVE;
    }

    /** SaveConfig as written: the loop writes every message to the member
        named by an index that stays 0. */
    method SaveConfig(config: ListConfig) returns (r: ListConfig)
      ensures r == ListConfig(Some(Title), Some(EnableDisplayFseqName), Some(DisplayFseqName),
                              Some(SavedAsWritten(ListOf(config), Messages)))
    {
      var MessageConfigs := ListOf(config);
      var obj := MessageConfigs;
      var index := 0;
      var n := 0;
      while n < |Messages|
        invariant 0 <= n <= |Messages|
        invariant index == 0
        invariant obj == SavedAsWritten(MessageConfigs, Messages[..n])
      {
        var k := DecString(index);
        assert k == "0";
        JsonSetTwice(MessageConfigs, k, CMS.ConfigOf(Messages[n]));
        obj := JsonSet(obj, k, CMS.ConfigOf(Messages[n]));
        n := n + 1;
      }
      assert Messages[..n] == Messages;
      r := ListConfig(Some(Title), Some(EnableDisplayFseqName), Some(DisplayFseqName), Some(obj));
    }

    /** RestoreConfig: the settings present are taken over and every member
        of the list is appended as a restored default message. */
    method RestoreConfig(config: ListConfig)
      modifies this
      ensures EnableDisplayFseqName == (if config.enableDisplayFseqName.Some? then config.enableDisplayFseqName.value else old(EnableDisplayFseqName))
      ensures DisplayFseqName == (if config.displayFseqName.Some? then config.displayFseqName.value else old(DisplayFseqName))
      ensures Title == (if config.name.Some? then config.name.value else old(Title))
      ensures Messages == old(Messages) + RestoredList(ListOf(config))
    {
      var enable := EnableDisplayFseqName;
      var display := DisplayFseqName;
      var title := Title;
      if config.enableDisplayFseqName.Some? {
        enable := config.enableDisplayFseqName.value;
      }
      if config.displayFseqName.Some? {
        display := config.displayFseqName.value;
      }
      if config.name.Some? {
        title := config.name.value;
      }
      var messages := AppendRestored(Messages, ListOf(config));
      EnableDisplayFseqName, DisplayFseqName, Title, Messages := enable, display, title, messages;
    }
  }

  /** RestoreConfig's loop: one restored default message per member. */
  method AppendRestored(Messages: seq<Message>, ListOfMessages: seq<JsonPair>) returns (messages: seq<Message>)
    ensures messages == Messages + RestoredList(ListOfMessages)
  {
    messages := Messages;
    var i := 0;
    while i < |ListOfMessages|
      invariant 0 <= i <= |ListOfMessages|
      invariant messages == Messages + RestoredList(ListOfMessages[..i])
    {
      assert ListOfMessages[..i + 1][..i] == ListOfMessages[..i];
      messages := messages + [CMS.RestoredMessage(CMS.DefaultMessage, ListOfMessages[i].cfg)];
      i := i + 1;
    }
    assert ListOfMessages[..i] == ListOfMessages;
  }

  // ---------------------------------------------------------------------
  // Properties
  // ---------------------------------------------------------------------

  /** Writing the same member twice leaves the second value. */
  lemma JsonSetTwice(obj: seq<JsonPair>, k: string, v: CMS.MessageConfig)
    ensures forall w :: JsonSet(JsonSet(obj, k, w), k, v) == JsonSet(obj, k, v)
  {
    forall w
      ensures JsonSet(JsonSet(obj, k, w), k, v) == JsonSet(obj, k, v)
    {
      JsonSetFindKey(obj, k, w);
    }
  }

  /** After obj[k] = w the member k is where it was, or at the end. */
  lemma {:induction false} JsonSetFindKey(obj: seq<JsonPair>, k: string, w: CMS.MessageConfig)
    ensures FindKey(JsonSet(obj, k, w), k) == Some(if FindKey(obj, k).Some? then FindKey(obj, k).value else |obj|)
  {
    var r := JsonSet(obj, k, w);
    var p := if FindKey(obj, k).Some? then FindKey(obj, k).value else |obj|;
    FindKeyLast(r, k, p);
  }

  /** FindKey finds the last member with key k. */
  lemma {:induction false} FindKeyLast(obj: seq<JsonPair>, k: string, p: nat)
    requires p < |obj| && obj[p].key == k
    requires forall j :: p < j < |obj| ==> obj[j].key != k
    ensures FindKey(obj, k) == Some(p)
  {
    if p < |obj| - 1 {
      FindKeyLast(obj[..|obj| - 1], k, p);
    }
  }

  /** A restored saved message is the message itself. */
  lemma RestoreConfigOf(m: Message)
    ensures CMS.RestoredMessage(CMS.DefaultMessage, CMS.ConfigOf(m)) == m
  {
  }

  /** Create appends with no duplicate check: the text occurs once more. */
  lemma {:induction false} CreateAppends(M: seq<Message>, text: string)
    ensures Created(M, B_DOWN, text)[..|M|] == M
    ensures Created(M, B_DOWN, text)[|M|].text == text
    ensures CountText(Created(M, B_DOWN, text), text) == CountText(M, text) + 1
  {
    var r := Created(M, B_DOWN, text);
    assert r[..|r| - 1] == M;
  }

  /** Other button events leave the list alone. */
  lemma ButtonsNeedPress(M: seq<Message>, eventType: int, choice: string, text: string)
    requires eventType != B_DOWN
    ensures Created(M, eventType, text) == M
    ensures Deleted(M, eventType, choice) == M
    ensures UpdatedText(M, eventType, choice, text) == M
  {
  }

  lemma {:induction false} CountTextSplit(A: seq<Message>, B: seq<Message>, text: string)
    ensures CountText(A + B, text) == CountText(A, text) + CountText(B, text)
    decreases |B|
  {
    if |B| > 0 {
      assert (A + B)[..|A + B| - 1] == A + B[..|B| - 1];
      CountTextSplit(A, B[..|B| - 1], text);
    } else {
      assert A + B == A;
    }
  }

  /** Delete erases exactly one occurrence of the chosen text, the first,
      and keeps the order of the rest; with no such message it does
      nothing. */
  lemma DeleteRemovesFirst(M: seq<Message>, choice: string)
    ensures FindByText(M, choice).None? ==> Deleted(M, B_DOWN, choice) == M
    ensures FindByText(M, choice).Some? ==>
      var i := FindByText(M, choice).value;
      Deleted(M, B_DOWN, choice) == M[..i] + M[i + 1..]
      && CountText(Deleted(M, B_DOWN, choice), choice) + 1 == CountText(M, choice)
      && forall t :: t != choice ==> CountText(Deleted(M, B_DOWN, choice), t) == CountText(M, t)
  {
    if FindByText(M, choice).Some? {
      var i := FindByText(M, choice).value;
      assert M == M[..i] + [M[i]] + M[i + 1..];
      forall t
        ensures CountText(M, t) == CountText(M[..i] + M[i + 1..], t) + (if M[i].text == t then 1 else 0)
      {
        CountTextSplit(M[..i] + [M[i]], M[i + 1..], t);
        CountTextSplit(M[..i], [M[i]], t);
        CountTextSplit(M[..i], M[i + 1..], t);
        assert CountText([M[i]], t) == (if M[i].text == t then 1 else 0) by {
          assert [M[i]][..0] == [];
        }
      }
    }
  }

  /** Update renames the first message with the chosen text and leaves every
      other message, and the length, as they were. */
  lemma UpdateRenamesFirst(M: seq<Message>, choice: string, text: string)
    ensures |UpdatedText(M, B_DOWN, choice, text)| == |M|
    ensures FindByText(M, choice).None? ==> UpdatedText(M, B_DOWN, choice, text) == M
    ensures FindByText(M, choice).Some? ==>
      var i := FindByText(M, choice).value;
      var r := UpdatedText(M, B_DOWN, choice, text);
      r[i] == M[i].(text := text)
      && (forall j :: 0 <= j < |M| && j != i ==> r[j] == M[j])
      && (forall j :: 0 <= j < i ==> M[j].text != choice)
  {
  }

  /** Delete and Update are off exactly when nothing is chosen or the list
      is empty (Update has further conditions). */
  lemma TextChangeDelete(choice: string, text: string, listEmpty: bool)
    ensures TextChange(choice, text, listEmpty).delete <==> choice != "" && !listEmpty
    ensures choice == "" || listEmpty ==> !TextChange(choice, text, listEmpty).update
  {
  }

  /** Create is on exactly when the text does not hold the prompt, is not
      empty on an empty list, and differs from the chosen message; Update
      needs that and Delete's condition too. */
  lemma TextChangeCreate(choice: string, text: string, listEmpty: bool)
    ensures TextChange(choice, text, listEmpty).create <==>
      IndexOf(text, DefaultTextFieldValue) == -1 && !(text == "" && listEmpty) && text != choice
    ensures TextChange(choice, text, listEmpty).update <==>
      TextChange(choice, text, listEmpty).create && TextChange(choice, text, listEmpty).delete
  {
    if text == DefaultTextFieldValue {
      assert OccursAt(text, DefaultTextFieldValue, 0);
    }
  }

  /** The text field is reset to the prompt only for an empty text on an
      empty list that does not hold the prompt. */
  lemma TextChangeReset(choice: string, text: string, listEmpty: bool)
    ensures TextChange(choice, text, listEmpty).resetText <==> text == "" && listEmpty
  {
    assert IndexOf("", DefaultTextFieldValue) == -1;
  }

  /** As written, SaveConfig followed by RestoreConfig onto an empty list
      brings back only the last message. */
  lemma SaveRestoreKeepsLast(M: seq<Message>)
    requires |M| > 0
    ensures RestoredList(SavedAsWritten([], M)) == [M[|M| - 1]]
  {
    RestoreConfigOf(M[|M| - 1]);
  }

  /** The smallest list that shows it: two messages save as one. */
  lemma SaveConfigLosesMessages()
    ensures var M := [CMS.NewMessage("a"), CMS.NewMessage("b")];
      RestoredList(SavedAsWritten([], M)) == [CMS.NewMessage("b")] != M
  {
    SaveRestoreKeepsLast([CMS.NewMessage("a"), CMS.NewMessage("b")]);
  }

  /** Distinct indexes give distinct member names. */
  lemma DecStringInjective(a: nat, b: nat)
    requires a != b
    ensures DecString(a) != DecString(b)
  {
    DecStringValue(a);
    DecStringValue(b);
  }

  /** The intended save writes message i to member String(i), in order. */
  lemma {:induction false} SavedIntendedMembers(M: seq<Message>)
    ensures |SavedIntended([], M)| == |M|
    ensures forall i :: 0 <= i < |M| ==> SavedIntended([], M)[i] == JsonPair(DecString(i), CMS.ConfigOf(M[i]))
    decreases |M|
  {
    if |M| > 0 {
      var n := |M| - 1;
      var P := SavedIntended([], M[..n]);
      SavedIntendedMembers(M[..n]);
      forall i | 0 <= i < |P|
        ensures P[i].key != DecString(n)
      {
        DecStringInjective(i, n);
      }
    }
  }

  /** With the index incremented, SaveConfig followed by RestoreConfig onto
      an empty list gives back the whole list. */
  lemma SaveRestoreIntended(M: seq<Message>)
    ensures RestoredList(SavedIntended([], M)) == M
  {
    SavedIntendedMembers(M);
    forall i | 0 <= i < |M|
      ensures RestoredList(SavedIntended([], M))[i] == M[i]
    {
      RestoreConfigOf(M[i]);
    }
  }
}
