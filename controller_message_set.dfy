// One controller's set of RDS messages: a std::map from message text to
// message, kept here as a sequence of entries in ascending key order (the
// order std::map iterates in), a cursor for the round-robin broadcast and the
// name of the message the UI shows.  The cursor is kept as the key it points
// at; None is the null cursor.
module ControllerMessageSet {
  import opened Ints
  import opened ArduinoString

  /** One message: its text, how long it is shown and whether it is sent. */
  datatype Message = Message(text: string, durationSec: uint32, enabled: bool)

  /** A default-constructed message. */
  const DefaultMessage: Message := Message("", 5, true)

  /** A default-constructed message after SetMessage(text). */
  function NewMessage(text: string): (m: Message)
    ensures m == DefaultMessage.(text := text)
  {
    Message(text, 5, true)
  }

  datatype Entry = Entry(key: string, msg: Message)

  /** The text and duration handed to the RDS sender. */
  datatype RdsMsgInfo = RdsMsgInfo(text: string, durationMilliSec: uint32)

  /** One element of a saved message list; every member is optional. */
  datatype MessageConfig = MessageConfig(message: Option<string>, durationSec: Option<uint32>, enabled: Option<bool>)

  // ---------------------------------------------------------------------
  // String order and the map as a sorted sequence
  // ---------------------------------------------------------------------

  /** String's operator<: lexicographic order on the character codes. */
  predicate StrLess(a: string, b: string)
    decreases |a|
  {
    if |a| == 0 then |b| > 0
    else if |b| == 0 then false
    else if a[0] != b[0] then a[0] < b[0]
    else StrLess(a[1..], b[1..])
  }

  lemma {:induction false} StrLessIrreflexive(a: string)
    ensures !StrLess(a, a)
    decreases |a|
  {
    if |a| > 0 {
      StrLessIrreflexive(a[1..]);
    }
  }

  lemma {:induction false} StrLessTransitive(a: string, b: string, c: string)
    requires StrLess(a, b) && StrLess(b, c)
    ensures StrLess(a, c)
    decreases |a|
  {
    if |a| > 0 && a[0] == b[0] && b[0] == c[0] {
      StrLessTransitive(a[1..], b[1..], c[1..]);
    }
  }

  lemma {:induction false} StrLessTotal(a: string, b: string)
    requires a != b
    ensures StrLess(a, b) || StrLess(b, a)
    decreases |a|
  {
    if |a| > 0 && |b| > 0 && a[0] == b[0] {
      assert a == [a[0]] + a[1..] && b == [b[0]] + b[1..];
      StrLessTotal(a[1..], b[1..]);
    }
  }

  /** The entries are in strictly ascending key order, so no key repeats. */
  predicate Sorted(M: seq<Entry>)
  {
    forall i, j :: 0 <= i < j < |M| ==> StrLess(M[i].key, M[j].key)
  }

  /** Index of the entry with key k (the first one), or -1 (find() == end()). */
  function Find(M: seq<Entry>, k: string): (r: int)
    ensures -1 <= r < |M|
    ensures r >= 0 ==> M[r].key == k
    ensures forall j :: 0 <= j < (if r < 0 then |M| else r) ==> M[j].key != k
  {
    if |M| == 0 then -1
    else if M[0].key == k then 0
    else
      var r := Find(M[1..], k);
      if r < 0 then -1 else r + 1
  }

  /** The message stored under k, if any. */
  function Lookup(M: seq<Entry>, k: string): Option<Message>
  {
    var i := Find(M, k);
    if i < 0 then None else Some(M[i].msg)
  }

  /** In a sorted sequence every key is found at its own index. */
  lemma FindSorted(M: seq<Entry>, i: int)
    requires Sorted(M) && 0 <= i < |M|
    ensures Find(M, M[i].key) == i
  {
    StrLessIrreflexive(M[i].key);
  }

  /** How many entries have a key below k: where std::map inserts k. */
  function InsertPos(M: seq<Entry>, k: string): (p: nat)
    ensures p <= |M|
    ensures forall i :: 0 <= i < p ==> StrLess(M[i].key, k)
    ensures p < |M| ==> !StrLess(M[p].key, k)
  {
    if |M| == 0 || !StrLess(M[0].key, k) then 0 else 1 + InsertPos(M[1..], k)
  }

  /** Inserting a new key keeps the order; the entries are the old ones and
      the new one. */
  function Insert(M: seq<Entry>, e: Entry): (r: seq<Entry>)
    requires Sorted(M) && Find(M, e.key) < 0
    ensures Sorted(r) && |r| == |M| + 1
  {
    var p := InsertPos(M, e.key);
    InsertedSorted(M, e, p);
    M[..p] + [e] + M[p..]
  }

  /** A key that is absent and above the first p keys, and not above the
      rest, fits between them. */
  lemma InsertedSorted(M: seq<Entry>, e: Entry, p: nat)
    requires Sorted(M) && Find(M, e.key) < 0 && p == InsertPos(M, e.key)
    ensures Sorted(M[..p] + [e] + M[p..])
  {
    var r := M[..p] + [e] + M[p..];
    InsertAbove(M, e, p);
    assert forall i :: 0 <= i < p ==> r[i] == M[i];
    assert r[p] == e;
    assert forall i :: p < i < |r| ==> r[i] == M[i - 1];
    forall i, j | 0 <= i < j < |r|
      ensures StrLess(r[i].key, r[j].key)
    {
      if i < p && p < j {
        StrLessTransitive(M[i].key, e.key, M[j - 1].key);
      }
    }
  }

  /** The keys from the insertion point on are above the new key. */
  lemma InsertAbove(M: seq<Entry>, e: Entry, p: nat)
    requires Sorted(M) && Find(M, e.key) < 0 && p == InsertPos(M, e.key)
    ensures forall j :: p <= j < |M| ==> StrLess(e.key, M[j].key)
  {
    forall j | p <= j < |M|
      ensures StrLess(e.key, M[j].key)
    {
      StrLessTotal(e.key, M[p].key);
      if j > p {
        StrLessTransitive(e.key, M[p].key, M[j].key);
      }
    }
  }

  /** Where each entry of Insert's result comes from. */
  lemma InsertIndex(M: seq<Entry>, e: Entry)
    requires Sorted(M) && Find(M, e.key) < 0
    ensures var p := InsertPos(M, e.key); var r := Insert(M, e);
      && (forall i :: 0 <= i < p ==> r[i] == M[i])
      && r[p] == e
      && (forall i :: p < i < |r| ==> r[i] == M[i - 1])
  {
  }

  /** The index at which Insert placed the new entry. */
  lemma InsertFind(M: seq<Entry>, e: Entry)
    requires Sorted(M) && Find(M, e.key) < 0
    ensures Find(Insert(M, e), e.key) == InsertPos(M, e.key)
    ensures Insert(M, e)[InsertPos(M, e.key)] == e
  {
    InsertIndex(M, e);
    FindSorted(Insert(M, e), InsertPos(M, e.key));
  }

  /** Inserting a fresh message and then assigning the entry is inserting
      the assigned message. */
  lemma InsertThenSet(M: seq<Entry>, k: string, m: Message)
    requires Sorted(M) && Find(M, k) < 0
    ensures Find(Insert(M, Entry(k, NewMessage(k))), k) == InsertPos(M, k)
    ensures Insert(M, Entry(k, NewMessage(k)))[InsertPos(M, k)] == Entry(k, NewMessage(k))
    ensures Insert(M, Entry(k, NewMessage(k)))[InsertPos(M, k) := Entry(k, m)] == Insert(M, Entry(k, m))
  {
    InsertFind(M, Entry(k, NewMessage(k)));
    InsertIndex(M, Entry(k, NewMessage(k)));
    InsertIndex(M, Entry(k, m));
  }

  /** Insert behaves as a map insertion. */
  lemma InsertLookup(M: seq<Entry>, e: Entry, k: string)
    requires Sorted(M) && Find(M, e.key) < 0
    ensures Lookup(Insert(M, e), k) == if k == e.key then Some(e.msg) else Lookup(M, k)
  {
    var p := InsertPos(M, e.key);
    var r := Insert(M, e);
    InsertIndex(M, e);
    if k == e.key {
      InsertFind(M, e);
    } else if Find(M, k) >= 0 {
      var j := Find(M, k);
      var j' := if j < p then j else j + 1;
      assert r[j'] == M[j];
      FindSorted(r, j');
    } else {
      forall i | 0 <= i < |r|
        ensures r[i].key != k
      {
        if i != p {
          assert r[i] == M[if i < p then i else i - 1];
        }
      }
    }
  }

  /** The sequence without its i-th entry (std::map::erase). */
  function RemoveAt(M: seq<Entry>, i: int): (r: seq<Entry>)
    requires Sorted(M) && 0 <= i < |M|
    ensures Sorted(r) && |r| == |M| - 1
  {
    var r := M[..i] + M[i + 1..];
    assert forall a, b :: 0 <= a < b < |r| ==> StrLess(r[a].key, r[b].key) by {
      forall a, b | 0 <= a < b < |r|
        ensures StrLess(r[a].key, r[b].key)
      {
        assert r[a] == M[if a < i then a else a + 1];
        assert r[b] == M[if b < i then b else b + 1];
      }
    }
    r
  }

  /** Erasing removes exactly the erased key. */
  lemma RemoveLookup(M: seq<Entry>, i: int, k: string)
    requires Sorted(M) && 0 <= i < |M|
    ensures Lookup(RemoveAt(M, i), k) == if k == M[i].key then None else Lookup(M, k)
  {
    var r := RemoveAt(M, i);
    assert forall a :: 0 <= a < |r| ==> r[a] == M[if a < i then a else a + 1];
    if Find(M, k) >= 0 && k != M[i].key {
      var j := Find(M, k);
      var j' := if j < i then j else j - 1;
      assert r[j'] == M[j];
      FindSorted(r, j');
    } else if k == M[i].key {
      forall a | 0 <= a < |r|
        ensures r[a].key != k
      {
        var b := if a < i then a else a + 1;
        if b < i {
          assert StrLess(M[b].key, M[i].key);
        } else {
          assert StrLess(M[i].key, M[b].key);
        }
        StrLessIrreflexive(k);
      }
    }
  }

  /** Messages[k] = m for a key that is present. */
  function SetMsg(M: seq<Entry>, k: string, m: Message): (r: seq<Entry>)
    requires Sorted(M) && Find(M, k) >= 0
    ensures Sorted(r) && |r| == |M|
    ensures forall i :: 0 <= i < |M| ==> r[i].key == M[i].key
  {
    M[Find(M, k) := Entry(k, m)]
  }

  /** Assignment changes the message under k and nothing else. */
  lemma SetMsgLookup(M: seq<Entry>, k: string, m: Message, x: string)
    requires Sorted(M) && Find(M, k) >= 0
    ensures Lookup(SetMsg(M, k, m), x) == if x == k then Some(m) else Lookup(M, x)
  {
    var r := SetMsg(M, k, m);
    if Find(M, x) >= 0 {
      FindSorted(r, Find(M, x));
    }
  }

  // ---------------------------------------------------------------------
  // The set's state and the operations on it, as functions
  // ---------------------------------------------------------------------

  /** Messages, MessagesIterator and CurrentMsgName. */
  datatype SetState = SetState(messages: seq<Entry>, cursor: Option<string>, current: string)

  /** The map is ordered and the cursor, when set, points into it. */
  predicate ValidState(s: SetState)
  {
    Sorted(s.messages) && (s.cursor.Some? ==> Lookup(s.messages, s.cursor.value).Some?)
  }

  /** What AddMessage(text) leaves. */
  function Added(s: SetState, text: string): (r: SetState)
    requires ValidState(s)
    ensures ValidState(r)
  {
    if text == "" || Find(s.messages, text) >= 0 then s
    else SetState(Insert(s.messages, Entry(text, NewMessage(text))), None, text)
  }

  /** What EraseMsg(text) leaves. */
  function Erased(s: SetState, text: string): (r: SetState)
    requires ValidState(s)
    ensures ValidState(r)
  {
    var i := Find(s.messages, text);
    if i < 0 then s
    else
      var M := RemoveAt(s.messages, i);
      if text == s.current && |M| > 0 then SetState(M, None, M[0].key)
      else SetState(M, None, s.current)
  }

  /** Where the cursor starts: -1 for the null cursor. */
  function Start(s: SetState): (p: int)
    requires ValidState(s)
    ensures -1 <= p < |s.messages|
  {
    if s.cursor.None? then -1 else Find(s.messages, s.cursor.value)
  }

  /** One cursor move: the null cursor goes to begin(), anything else
      forward, wrapping from end() to begin(). */
  function Step(n: nat, pos: int): (t: nat)
    requires n > 0 && -1 <= pos < n
    ensures t < n
  {
    if pos == -1 || pos + 1 == n then 0 else pos + 1
  }

  /** How many steps it takes the cursor to get from s to index i (1 to n). */
  function Dist(n: nat, s: int, i: int): (d: nat)
    requires -1 <= s < n && 0 <= i < n
    ensures 1 <= d <= n
  {
    if s == -1 then i + 1 else if i > s then i - s else i + n - s
  }

  datatype ScanResult = ScanResult(pos: int, found: bool)

  /** The cursor loop of GetNextRdsMessage: at most count steps, stopping
      at the first enabled message. */
  function Scan(M: seq<Entry>, pos: int, count: nat): (r: ScanResult)
    requires |M| > 0 && -1 <= pos < |M|
    decreases count
    ensures -1 <= r.pos < |M|
    ensures count > 0 ==> r.pos >= 0
    ensures r.found ==> r.pos >= 0 && M[r.pos].msg.enabled
  {
    if count == 0 then ScanResult(pos, false)
    else
      var t := Step(|M|, pos);
      if M[t].msg.enabled then ScanResult(t, true) else Scan(M, t, count - 1)
  }

  /** What GetMessage writes into the response: the text and the duration in
      milliseconds, as a wrapping uint32_t product. */
  function Info(m: Message): (r: RdsMsgInfo)
    ensures r.text == m.text
    ensures m.durationSec <= 4294967 ==> r.durationMilliSec == m.durationSec * 1000
  {
    RdsMsgInfo(m.text, ToU32(m.durationSec * 1000))
  }

  datatype NextResult = NextResult(state: SetState, response: RdsMsgInfo)

  /** What GetNextRdsMessage leaves: the moved cursor and the response. */
  function Next(s: SetState, Response: RdsMsgInfo): (r: NextResult)
    requires ValidState(s)
    ensures ValidState(r.state)
  {
    var M := s.messages;
    if |M| == 0 then NextResult(s, Response)
    else
      var sc := Scan(M, Start(s), |M|);
      NextResult(s.(cursor := Some(M[sc.pos].key)),
                 if sc.found then Info(M[sc.pos].msg) else Response)
  }

  /** What UpdateMsgText(prev, next) leaves, as written: AddMessage(next),
      Messages[next] = Messages[prev] (the whole message, its text included),
      erase(prev), and if prev was current, next becomes current and
      Messages[next] is touched, which re-creates a default message when next
      is prev.  An erase of the entry the cursor points at leaves the
      null cursor. */
  function Updated(s: SetState, prev: string, next: string): (r: SetState)
    requires ValidState(s)
    ensures ValidState(r)
  {
    if next == "" || Find(s.messages, prev) < 0 then s
    else
      var s1 := Added(s, next);
      var m := s.messages[Find(s.messages, prev)].msg;
      AddedLookup(s, next, prev);
      AddedLookup(s, next, next);
      var M3 := Rekeyed(s1.messages, prev, next, m);
      var it := if s1.cursor == Some(prev) then None else s1.cursor;
      assert it.Some? ==> Lookup(M3, it.value).Some? && Lookup(Touch(M3, next), it.value).Some? by {
        if it.Some? {
          RekeyLookup(s1.messages, prev, next, m, it.value);
          TouchLookup(M3, next, it.value);
        }
      }
      var current := if prev == s1.current then next else s1.current;
      SetState(if prev == s1.current then Touch(M3, next) else M3, it, current)
  }

  /** Messages[next] = m followed by erase(prev), for keys that are both
      present. */
  function Rekeyed(M: seq<Entry>, prev: string, next: string, m: Message): (r: seq<Entry>)
    requires Sorted(M) && Find(M, prev) >= 0 && Find(M, next) >= 0
    ensures Sorted(r)
  {
    var M2 := SetMsg(M, next, m);
    RemoveAt(M2, Find(M2, prev))
  }

  /** Rekeying: prev is gone, next holds the copy, and every other key keeps
      its message. */
  lemma RekeyLookup(M: seq<Entry>, prev: string, next: string, m: Message, k: string)
    requires Sorted(M) && Find(M, prev) >= 0 && Find(M, next) >= 0
    ensures Lookup(Rekeyed(M, prev, next, m), k) == if k == prev then None else if k == next then Some(m) else Lookup(M, k)
  {
    var M2 := SetMsg(M, next, m);
    SetMsgLookup(M, next, m, k);
    SetMsgLookup(M, next, m, prev);
    RemoveLookup(M2, Find(M2, prev), k);
  }

  /** Messages[k] used as a value: a missing key gets a default message. */
  function Touch(M: seq<Entry>, k: string): (r: seq<Entry>)
    requires Sorted(M)
    ensures Sorted(r)
  {
    if Find(M, k) >= 0 then M else Insert(M, Entry(k, DefaultMessage))
  }

  lemma TouchLookup(M: seq<Entry>, k: string, x: string)
    requires Sorted(M)
    ensures Lookup(Touch(M, k), x) == if x == k && Lookup(M, k).None? then Some(DefaultMessage) else Lookup(M, x)
  {
    if Find(M, k) < 0 {
      InsertLookup(M, Entry(k, DefaultMessage), x);
    }
  }

  /** AddMessage(text) adds text, with a fresh message, exactly when text is
      neither empty nor present; every other key keeps its message. */
  lemma AddedLookup(s: SetState, text: string, k: string)
    requires ValidState(s)
    ensures Lookup(Added(s, text).messages, k)
         == if text != "" && Lookup(s.messages, text).None? && k == text then Some(NewMessage(text)) else Lookup(s.messages, k)
  {
    if text != "" && Find(s.messages, text) < 0 {
      InsertLookup(s.messages, Entry(text, NewMessage(text)), k);
    }
  }


  /** A message after RestoreConfig: each member present in the config
      replaces the field. */
  function RestoredMessage(m: Message, cfg: MessageConfig): (r: Message)
    ensures r.text == (if cfg.message.Some? then cfg.message.value else m.text)
    ensures r.durationSec == (if cfg.durationSec.Some? then cfg.durationSec.value else m.durationSec)
    ensures r.enabled == (if cfg.enabled.Some? then cfg.enabled.value else m.enabled)
  {
    Message(if cfg.message.Some? then cfg.message.value else m.text,
            if cfg.durationSec.Some? then cfg.durationSec.value else m.durationSec,
            if cfg.enabled.Some? then cfg.enabled.value else m.enabled)
  }

  /** RestoreConfig for one list element: skipped without a name, with an
      empty name or with a name already present; otherwise added and then
      restored from the element. */
  function RestoreOne(s: SetState, cfg: MessageConfig): (r: SetState)
    requires ValidState(s)
    ensures ValidState(r)
  {
    if cfg.message.None? || cfg.message.value == "" || Find(s.messages, cfg.message.value) >= 0 then s
    else
      var name := cfg.message.value;
      SetState(Insert(s.messages, Entry(name, RestoredMessage(NewMessage(name), cfg))), None, name)
  }

  /** RestoreConfig over a whole list, element by element. */
  function RestoreAll(s: SetState, cfgs: seq<MessageConfig>): (r: SetState)
    requires ValidState(s)
    ensures ValidState(r)
    decreases |cfgs|
  {
    if |cfgs| == 0 then s else RestoreOne(RestoreAll(s, cfgs[..|cfgs| - 1]), cfgs[|cfgs| - 1])
  }

  /** What SaveConfig writes for one message. */
  function ConfigOf(m: Message): (c: MessageConfig)
    ensures c.message == Some(m.text) && c.durationSec == Some(m.durationSec) && c.enabled == Some(m.enabled)
  {
    MessageConfig(Some(m.text), Some(m.durationSec), Some(m.enabled))
  }

  /** The saved list: one element per message, in key order. */
  function Saved(M: seq<Entry>): (r: seq<MessageConfig>)
    ensures |r| == |M|
    ensures forall i :: 0 <= i < |M| ==> r[i] == ConfigOf(M[i].msg)
  {
    if |M| == 0 then [] else Saved(M[..|M| - 1]) + [ConfigOf(M[|M| - 1].msg)]
  }

  /** What ActivateMessage(name) leaves: name is added when missing, touched
      through operator[] (which creates a default message under the empty
      name, the one name AddMessage refuses) and made current. */
  function ActivatedMessage(s: SetState, name: string): (r: SetState)
    requires ValidState(s)
    ensures ValidState(r)
  {
    var s1 := Added(s, name);
    assert s1.cursor.Some? ==> Lookup(Touch(s1.messages, name), s1.cursor.value).Some? by {
      if s1.cursor.Some? {
        TouchLookup(s1.messages, name, s1.cursor.value);
      }
    }
    SetState(Touch(s1.messages, name), s1.cursor, name)
  }

  /** What Activate(activating) leaves: when activating a non-empty set,
      its first message is activated. */
  function Activated(s: SetState, activating: bool): (r: SetState)
    requires ValidState(s)
    ensures ValidState(r)
  {
    if activating && |s.messages| > 0 then ActivatedMessage(s, s.messages[0].key) else s
  }

  /** What AddControls leaves: once the UI exists, the first message of a
      non-empty set becomes current. */
  function ControlsAdded(s: SetState, hasControls: bool): (r: SetState)
    requires ValidState(s)
    ensures ValidState(r)
  {
    if hasControls && |s.messages| > 0 then s.(current := s.messages[0].key) else s
  }

  /** The counted cursor loop of GetNextRdsMessage: size() moves at most,
      stopping at the first enabled message. */
  method AdvanceCursor(Messages: seq<Entry>, start: int) returns (r: ScanResult)
    requires |Messages| > 0 && -1 <= start < |Messages|
    ensures r == Scan(Messages, start, |Messages|)
  {
    var pos := start;
    var count := |Messages|;
    var found := false;
    while 0 < count && !found
      invariant 0 <= count <= |Messages| && -1 <= pos < |Messages|
      invariant !found ==> Scan(Messages, pos, count) == Scan(Messages, start, |Messages|)
      invariant found ==> Scan(Messages, start, |Messages|) == ScanResult(pos, true)
      decreases count, !found
    {
      pos := Step(|Messages|, pos);
      if Messages[pos].msg.enabled {
        found := true;
      } else {
        count := count - 1;
      }
    }
    return ScanResult(pos, found);
  }

  // ---------------------------------------------------------------------
  // The set as an object
  // ---------------------------------------------------------------------

  class MessageSet {
    var Messages: seq<Entry>
    var MessagesIterator: Option<string>
    var CurrentMsgName: string
    var MsgSetName: string

    function State(): SetState
      reads this
    {
      SetState(Messages, MessagesIterator, CurrentMsgName)
    }

    predicate Valid()
      reads this
    {
      ValidState(State())
    }

    constructor (name: string)
      ensures Valid() && Messages == [] && MessagesIterator == None && CurrentMsgName == "" && MsgSetName == name
    {
      Messages := [];
      MessagesIterator := None;
      CurrentMsgName := "";
      MsgSetName := name;
    }

    method AddMessage(MsgText: string)
      requires Valid()
      modifies this
      ensures State() == Added(old(State()), MsgText) && MsgSetName == old(MsgSetName)
      ensures Valid()
    {
      if MsgText == "" {
        return;
      }
      if Find(Messages, MsgText) >= 0 {
        return;
      }
      Messages := Insert(Messages, Entry(MsgText, NewMessage(MsgText)));
      MessagesIterator := None;
      CurrentMsgName := MsgText;
    }

    method EraseMsg(MsgTxt: string)
      requires Valid()
      modifies this
      ensures State() == Erased(old(State()), MsgTxt) && MsgSetName == old(MsgSetName)
      ensures Valid()
    {
      var i := Find(Messages, MsgTxt);
      if i < 0 {
        return;
      }
      Messages := RemoveAt(Messages, i);
      MessagesIterator := None;
      if MsgTxt != CurrentMsgName {
        return;
      }
      if |Messages| == 0 {
        return;
      }
      CurrentMsgName := Messages[0].key;
    }

    method GetNextRdsMessage(Response: RdsMsgInfo) returns (Result: RdsMsgInfo)
      requires Valid()
      modifies this
      ensures Valid() && NextResult(State(), Result) == Next(old(State()), Response)
      ensures MsgSetName == old(MsgSetName)
    {
      Result := Response;
      if |Messages| == 0 {
        return;
      }
      var start := if MessagesIterator.None? then -1 else Find(Messages, MessagesIterator.value);
      var sc := AdvanceCursor(Messages, start);
      MessagesIterator := Some(Messages[sc.pos].key);
      if sc.found {
        Result := Info(Messages[sc.pos].msg);
      }
    }

    method UpdateMsgText(OriginalMessageText: string, NewMessageText: string)
      requires Valid()
      modifies this
      ensures State() == Updated(old(State()), OriginalMessageText, NewMessageText)
      ensures Valid()
      ensures MsgSetName == old(MsgSetName)
    {
      if NewMessageText == "" {
        return;
      }
      if Find(Messages, OriginalMessageText) < 0 {
        return;
      }
      ghost var s := State();
      var m := Messages[Find(Messages, OriginalMessageText)].msg;
      AddedLookup(s, NewMessageText, OriginalMessageText);
      AddedLookup(s, NewMessageText, NewMessageText);
      AddMessage(NewMessageText);
      // Messages[NewMessageText] = Messages[OriginalMessageText], then erase.
      var messages := Rekeyed(Messages, OriginalMessageText, NewMessageText, m);
      var cursor := if MessagesIterator == Some(OriginalMessageText) then None else MessagesIterator;
      var current := CurrentMsgName;
      if OriginalMessageText == current {
        current := NewMessageText;
        messages := Touch(messages, NewMessageText);
      }
      Messages, MessagesIterator, CurrentMsgName := messages, cursor, current;
    }

    method RestoreConfig(ListOfMessages: seq<MessageConfig>)
      requires Valid()
      modifies this
      ensures State() == RestoreAll(old(State()), ListOfMessages)
      ensures Valid()
      ensures MsgSetName == old(MsgSetName)
    {
      var i := 0;
      while i < |ListOfMessages|
        invariant 0 <= i <= |ListOfMessages|
        invariant Valid() && State() == RestoreAll(old(State()), ListOfMessages[..i])
        invariant MsgSetName == old(MsgSetName)
      {
        assert ListOfMessages[..i + 1][..i] == ListOfMessages[..i];
        RestoreMessage(ListOfMessages[i]);
        i := i + 1;
      }
      assert ListOfMessages[..i] == ListOfMessages;
    }

    /** One pass of RestoreConfig's loop. */
    method RestoreMessage(CurrentMessageConfig: MessageConfig)
      requires Valid()
      modifies this
      ensures State() == RestoreOne(old(State()), CurrentMessageConfig)
      ensures Valid()
      ensures MsgSetName == old(MsgSetName)
    {
      if CurrentMessageConfig.message.None? {
        return;
      }
      var MessageName := CurrentMessageConfig.message.value;
      if MessageName == "" {
        return;
      }
      if Find(Messages, MessageName) >= 0 {
        return;
      }
      ghost var M := Messages;
      AddMessage(MessageName);
      InsertThenSet(M, MessageName, RestoredMessage(NewMessage(MessageName), CurrentMessageConfig));
      var k := Find(Messages, MessageName);
      Messages := Messages[k := Entry(MessageName, RestoredMessage(Messages[k].msg, CurrentMessageConfig))];
    }

    method SaveConfig() returns (name: string, list: seq<MessageConfig>)
      ensures name == MsgSetName && list == Saved(Messages)
    {
      name := MsgSetName;
      list := [];
      var i := 0;
      while i < |Messages|
        invariant 0 <= i <= |Messages|
        invariant list == Saved(Messages[..i])
      {
        assert Messages[..i + 1][..i] == Messages[..i];
        list := list + [ConfigOf(Messages[i].msg)];
        i := i + 1;
      }
      assert Messages[..i] == Messages;
    }

    method ActivateMessage(MsgName: string)
      requires Valid()
      modifies this
      ensures State() == ActivatedMessage(old(State()), MsgName)
      ensures Valid()
      ensures MsgSetName == old(MsgSetName)
    {
      if Find(Messages, MsgName) < 0 {
        AddMessage(MsgName);
      }
      if Find(Messages, MsgName) < 0 {
        Messages := Insert(Messages, Entry(MsgName, DefaultMessage));
      }
      CurrentMsgName := MsgName;
    }

    method Activate(Activating: bool)
      requires Valid()
      modifies this
      ensures State() == Activated(old(State()), Activating)
      ensures Valid()
      ensures MsgSetName == old(MsgSetName)
    {
      if Activating && |Messages| > 0 {
        ActivateMessage(Messages[0].key);
      }
    }

    method AddControls(hasControls: bool)
      requires Valid()
      modifies this
      ensures State() == ControlsAdded(old(State()), hasControls)
      ensures Valid()
      ensures MsgSetName == old(MsgSetName)
    {
      if !hasControls {
        return;
      }
      if |Messages| == 0 {
        return;
      }
      CurrentMsgName := Messages[0].key;
    }
  }

  // ---------------------------------------------------------------------
  // Properties of the operations
  // ---------------------------------------------------------------------

  /** AddMessage ignores an empty text and a text already present; otherwise
      the text is added with a fresh message, the cursor is reset and the
      text becomes current. */
  lemma AddMessageEffect(s: SetState, text: string)
    requires ValidState(s)
    ensures text == "" || Lookup(s.messages, text).Some? ==> Added(s, text) == s
    ensures text != "" && Lookup(s.messages, text).None? ==>
      && Lookup(Added(s, text).messages, text) == Some(NewMessage(text))
      && |Added(s, text).messages| == |s.messages| + 1
      && Added(s, text).cursor == None && Added(s, text).current == text
  {
    AddedLookup(s, text, text);
  }

  /** EraseMsg of an absent key changes nothing; otherwise exactly that key
      goes, the cursor is reset, and if it was the current message while
      others remain, the first (least) remaining key becomes current. */
  lemma EraseMsgEffect(s: SetState, text: string, k: string)
    requires ValidState(s)
    ensures Lookup(s.messages, text).None? ==> Erased(s, text) == s
    ensures Lookup(s.messages, text).Some? ==>
      var r := Erased(s, text);
      && Lookup(r.messages, k) == (if k == text then None else Lookup(s.messages, k))
      && r.cursor == None
      && (text == s.current && |r.messages| > 0 ==>
            r.current == r.messages[0].key && forall i :: 0 < i < |r.messages| ==> StrLess(r.current, r.messages[i].key))
      && (text != s.current || |r.messages| == 0 ==> r.current == s.current)
  {
    if Find(s.messages, text) >= 0 {
      RemoveLookup(s.messages, Find(s.messages, text), k);
    }
  }

  /** Each cursor move gets one step closer to every other index. */
  lemma DistStep(n: nat, s: int, i: int)
    requires n > 0 && -1 <= s < n && 0 <= i < n
    ensures i == Step(n, s) ==> Dist(n, s, i) == 1
    ensures i != Step(n, s) ==> Dist(n, Step(n, s), i) == Dist(n, s, i) - 1
  {
  }

  /** The cursor loop stops at the first enabled message in cyclic order from
      the start, within count moves; when it finds none, none of the messages
      it passed is enabled. */
  lemma {:induction false} ScanFirstEnabled(M: seq<Entry>, s: int, count: nat)
    requires |M| > 0 && -1 <= s < |M|
    ensures var r := Scan(M, s, count);
      && (r.found ==> 0 <= r.pos && Dist(|M|, s, r.pos) <= count
                      && forall i :: 0 <= i < |M| && Dist(|M|, s, i) < Dist(|M|, s, r.pos) ==> !M[i].msg.enabled)
      && (!r.found ==> forall i :: 0 <= i < |M| && Dist(|M|, s, i) <= count ==> !M[i].msg.enabled)
    decreases count
  {
    if count > 0 {
      var t := Step(|M|, s);
      DistStep(|M|, s, t);
      if !M[t].msg.enabled {
        ScanFirstEnabled(M, t, count - 1);
        forall i | 0 <= i < |M|
          ensures Dist(|M|, t, i) == (if i == t then |M| else Dist(|M|, s, i) - 1)
        {
          DistStep(|M|, s, i);
        }
      }
    }
  }

  /** GetNextRdsMessage: with no message, or no enabled one, the response is
      left as it was; otherwise the cursor lands on an enabled message whose
      text and duration are returned, and every message between the old
      cursor and it, in key order wrapping at the end, is disabled. */
  lemma NextRdsMessageChoice(s: SetState, Response: RdsMsgInfo)
    requires ValidState(s)
    ensures var r := Next(s, Response);
      && (|s.messages| == 0 ==> r == NextResult(s, Response))
      && ((forall i :: 0 <= i < |s.messages| ==> !s.messages[i].msg.enabled) ==> r.response == Response)
      && (|s.messages| > 0 ==>
            r.state.messages == s.messages && r.state.current == s.current && r.state.cursor.Some?
            && var p := Find(s.messages, r.state.cursor.value);
               0 <= p && (forall i :: 0 <= i < |s.messages| && Dist(|s.messages|, Start(s), i) < Dist(|s.messages|, Start(s), p) ==> !s.messages[i].msg.enabled)
               && (s.messages[p].msg.enabled <==> exists i :: 0 <= i < |s.messages| && s.messages[i].msg.enabled)
               && (s.messages[p].msg.enabled ==> r.response == Info(s.messages[p].msg)))
  {
    var M := s.messages;
    if |M| > 0 {
      var sc := Scan(M, Start(s), |M|);
      ScanFirstEnabled(M, Start(s), |M|);
      FindSorted(M, sc.pos);
    }
  }

  /** A successful UpdateMsgText to a different text moves the message from
      the old key to the new one; the new key becomes current when the old
      one was current, and also whenever the new key had to be added. */
  lemma UpdateMsgTextRekeys(s: SetState, prev: string, next: string, k: string)
    requires ValidState(s) && next != "" && next != prev && Lookup(s.messages, prev).Some?
    ensures var r := Updated(s, prev, next);
      && Lookup(r.messages, k) == (if k == prev then None else if k == next then Lookup(s.messages, prev) else Lookup(s.messages, k))
      && (prev == s.current || Lookup(s.messages, next).None? ==> r.current == next)
  {
    var s1 := Added(s, next);
    var m := s.messages[Find(s.messages, prev)].msg;
    AddedLookup(s, next, prev);
    AddedLookup(s, next, next);
    AddedLookup(s, next, k);
    RekeyLookup(s1.messages, prev, next, m, k);
    TouchLookup(Rekeyed(s1.messages, prev, next, m), next, k);
    RekeyLookup(s1.messages, prev, next, m, next);
  }

  /** UpdateMsgText to the same text erases the entry; when it was the
      current message, the touch of Messages[next] puts back a default
      message with an empty text. */
  lemma UpdateMsgTextSameText(s: SetState, t: string)
    requires ValidState(s) && t != "" && Lookup(s.messages, t).Some?
    ensures var r := Updated(s, t, t);
      && (t != s.current ==> Lookup(r.messages, t) == None)
      && (t == s.current ==> Lookup(r.messages, t) == Some(DefaultMessage) && r.current == t)
  {
    var s1 := Added(s, t);
    var m := s.messages[Find(s.messages, t)].msg;
    RekeyLookup(s1.messages, t, t, m, t);
    TouchLookup(Rekeyed(s1.messages, t, t, m), t, t);
  }

  /** Every message's text is its key, as AddMessage and RestoreConfig
      create them. */
  ghost predicate TextsMatchKeys(M: seq<Entry>)
  {
    forall k :: Lookup(M, k).Some? ==> Lookup(M, k).value.text == k
  }

  /** As written, UpdateMsgText("a", "b") on the set {"a"} stores the old
      text "a" under key "b": the broadcast text does not change, and the
      text no longer matches its key. */
  lemma UpdateMsgTextKeepsOldText()
    ensures var s := SetState([Entry("a", NewMessage("a"))], None, "a");
      && ValidState(s) && TextsMatchKeys(s.messages)
      && Updated(s, "a", "b").messages == [Entry("b", NewMessage("a"))]
      && !TextsMatchKeys(Updated(s, "a", "b").messages)
  {
    var s := SetState([Entry("a", NewMessage("a"))], None, "a");
    assert StrLess("a", "b");
    var s1 := Added(s, "b");
    assert s1.messages == [Entry("a", NewMessage("a")), Entry("b", NewMessage("b"))] by {
      assert InsertPos(s.messages, "b") == 1;
    }
    assert Find(s1.messages, "b") == 1 && Find(s1.messages, "a") == 0;
    assert SetMsg(s1.messages, "b", NewMessage("a")) == [Entry("a", NewMessage("a")), Entry("b", NewMessage("a"))];
    var r := Updated(s, "a", "b");
    assert r.messages == [Entry("b", NewMessage("a"))];
    assert Lookup(r.messages, "b") == Some(NewMessage("a"));
    assert TextsMatchKeys(s.messages) by {
      forall k | Lookup(s.messages, k).Some?
        ensures Lookup(s.messages, k).value.text == k
      {
      }
    }
  }

  /** ... and saving that set and restoring it brings back key "a". */
  lemma UpdateMsgTextSaveRestore()
    ensures RestoreAll(SetState([], None, ""), Saved([Entry("b", NewMessage("a"))])).messages == [Entry("a", NewMessage("a"))]
  {
    var saved := Saved([Entry("b", NewMessage("a"))]);
    assert saved == [ConfigOf(NewMessage("a"))];
    assert saved[..0] == [];
  }

  /** UpdateMsgText as evidently intended: the entry moves to the new key and
      its text becomes the new text; renaming to the same text changes
      nothing. */
  function UpdatedIntended(s: SetState, prev: string, next: string): (r: SetState)
    requires ValidState(s)
    ensures ValidState(r)
  {
    if next == "" || next == prev || Find(s.messages, prev) < 0 then s
    else
      var s1 := Added(s, next);
      var m := s.messages[Find(s.messages, prev)].msg.(text := next);
      AddedLookup(s, next, prev);
      AddedLookup(s, next, next);
      var M3 := Rekeyed(s1.messages, prev, next, m);
      var it := if s1.cursor == Some(prev) then None else s1.cursor;
      assert it.Some? ==> Lookup(M3, it.value).Some? by {
        if it.Some? {
          RekeyLookup(s1.messages, prev, next, m, it.value);
        }
      }
      SetState(M3, it, if prev == s1.current then next else s1.current)
  }

  /** The intended UpdateMsgText re-keys the message, which then carries the
      new text, and keeps every message's text equal to its key. */
  lemma UpdateMsgTextIntended(s: SetState, prev: string, next: string)
    requires ValidState(s) && TextsMatchKeys(s.messages)
    ensures TextsMatchKeys(UpdatedIntended(s, prev, next).messages)
    ensures next != "" && next != prev && Lookup(s.messages, prev).Some? ==>
      && Lookup(UpdatedIntended(s, prev, next).messages, prev) == None
      && Lookup(UpdatedIntended(s, prev, next).messages, next) == Some(Lookup(s.messages, prev).value.(text := next))
  {
    if next != "" && next != prev && Find(s.messages, prev) >= 0 {
      var s1 := Added(s, next);
      var m := s.messages[Find(s.messages, prev)].msg.(text := next);
      var r := UpdatedIntended(s, prev, next);
      forall k | Lookup(r.messages, k).Some?
        ensures Lookup(r.messages, k).value.text == k
      {
        AddedLookup(s, next, k);
        AddedLookup(s, next, prev);
        AddedLookup(s, next, next);
        RekeyLookup(s1.messages, prev, next, m, k);
      }
      AddedLookup(s, next, prev);
      AddedLookup(s, next, next);
      RekeyLookup(s1.messages, prev, next, m, prev);
      RekeyLookup(s1.messages, prev, next, m, next);
    }
  }

  /** AddMessage and EraseMsg keep every message's text equal to its key. */
  lemma AddEraseKeepTexts(s: SetState, text: string)
    requires ValidState(s) && TextsMatchKeys(s.messages)
    ensures TextsMatchKeys(Added(s, text).messages)
    ensures TextsMatchKeys(Erased(s, text).messages)
  {
    forall k | Lookup(Added(s, text).messages, k).Some?
      ensures Lookup(Added(s, text).messages, k).value.text == k
    {
      AddedLookup(s, text, k);
    }
    forall k | Lookup(Erased(s, text).messages, k).Some?
      ensures Lookup(Erased(s, text).messages, k).value.text == k
    {
      EraseMsgEffect(s, text, k);
    }
  }

  /** One RestoreConfig element: skipped when unnamed, empty or already
      present; otherwise its name is added with the restored message, the
      cursor is reset and the name becomes current. */
  lemma RestoreOneEffect(s: SetState, cfg: MessageConfig, k: string)
    requires ValidState(s)
    ensures cfg.message.None? || cfg.message.value == "" || Lookup(s.messages, cfg.message.value).Some? ==> RestoreOne(s, cfg) == s
    ensures cfg.message.Some? && cfg.message.value != "" && Lookup(s.messages, cfg.message.value).None? ==>
      var name := cfg.message.value;
      && Lookup(RestoreOne(s, cfg).messages, k) == (if k == name then Some(RestoredMessage(NewMessage(name), cfg)) else Lookup(s.messages, k))
      && RestoreOne(s, cfg).cursor == None && RestoreOne(s, cfg).current == name
  {
    if cfg.message.Some? && cfg.message.value != "" && Find(s.messages, cfg.message.value) < 0 {
      var name := cfg.message.value;
      InsertLookup(s.messages, Entry(name, RestoredMessage(NewMessage(name), cfg)), k);
    }
  }

  /** RestoreConfig never changes a message that was already there. */
  lemma {:induction false} RestoreAllKeeps(s: SetState, cfgs: seq<MessageConfig>, k: string)
    requires ValidState(s) && Lookup(s.messages, k).Some?
    ensures Lookup(RestoreAll(s, cfgs).messages, k) == Lookup(s.messages, k)
    decreases |cfgs|
  {
    if |cfgs| > 0 {
      var before := RestoreAll(s, cfgs[..|cfgs| - 1]);
      RestoreAllKeeps(s, cfgs[..|cfgs| - 1], k);
      RestoreOneEffect(before, cfgs[|cfgs| - 1], k);
    }
  }

  /** RestoreConfig keeps every message's text equal to its key. */
  lemma {:induction false} RestoreAllKeepsTexts(s: SetState, cfgs: seq<MessageConfig>)
    requires ValidState(s) && TextsMatchKeys(s.messages)
    ensures TextsMatchKeys(RestoreAll(s, cfgs).messages)
    decreases |cfgs|
  {
    if |cfgs| > 0 {
      var before := RestoreAll(s, cfgs[..|cfgs| - 1]);
      RestoreAllKeepsTexts(s, cfgs[..|cfgs| - 1]);
      var last := cfgs[|cfgs| - 1];
      var after := RestoreOne(before, last).messages;
      forall k | Lookup(after, k).Some?
        ensures Lookup(after, k).value.text == k
      {
        RestoreOneEffect(before, last, k);
      }
    }
  }

  /** Restoring a saved set into an empty one gives back the same messages,
      when every text is its key and no key is empty. */
  lemma {:induction false} SaveRestoreRoundTrip(M: seq<Entry>)
    requires Sorted(M) && TextsMatchKeys(M)
    requires forall i :: 0 <= i < |M| ==> M[i].key != ""
    ensures RestoreAll(SetState([], None, ""), Saved(M)).messages == M
    decreases |M|
  {
    if |M| > 0 {
      var n := |M|;
      var P := M[..n - 1];
      var e := M[n - 1];
      LastEntry(M);
      SaveRestoreRoundTrip(P);
      assert Saved(M)[..n - 1] == Saved(P);
      assert RestoredMessage(NewMessage(e.key), ConfigOf(e.msg)) == e.msg;
      SplitLast(M);
    }
  }

  lemma SplitLast<T>(s: seq<T>)
    requires |s| > 0
    ensures s == s[..|s| - 1] + [s[|s| - 1]]
  {
  }

  /** The entries before the last one keep the round trip's requirements,
      and the last one goes at the end of them. */
  lemma LastEntry(M: seq<Entry>)
    requires |M| > 0 && Sorted(M) && TextsMatchKeys(M)
    requires forall i :: 0 <= i < |M| ==> M[i].key != ""
    ensures var P := M[..|M| - 1]; var e := M[|M| - 1];
      && Sorted(P) && TextsMatchKeys(P) && (forall i :: 0 <= i < |P| ==> P[i].key != "")
      && e.msg.text == e.key && Find(P, e.key) < 0 && InsertPos(P, e.key) == |P|
  {
    var n := |M|;
    var P := M[..n - 1];
    var e := M[n - 1];
    assert TextsMatchKeys(P) by {
      forall k | Lookup(P, k).Some?
        ensures Lookup(P, k).value.text == k
      {
        var j := Find(P, k);
        FindSorted(M, j);
        assert Lookup(M, k) == Some(M[j].msg);
      }
    }
    FindSorted(M, n - 1);
    assert Lookup(M, e.key) == Some(e.msg);
    StrLessIrreflexive(e.key);
  }

  /** ActivateMessage makes the name current and present, adding it (or,
      for the empty name, a default message) when missing; a present name
      leaves the messages and the cursor alone. */
  lemma ActivateMessageEffect(s: SetState, name: string)
    requires ValidState(s)
    ensures ActivatedMessage(s, name).current == name
    ensures Lookup(ActivatedMessage(s, name).messages, name).Some?
    ensures Lookup(s.messages, name).Some? ==> ActivatedMessage(s, name) == s.(current := name)
    ensures name == "" && Lookup(s.messages, name).None? ==> Lookup(ActivatedMessage(s, name).messages, name) == Some(DefaultMessage)
    ensures name != "" && Lookup(s.messages, name).None? ==> Lookup(ActivatedMessage(s, name).messages, name) == Some(NewMessage(name))
  {
    AddedLookup(s, name, name);
    TouchLookup(Added(s, name).messages, name, name);
  }

  /** Activating a non-empty set, and adding its controls, selects the first
      (least) key; nothing else changes. */
  lemma ActivateSelectsFirst(s: SetState, activating: bool, hasControls: bool)
    requires ValidState(s)
    ensures activating && |s.messages| > 0 ==> Activated(s, activating) == s.(current := s.messages[0].key)
    ensures !activating || |s.messages| == 0 ==> Activated(s, activating) == s
    ensures hasControls && |s.messages| > 0 ==> ControlsAdded(s, hasControls) == s.(current := s.messages[0].key)
    ensures |s.messages| > 0 ==> forall i :: 0 < i < |s.messages| ==> StrLess(s.messages[0].key, s.messages[i].key)
  {
    if |s.messages| > 0 {
      FindSorted(s.messages, 0);
      ActivateMessageEffect(s, s.messages[0].key);
    }
  }
}
