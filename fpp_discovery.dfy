// FPP (Falcon Player) multisync discovery: the handler for UDP packets from
// an FPP master, its packet counters and current sequence file name, the
// ping packet it answers with, the path parsing of its web GET handler and
// the reaction to network state changes.  A received datagram is modelled by
// the fields the handler reads through its packet structs; the UDP socket,
// the clock and the user callback are parameters and results.
module FPPDiscovery {
  import opened Ints
  import opened ArduinoString

  const SYNC_PKT_START: uint8 := 0
  const SYNC_PKT_STOP: uint8 := 1
  const SYNC_PKT_SYNC: uint8 := 2
  const SYNC_PKT_OPEN: uint8 := 3

  const SYNC_FILE_SEQ: uint8 := 0
  const SYNC_FILE_MEDIA: uint8 := 1

  const CTRL_PKT_CMD: uint8 := 0
  const CTRL_PKT_SYNC: uint8 := 1
  const CTRL_PKT_EVENT: uint8 := 2
  const CTRL_PKT_BLANK: uint8 := 3
  const CTRL_PKT_PING: uint8 := 4
  const CTRL_PKT_PLUGIN: uint8 := 5
  const CTRL_PKT_FPPCOMMAND: uint8 := 6

  const FPP_TYPE_ID: uint8 := 0xC3
  const FPP_DISCOVERY_PORT: uint16 := 32320
  const VersionStr: string := "1.1.0"
  const VariantName: string := "PixelRadio"

  /** The multisync counters; every counter is a wrapping uint32_t. */
  datatype Stats = Stats(
    lastReceiveTime: int,
    pktCommand: uint32,
    pktSyncSeqOpen: uint32, pktSyncSeqStart: uint32, pktSyncSeqStop: uint32, pktSyncSeqSync: uint32,
    pktSyncMedOpen: uint32, pktSyncMedStart: uint32, pktSyncMedStop: uint32, pktSyncMedSync: uint32,
    pktBlank: uint32, pktPing: uint32, pktPlugin: uint32, pktFPPCommand: uint32, pktError: uint32)

  const ZeroStats: Stats := Stats(0, 0, 0, 0, 0, 0, 0, 0, 0, 0, 0, 0, 0, 0, 0)

  function Inc(x: uint32): (r: uint32)
    ensures x < UINT32_MAX ==> r == x + 1
    ensures x == UINT32_MAX ==> r == 0
  {
    AddU32(x, 1)
  }

  /** A received datagram, as the handler reads it. */
  datatype RxPacket = RxPacket(
    header: string,
    packetType: uint8,
    syncAction: uint8,
    syncType: uint8,
    fileName: string,
    pingSubtype: uint8,
    toGroup: bool,
    remoteIp: uint32)

  predicate HeaderOk(header: string)
  {
    |header| >= 4 && header[0] == 'F' && header[1] == 'P' && header[2] == 'P' && header[3] == 'D'
  }

  /** Where a ping answer goes: nowhere, to everybody, or to one address. */
  datatype Reply = NoReply | PingAll | PingTo(ip: uint32)

  /** The state the handlers change. */
  datatype Discovery = Discovery(stats: Stats, fileName: string, remoteIp: uint32)

  /** What handling a packet leaves, answers and passes to the callback. */
  datatype Outcome = Outcome(next: Discovery, reply: Reply, notified: Option<string>)

  /** ProcessSyncPacket: the file name is taken over (and cleared by STOP),
      the action's counter is incremented. */
  function Synced(d: Discovery, action: uint8, fileName: string): (r: Discovery)
  {
    var s := d.stats;
    if action == SYNC_PKT_START then Discovery(s.(pktSyncSeqStart := Inc(s.pktSyncSeqStart)), fileName, d.remoteIp)
    else if action == SYNC_PKT_STOP then Discovery(s.(pktSyncSeqStop := Inc(s.pktSyncSeqStop)), "", d.remoteIp)
    else if action == SYNC_PKT_SYNC then Discovery(s.(pktSyncSeqSync := Inc(s.pktSyncSeqSync)), fileName, d.remoteIp)
    else if action == SYNC_PKT_OPEN then Discovery(s.(pktSyncSeqOpen := Inc(s.pktSyncSeqOpen)), fileName, d.remoteIp)
    else Discovery(s, fileName, d.remoteIp)
  }

  /** ProcessReceivedUdpPacket. */
  function Received(d: Discovery, p: RxPacket, now: int): (r: Outcome)
  {
    if !HeaderOk(p.header) then Outcome(d.(stats := d.stats.(pktError := Inc(d.stats.pktError))), NoReply, None)
    else
      var s := d.stats.(lastReceiveTime := now);
      var d1 := d.(stats := s);
      if p.packetType == CTRL_PKT_CMD then Outcome(d1.(stats := s.(pktCommand := Inc(s.pktCommand))), NoReply, None)
      else if p.packetType == CTRL_PKT_SYNC then
        if p.syncType == SYNC_FILE_SEQ then
          var d2 := Synced(d1.(remoteIp := p.remoteIp), p.syncAction, p.fileName);
          Outcome(d2, NoReply, Some(d2.fileName))
        else Outcome(d1, NoReply, None)
      else if p.packetType == CTRL_PKT_BLANK then Outcome(Discovery(s.(pktBlank := Inc(s.pktBlank)), "", d.remoteIp), NoReply, None)
      else if p.packetType == CTRL_PKT_PING then
        var d2 := d1.(stats := s.(pktPing := Inc(s.pktPing)));
        if p.pingSubtype != 1 then Outcome(d2, NoReply, None)
        else if p.toGroup then Outcome(d2, PingAll, None)
        else Outcome(d2, PingTo(p.remoteIp), None)
      else if p.packetType == CTRL_PKT_PLUGIN then Outcome(d1.(stats := s.(pktPlugin := Inc(s.pktPlugin))), NoReply, None)
      else if p.packetType == CTRL_PKT_FPPCOMMAND then Outcome(d1.(stats := s.(pktFPPCommand := Inc(s.pktFPPCommand))), NoReply, None)
      else Outcome(d1, NoReply, None)
  }

  // ---------------------------------------------------------------------
  // The ping packet
  // ---------------------------------------------------------------------

  /** The fields of an FPP ping packet as sendPingPacket fills them; the
      16-bit fields hold the value whose in-memory (little-endian) bytes go
      on the wire. */
  datatype PingPacket = PingPacket(
    header: string, packetType: uint8, dataLen: uint16,
    pingVersion: uint8, pingSubtype: uint8, pingHardware: uint8,
    versionMajor: uint16, versionMinor: uint16, operatingMode: uint8,
    ipAddress: seq<uint8>, hostName: string, version: string, hardwareType: string)

  /** `(v >> 8) + ((v & 0xFF) << 8)`: the two bytes swapped. */
  function SwapBytes(v: uint16): (r: uint16)
    ensures LowByte(r) == HighByte(v) && HighByte(r) == LowByte(v)
  {
    v / 0x100 + (v % 0x100) * 0x100
  }

  /** The four in-memory bytes of a uint32_t, lowest first. */
  function BytesLE(x: uint32): (r: seq<uint8>)
    ensures |r| == 4
  {
    [x % 0x100, (x / 0x100) % 0x100, (x / 0x1_0000) % 0x100, x / 0x100_0000]
  }

  function FromBytesLE(b: seq<uint8>): int
    requires |b| == 4
  {
    b[0] as int + b[1] as int * 0x100 + b[2] as int * 0x1_0000 + b[3] as int * 0x100_0000
  }

  function PingFor(localIp: uint32, hostName: string): (p: PingPacket)
  {
    PingPacket("FPPD", 0x04, 294, 0x3, 0x0, FPP_TYPE_ID,
               SwapBytes(ToU16(ToInt(VersionStr))), SwapBytes(ToU16(ToInt(VersionStr[2..]))), 0x08,
               BytesLE(localIp), hostName, VersionStr, VariantName)
  }

  // ---------------------------------------------------------------------
  // The GET handler's path
  // ---------------------------------------------------------------------

  const SequencePrefix: string := "/api/sequence/"
  const MetaSuffix: string := "/meta"

  /** The answer to a GET: the status, and for 200 the sequence whose
      metadata is sent. */
  datatype GetResponse = GetResponse(status: int, sequence: Option<string>)

  function ProcessGET(path: Option<string>): (r: GetResponse)
  {
    if path.None? then GetResponse(404, None)
    else
      var p := path.value;
      if StartsWith(p, SequencePrefix) then
        var s := p[|SequencePrefix|..];
        if EndsWith(s, MetaSuffix) then GetResponse(200, Some(s[..|s| - |MetaSuffix|]))
        else GetResponse(404, None)
      else GetResponse(404, None)
  }

  // ---------------------------------------------------------------------
  // The discovery object
  // ---------------------------------------------------------------------

  class Discoverer {
    var MultiSyncStats: Stats
    var CurrentFileName: string
    var FppRemoteIp: uint32
    var OldNetworkState: bool

    function State(): Discovery
      reads this
    {
      Discovery(MultiSyncStats, CurrentFileName, FppRemoteIp)
    }

    constructor()
      ensures State() == Discovery(ZeroStats, "", 0) && !OldNetworkState
    {
      MultiSyncStats := ZeroStats;
      CurrentFileName := "";
      FppRemoteIp := 0;
      OldNetworkState := false;
    }

    /** The callback receives the resulting file name. */
    method ProcessSyncPacket(action: uint8, FileName: string) returns (notified: string)
      modifies this
      ensures State() == Synced(old(State()), action, FileName)
      ensures notified == CurrentFileName
      ensures OldNetworkState == old(OldNetworkState)
    {
      CurrentFileName := FileName;
      if action == SYNC_PKT_START {
        MultiSyncStats := MultiSyncStats.(pktSyncSeqStart := Inc(MultiSyncStats.pktSyncSeqStart));
      } else if action == SYNC_PKT_STOP {
        CurrentFileName := "";
        MultiSyncStats := MultiSyncStats.(pktSyncSeqStop := Inc(MultiSyncStats.pktSyncSeqStop));
      } else if action == SYNC_PKT_SYNC {
        MultiSyncStats := MultiSyncStats.(pktSyncSeqSync := Inc(MultiSyncStats.pktSyncSeqSync));
      } else if action == SYNC_PKT_OPEN {
        MultiSyncStats := MultiSyncStats.(pktSyncSeqOpen := Inc(MultiSyncStats.pktSyncSeqOpen));
      }
      notified := CurrentFileName;
    }

    method ProcessReceivedUdpPacket(p: RxPacket, now: int) returns (reply: Reply, notified: Option<string>)
      modifies this
      ensures Outcome(State(), reply, notified) == Received(old(State()), p, now)
      ensures OldNetworkState == old(OldNetworkState)
    {
      reply, notified := NoReply, None;
      if !HeaderOk(p.header) {
        MultiSyncStats := MultiSyncStats.(pktError := Inc(MultiSyncStats.pktError));
        return;
      }
      MultiSyncStats := MultiSyncStats.(lastReceiveTime := now);
      if p.packetType == CTRL_PKT_CMD {
        MultiSyncStats := MultiSyncStats.(pktCommand := Inc(MultiSyncStats.pktCommand));
      } else if p.packetType == CTRL_PKT_SYNC {
        if p.syncType == SYNC_FILE_SEQ {
          FppRemoteIp := p.remoteIp;
          var name := ProcessSyncPacket(p.syncAction, p.fileName);
          notified := Some(name);
        }
      } else if p.packetType == CTRL_PKT_BLANK {
        MultiSyncStats := MultiSyncStats.(pktBlank := Inc(MultiSyncStats.pktBlank));
        CurrentFileName := "";
      } else if p.packetType == CTRL_PKT_PING {
        MultiSyncStats := MultiSyncStats.(pktPing := Inc(MultiSyncStats.pktPing));
        if p.pingSubtype == 1 {
          reply := if p.toGroup then PingAll else PingTo(p.remoteIp);
        }
      } else if p.packetType == CTRL_PKT_PLUGIN {
        MultiSyncStats := MultiSyncStats.(pktPlugin := Inc(MultiSyncStats.pktPlugin));
      } else if p.packetType == CTRL_PKT_FPPCOMMAND {
        MultiSyncStats := MultiSyncStats.(pktFPPCommand := Inc(MultiSyncStats.pktFPPCommand));
      }
    }

    /** NetworkStateChanged: only a change of state acts; on a change to
        connected the broadcast and multicast listens are tried and, when
        both succeed, a ping goes out. */
    method NetworkStateChanged(NewNetworkState: bool, listenOk: bool, multicastOk: bool) returns (pinged: bool)
      modifies this
      ensures OldNetworkState == NewNetworkState
      ensures pinged <==> old(OldNetworkState) != NewNetworkState && NewNetworkState && listenOk && multicastOk
      ensures State() == old(State())
    {
      pinged := false;
      if OldNetworkState == NewNetworkState {
        return;
      }
      OldNetworkState := NewNetworkState;
      if !NewNetworkState {
        return;
      }
      if !listenOk {
        return;
      }
      if !multicastOk {
        return;
      }
      pinged := true;
    }
  }

  // ---------------------------------------------------------------------
  // Properties
  // ---------------------------------------------------------------------

  /** A packet without the "FPPD" header only counts an error. */
  lemma BadHeaderCountsError(d: Discovery, p: RxPacket, now: int)
    requires !HeaderOk(p.header)
    ensures Received(d, p, now) == Outcome(d.(stats := d.stats.(pktError := Inc(d.stats.pktError))), NoReply, None)
  {
  }

  /** CMD, PING, PLUGIN and FPPCOMMAND packets each increment their own
      counter and nothing else; BLANK also clears the file name. */
  lemma PacketCounters(d: Discovery, p: RxPacket, now: int)
    requires HeaderOk(p.header)
    ensures var r := Received(d, p, now).next; var s := d.stats.(lastReceiveTime := now);
      && (p.packetType == CTRL_PKT_CMD ==> r == d.(stats := s.(pktCommand := Inc(s.pktCommand))))
      && (p.packetType == CTRL_PKT_PING ==> r == d.(stats := s.(pktPing := Inc(s.pktPing))))
      && (p.packetType == CTRL_PKT_PLUGIN ==> r == d.(stats := s.(pktPlugin := Inc(s.pktPlugin))))
      && (p.packetType == CTRL_PKT_FPPCOMMAND ==> r == d.(stats := s.(pktFPPCommand := Inc(s.pktFPPCommand))))
      && (p.packetType == CTRL_PKT_BLANK ==> r == Discovery(s.(pktBlank := Inc(s.pktBlank)), "", d.remoteIp))
      && (p.packetType == CTRL_PKT_EVENT || p.packetType > CTRL_PKT_FPPCOMMAND ==> r == d.(stats := s))
  {
  }

  /** The callback is called exactly for sequence sync packets, and it gets
      the file name the packet leaves: cleared by STOP, the packet's name
      otherwise. */
  lemma SyncNotifies(d: Discovery, p: RxPacket, now: int)
    ensures var o := Received(d, p, now);
      && (o.notified.Some? <==> HeaderOk(p.header) && p.packetType == CTRL_PKT_SYNC && p.syncType == SYNC_FILE_SEQ)
      && (o.notified.Some? ==> o.notified.value == o.next.fileName)
      && (o.notified.Some? ==> o.next.fileName == if p.syncAction == SYNC_PKT_STOP then "" else p.fileName)
  {
  }

  /** Media sync packets change nothing but the receive time. */
  lemma MediaSyncIgnored(d: Discovery, p: RxPacket, now: int)
    requires HeaderOk(p.header) && p.packetType == CTRL_PKT_SYNC && p.syncType != SYNC_FILE_SEQ
    ensures Received(d, p, now) == Outcome(d.(stats := d.stats.(lastReceiveTime := now)), NoReply, None)
  {
  }

  /** Only a discover ping (subtype 1) is answered: to everybody when it
      came to a group address, otherwise to its sender. */
  lemma PingAnswers(d: Discovery, p: RxPacket, now: int)
    ensures Received(d, p, now).reply != NoReply <==> HeaderOk(p.header) && p.packetType == CTRL_PKT_PING && p.pingSubtype == 1
    ensures Received(d, p, now).reply.PingTo? ==> Received(d, p, now).reply.ip == p.remoteIp && !p.toGroup
  {
  }

  /** Swapping the bytes twice gives the value back. */
  lemma SwapBytesInvolution(v: uint16)
    ensures SwapBytes(SwapBytes(v)) == v
  {
  }

  lemma {:induction false} BytesLERoundTrip(x: uint32)
    ensures FromBytesLE(BytesLE(x)) == x
  {
    var b0, q0 := x % 0x100, x / 0x100;
    var b1, q1 := q0 % 0x100, q0 / 0x100;
    var b2, b3 := q1 % 0x100, q1 / 0x100;
    assert x / 0x1_0000 == q1;
    assert x / 0x100_0000 == b3;
    assert x == b0 + 0x100 * (b1 + 0x100 * (b2 + 0x100 * b3));
  }

  /** atoi of a digit followed by a non-digit is that digit's value. */
  lemma OneDigitValue(s: string)
    requires |s| >= 2 && IsDigit(s[0]) && !IsDigit(s[1])
    ensures ToInt(s) == DigitValue(s[0])
  {
    assert TrimStart(s) == s by {
      assert !IsSpace(s[0]);
    }
    assert SkipHexPrefix(s, 10) == s;
    assert DigitRun(s, 10) == 1 by {
      assert DigitRun(s[1..], 10) == 0 by {
        assert s[1..][0] == s[1];
      }
    }
    assert DigitsValue(s[..1], 10) == DigitValue(s[0]) by {
      assert s[..1][..0] == [];
    }
  }

  /** atoi of the version string and of its tail from index 2. */
  lemma VersionNumbers()
    ensures ToInt(VersionStr) == 1 && ToInt(VersionStr[2..]) == 1
  {
    OneDigitValue(VersionStr);
    var t := VersionStr[2..];
    assert t[0] == '1' && t[1] == '.';
    OneDigitValue(t);
  }

  /** The ping packet's fixed fields, its version words (version 1.1: the
      in-memory bytes of each word are 0 then 1, the big-endian encoding of
      1) and the local address in its four bytes. */
  lemma PingLayout(localIp: uint32, hostName: string)
    ensures var p := PingFor(localIp, hostName);
      && p.header == "FPPD" && p.packetType == 4 && p.dataLen == 294
      && p.pingVersion == 3 && p.pingSubtype == 0 && p.pingHardware == 0xC3
      && p.operatingMode == 8
      && LowByte(p.versionMajor) == 0 && HighByte(p.versionMajor) == 1
      && LowByte(p.versionMinor) == 0 && HighByte(p.versionMinor) == 1
      && FromBytesLE(p.ipAddress) == localIp
  {
    var p := PingFor(localIp, hostName);
    VersionNumbers();
    assert ToU16(ToInt(VersionStr)) == 1;
    assert ToU16(ToInt(VersionStr[2..])) == 1;
    assert p.versionMajor == SwapBytes(1) && p.versionMinor == SwapBytes(1);
    BytesLERoundTrip(localIp);
  }

  /** GET answers 200 exactly for "/api/sequence/<s>/meta", and then for
      the sequence s. */
  lemma GetSequenceMeta(path: Option<string>)
    ensures ProcessGET(path).status == 200 || ProcessGET(path).status == 404
    ensures ProcessGET(path).status == 200 <==> ProcessGET(path).sequence.Some?
    ensures ProcessGET(path).status == 200 ==> path == Some(SequencePrefix + ProcessGET(path).sequence.value + MetaSuffix)
  {
    if ProcessGET(path).status == 200 {
      var p := path.value;
      var s := p[|SequencePrefix|..];
      var q := s[..|s| - |MetaSuffix|];
      assert ProcessGET(path).sequence.value == q;
      assert s == q + MetaSuffix;
      assert p == SequencePrefix + s;
      assert p == SequencePrefix + q + MetaSuffix;
    }
  }

  lemma MetaPathAnswered(s: string)
    ensures ProcessGET(Some(SequencePrefix + s + MetaSuffix)) == GetResponse(200, Some(s))
  {
    var p := SequencePrefix + s + MetaSuffix;
    assert p[..|SequencePrefix|] == SequencePrefix;
    var t := p[|SequencePrefix|..];
    assert t == s + MetaSuffix;
    assert t[|t| - |MetaSuffix|..] == MetaSuffix;
    assert t[..|t| - |MetaSuffix|] == s;
  }
}
