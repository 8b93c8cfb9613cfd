// The QN8027 FM transmitter driver: a shadow copy of the chip's write-only
// register fields, packed into register bytes on every update, and the RDS
// encoder that packs the Program Service name into type 0A groups and
// RadioText into type 2A groups (IEC 62106, sections 3.1.5.1 and 3.1.5.3).
//
// I2C traffic is abstracted as `chip`, the last byte written to each register,
// and `rdsGroups`, the groups handed to the RDS buffer in order.  Bytes are
// uint8 integers: a shift or mask by a constant is written as the division,
// product or remainder it computes, and `|` is Ints.Or8.
module QN8027Radio {
  import opened Ints
  import opened ArduinoString

  /** Values of the on/off control argument. */
  const ON: uint8 := 1
  const OFF: uint8 := 0

  /** Longest Program Service name and longest RadioText, in bytes. */
  const PSN_SIZE: nat := 8
  const RADIOTEXT_SIZE: nat := 64

  /** The eight data bytes of one RDS group: blocks 1 to 4, two bytes each. */
  type Group = g: seq<uint8> | |g| == 8 witness [0, 0, 0, 0, 0, 0, 0, 0]

  /** The registers the driver writes. RDSD(n) is RDS data byte n. */
  datatype Reg = SYSTEM | CH1 | GPLT | XTL | VGA | FDEV | RDS | PAC | RDSD(n: nat)

  /** The byte a character of an Arduino String occupies.  Characters stand
      for bytes 0..255, so the reduction only makes the type fit. */
  function ByteOf(c: char): uint8 { c as int % 0x100 }

  /** Character i of a transmit buffer that was filled with NUL and then
      received `text` and its terminating NUL. */
  function BufferChar(text: string, i: nat): char
  {
    if i < |text| then text[i] else NUL
  }

  /** The byte sent for character i of that buffer. */
  function BufferByte(text: string, i: nat): uint8
  {
    ByteOf(BufferChar(text, i))
  }

  // ---------------------------------------------------------------------------
  // Decoding of blocks 1 and 2, as a receiver reads them

  function PiOf(g: Group): uint16 { (g[0] as int) * 0x100 + g[1] }
  /** Group type code: bits 7..4 of block 2's first byte. */
  function GroupTypeOf(g: Group): nat { g[2] / 16 }
  /** Version B flag: bit 3 of block 2's first byte. */
  function VersionBOf(g: Group): nat { g[2] / 8 % 2 }
  /** PTY: bits 1..0 of block 2's first byte, then bits 7..5 of its second. */
  function PtyOf(g: Group): nat { g[2] % 4 * 8 + g[3] / 32 }
  /** Segment address of a type 0 group (bits C1 C0). */
  function PsAddressOf(g: Group): nat { g[3] % 4 }
  /** The music/speech flag of a type 0 group. */
  function MusicFlagOf(g: Group): nat { g[3] / 8 % 2 }
  /** Segment address of a type 2 group (bits C3..C0). */
  function RtAddressOf(g: Group): nat { g[3] % 16 }
  /** The text A/B flag of a type 2 group. */
  function TextAbFlagOf(g: Group): nat { g[3] / 16 % 2 }

  // ---------------------------------------------------------------------------
  // Encoding

  /** `(pty & 0x18) >> 3`: the top two PTY bits, for the bottom of block 2's
      first byte. */
  function PtyHi(pty: uint8): uint8 { pty / 8 % 4 }
  /** `(pty << 5) & 0xE0`: the bottom three PTY bits, for the top of block 2's
      second byte. */
  function PtyLo(pty: uint8): uint8 { pty % 8 * 32 }

  /** The PTY is read back from its two halves placed as block 2 places them,
      whatever address bits (below 32) share the second byte. */
  lemma PtyHalves(pty: uint8, low: nat)
    requires low < 32
    ensures PtyHi(pty) % 4 * 8 + (PtyLo(pty) + low) / 32 == pty % 32
    ensures PtyLo(pty) % 32 == 0 && (PtyLo(pty) + low) % 32 == low
  {
    var q, r := pty / 8, pty % 8;
    var h := q / 4;
    assert pty == 8 * q + r && q == 4 * h + q % 4;
    DivOf(32 * r + low, 32, r, low);
    ModOf(32 * r + low, 32, r, low);
    ModOf(32 * r, 32, r, 0);
    ModOf(pty, 32, h, 8 * (q % 4) + r);
  }

  /** Block 2 of a type 0A group decodes to its type, PTY and address. */
  lemma PsBlockTwo(pty: uint8, s: nat)
    requires s < 4
    ensures var b2 := PtyHi(pty); var b3 := PtyLo(pty) + 0x08 + s;
      && b2 / 16 == 0 && b2 / 8 % 2 == 0
      && b2 % 4 * 8 + b3 / 32 == pty % 32
      && b3 % 4 == s && b3 / 8 % 2 == 1
  {
    PtyHalves(pty, 0x08 + s);
    PsAddressBits(PtyLo(pty), s, PtyLo(pty) + 0x08 + s);
  }

  lemma PsAddressBits(lo: nat, s: nat, b3: nat)
    requires lo % 32 == 0 && s < 4 && b3 == lo + 0x08 + s
    ensures b3 % 4 == s && b3 / 8 % 2 == 1
  {
    var q := lo / 32;
    assert lo == 32 * q;
    ModOf(b3, 4, 8 * q + 2, s);
    DivOf(b3, 8, 4 * q + 1, s);
    ModOf(4 * q + 1, 2, 2 * q, 1);
  }

  lemma RtAddressBits(lo: nat, s: nat, b3: nat)
    requires lo % 32 == 0 && s < 16 && b3 == lo + s
    ensures b3 % 16 == s && b3 / 16 % 2 == 0
  {
    var q := lo / 32;
    assert lo == 32 * q;
    ModOf(b3, 16, 2 * q, s);
    DivOf(b3, 16, 2 * q, s);
    ModOf(2 * q, 2, q, 0);
  }

  lemma RtTypeBits(hi: nat, b2: nat)
    requires hi < 4 && b2 == 0x20 + hi
    ensures b2 / 16 == 2 && b2 / 8 % 2 == 0 && b2 % 4 == hi
  {
  }

  /** Block 2 of a type 2A group decodes to its type, PTY and address. */
  lemma RtBlockTwo(pty: uint8, s: nat)
    requires s < 16
    ensures var b2 := 0x20 + PtyHi(pty); var b3 := PtyLo(pty) + s;
      && b2 / 16 == 2 && b2 / 8 % 2 == 0
      && b2 % 4 * 8 + b3 / 32 == pty % 32
      && b3 % 16 == s && b3 / 16 % 2 == 0
  {
    PtyHalves(pty, s);
    RtTypeBits(PtyHi(pty), 0x20 + PtyHi(pty));
    RtAddressBits(PtyLo(pty), s, PtyLo(pty) + s);
  }

  /** One type 0A group: PI, group type 0 version A, PTY, music flag set,
      segment address `seg`, block 3 = 0xE0 0xCD and two name bytes.  The
      fields of block 2 occupy disjoint bits, so they are added here; PsGroupOr
      shows the sum is the OR the driver computes. */
  function PsGroup(pi: uint16, pty: uint8, seg: nat, c0: uint8, c1: uint8): Group
    requires seg < 4
  {
    [HighByte(pi), LowByte(pi), PtyHi(pty), PtyLo(pty) + 0x08 + seg, 0xE0, 0xCD, c0, c1]
  }

  /** Block 2's second byte of a type 0A group is `PtyLo | (0x08 + seg)`. */
  lemma PsGroupOr(pi: uint16, pty: uint8, seg: nat, c0: uint8, c1: uint8)
    requires seg < 4
    ensures PsGroup(pi, pty, seg, c0, c1)[3] == Or8(PtyLo(pty), 0x08 + seg)
  {
    assert Pow2(5) == 32;
    ModOf(PtyLo(pty), 32, pty % 8, 0);
    Or8Extend(PtyLo(pty), PtyLo(pty), 5, 0x08 + seg);
  }

  /** A receiver decodes a type 0A group to what was encoded. */
  lemma PsGroupDecodes(pi: uint16, pty: uint8, seg: nat, c0: uint8, c1: uint8)
    requires seg < 4
    ensures var g := PsGroup(pi, pty, seg, c0, c1);
      && PiOf(g) == pi && GroupTypeOf(g) == 0 && VersionBOf(g) == 0
      && PtyOf(g) == pty % 32 && PsAddressOf(g) == seg && MusicFlagOf(g) == 1
      && g[4] == 0xE0 && g[5] == 0xCD && g[6] == c0 && g[7] == c1
  {
    BytesOfWord(pi);
    PsBlockTwo(pty, seg);
  }

  /** One type 2A group: PI, group type 2 version A, PTY, text flag A,
      segment address `seg` and four text bytes, block 2's disjoint fields
      added (RtGroupOr). */
  function RtGroup(pi: uint16, pty: uint8, seg: nat, c0: uint8, c1: uint8, c2: uint8, c3: uint8): Group
    requires seg < 16
  {
    [HighByte(pi), LowByte(pi), 0x20 + PtyHi(pty), PtyLo(pty) + seg, c0, c1, c2, c3]
  }

  /** Block 2 of a type 2A group is `0x20 | PtyHi` and `PtyLo | seg`. */
  lemma RtGroupOr(pi: uint16, pty: uint8, seg: nat, c0: uint8, c1: uint8, c2: uint8, c3: uint8)
    requires seg < 16
    ensures var g := RtGroup(pi, pty, seg, c0, c1, c2, c3);
      g[2] == Or8(0x20, PtyHi(pty)) && g[3] == Or8(PtyLo(pty), seg)
  {
    assert Pow2(5) == 32;
    Or8Extend(0x20, 0x20, 5, PtyHi(pty));
    ModOf(PtyLo(pty), 32, pty % 8, 0);
    Or8Extend(PtyLo(pty), PtyLo(pty), 5, seg);
  }

  /** A receiver decodes a type 2A group to what was encoded. */
  lemma RtGroupDecodes(pi: uint16, pty: uint8, seg: nat, c0: uint8, c1: uint8, c2: uint8, c3: uint8)
    requires seg < 16
    ensures var g := RtGroup(pi, pty, seg, c0, c1, c2, c3);
      && PiOf(g) == pi && GroupTypeOf(g) == 2 && VersionBOf(g) == 0
      && PtyOf(g) == pty % 32 && RtAddressOf(g) == seg && TextAbFlagOf(g) == 0
      && g[4] == c0 && g[5] == c1 && g[6] == c2 && g[7] == c3
  {
    BytesOfWord(pi);
    RtBlockTwo(pty, seg);
  }

  /** Number of type 0A groups for a name of `len` bytes: one per two bytes of
      the name and its terminator, at most four. */
  function PsGroupCount(len: nat): nat
  {
    Min((len + 2) / 2, PSN_SIZE / 2)
  }

  /** The first n type 0A groups for the buffer holding `t`: group k carries
      buffer bytes 2k and 2k+1. */
  function PsGroupsUpTo(pi: uint16, pty: uint8, t: string, n: nat): (gs: seq<Group>)
    requires n <= PSN_SIZE / 2
    ensures |gs| == n
  {
    if n == 0 then []
    else PsGroupsUpTo(pi, pty, t, n - 1)
         + [PsGroup(pi, pty, n - 1, BufferByte(t, 2 * (n - 1)), BufferByte(t, 2 * (n - 1) + 1))]
  }

  lemma {:induction false} PsGroupsUpToAt(pi: uint16, pty: uint8, t: string, n: nat, k: nat)
    requires n <= PSN_SIZE / 2 && k < n
    ensures PsGroupsUpTo(pi, pty, t, n)[k]
            == PsGroup(pi, pty, k, BufferByte(t, 2 * k), BufferByte(t, 2 * k + 1))
  {
    if k < n - 1 {
      PsGroupsUpToAt(pi, pty, t, n - 1, k);
    }
  }

  /** The groups sendStationName sends for `name`: enough groups for the name
      cut to PSN_SIZE and its terminator, at most four. */
  function StationNameGroups(pi: uint16, pty: uint8, name: string): (gs: seq<Group>)
    ensures var t := Truncate(name, PSN_SIZE);
      && |gs| == PsGroupCount(|t|)
      && 1 <= |gs| <= PSN_SIZE / 2
      && 2 * |gs| >= Min(|t| + 1, PSN_SIZE)
      && 2 * (|gs| - 1) <= |t|
  {
    var t := Truncate(name, PSN_SIZE);
    PsGroupsUpTo(pi, pty, t, PsGroupCount(|t|))
  }

  /** Every group of the name is a type 0A group of this station with its
      PTY, and the groups are numbered 0, 1, 2, ... */
  lemma {:induction false} StationNameHeaders(pi: uint16, pty: uint8, name: string)
    ensures var gs := StationNameGroups(pi, pty, name);
      forall k :: 0 <= k < |gs| ==>
        && PiOf(gs[k]) == pi && GroupTypeOf(gs[k]) == 0 && VersionBOf(gs[k]) == 0
        && PtyOf(gs[k]) == pty % 32 && PsAddressOf(gs[k]) == k
  {
    var t := Truncate(name, PSN_SIZE);
    var gs := StationNameGroups(pi, pty, name);
    forall k | 0 <= k < |gs|
      ensures PiOf(gs[k]) == pi && GroupTypeOf(gs[k]) == 0 && VersionBOf(gs[k]) == 0
      ensures PtyOf(gs[k]) == pty % 32 && PsAddressOf(gs[k]) == k
    {
      PsGroupsUpToAt(pi, pty, t, |gs|, k);
      PsGroupDecodes(pi, pty, k, BufferByte(t, 2 * k), BufferByte(t, 2 * k + 1));
    }
  }

  /** Read in order, the groups carry the name, its terminator and NUL
      padding: buffer byte i is in group i / 2. */
  lemma {:induction false} StationNameText(pi: uint16, pty: uint8, name: string)
    ensures var t := Truncate(name, PSN_SIZE); var gs := StationNameGroups(pi, pty, name);
      forall i :: 0 <= i < 2 * |gs| ==> gs[i / 2][6 + i % 2] == BufferByte(t, i)
  {
    var t := Truncate(name, PSN_SIZE);
    var gs := StationNameGroups(pi, pty, name);
    forall i | 0 <= i < 2 * |gs|
      ensures gs[i / 2][6 + i % 2] == BufferByte(t, i)
    {
      var k := i / 2;
      PsGroupsUpToAt(pi, pty, t, |gs|, k);
      assert i == 2 * k || i == 2 * k + 1;
    }
  }

  /** The first n type 2A groups for the buffer holding `t`: group k carries
      buffer bytes 4k to 4k+3. */
  function RtGroupsUpTo(pi: uint16, pty: uint8, t: string, n: nat): (gs: seq<Group>)
    requires n <= RADIOTEXT_SIZE / 4
    ensures |gs| == n
  {
    if n == 0 then []
    else RtGroupsUpTo(pi, pty, t, n - 1)
         + [RtGroup(pi, pty, n - 1, BufferByte(t, 4 * (n - 1)), BufferByte(t, 4 * (n - 1) + 1),
                    BufferByte(t, 4 * (n - 1) + 2), BufferByte(t, 4 * (n - 1) + 3))]
  }

  lemma {:induction false} RtGroupsUpToAt(pi: uint16, pty: uint8, t: string, n: nat, k: nat)
    requires n <= RADIOTEXT_SIZE / 4 && k < n
    ensures RtGroupsUpTo(pi, pty, t, n)[k]
            == RtGroup(pi, pty, k, BufferByte(t, 4 * k), BufferByte(t, 4 * k + 1),
                       BufferByte(t, 4 * k + 2), BufferByte(t, 4 * k + 3))
  {
    if k < n - 1 {
      RtGroupsUpToAt(pi, pty, t, n - 1, k);
    }
  }

  /** Every RadioText group is a type 2A group of this station with its PTY,
      text flag A, and the groups are numbered 0, 1, 2, ... */
  lemma {:induction false} RtGroupsHeaders(pi: uint16, pty: uint8, t: string, n: nat)
    requires n <= RADIOTEXT_SIZE / 4
    ensures var gs := RtGroupsUpTo(pi, pty, t, n);
      forall k :: 0 <= k < n ==>
        && PiOf(gs[k]) == pi && GroupTypeOf(gs[k]) == 2 && VersionBOf(gs[k]) == 0
        && PtyOf(gs[k]) == pty % 32 && RtAddressOf(gs[k]) == k && TextAbFlagOf(gs[k]) == 0
  {
    var gs := RtGroupsUpTo(pi, pty, t, n);
    forall k | 0 <= k < n
      ensures PiOf(gs[k]) == pi && GroupTypeOf(gs[k]) == 2 && VersionBOf(gs[k]) == 0
      ensures PtyOf(gs[k]) == pty % 32 && RtAddressOf(gs[k]) == k && TextAbFlagOf(gs[k]) == 0
    {
      RtGroupsUpToAt(pi, pty, t, n, k);
      RtGroupDecodes(pi, pty, k, BufferByte(t, 4 * k), BufferByte(t, 4 * k + 1),
                     BufferByte(t, 4 * k + 2), BufferByte(t, 4 * k + 3));
    }
  }

  /** Read in order, the groups carry the buffer: byte i is in group i / 4. */
  lemma {:induction false} RtGroupsText(pi: uint16, pty: uint8, t: string, n: nat)
    requires n <= RADIOTEXT_SIZE / 4
    ensures var gs := RtGroupsUpTo(pi, pty, t, n);
      forall i :: 0 <= i < 4 * n ==> gs[i / 4][4 + i % 4] == BufferByte(t, i)
  {
    var gs := RtGroupsUpTo(pi, pty, t, n);
    forall i | 0 <= i < 4 * n
      ensures gs[i / 4][4 + i % 4] == BufferByte(t, i)
    {
      var k := i / 4;
      RtGroupsUpToAt(pi, pty, t, n, k);
      assert i == 4 * k || i == 4 * k + 1 || i == 4 * k + 2 || i == 4 * k + 3;
    }
  }

  /** Number of passes of sendRadioText's loop: `rds_len` is the text length
      plus one, plus that value modulo 4, and the loop steps by 4 up to 64. */
  function RtGroupCountAsWritten(len: nat): nat
  {
    var strLen := len + 1;
    var rdsLen := strLen + strLen % 4;
    Min((rdsLen + 3) / 4, RADIOTEXT_SIZE / 4)
  }

  /** The groups sendRadioText sends for `text`, as the code is written. */
  function RadioTextGroupsAsWritten(pi: uint16, pty: uint8, text: string): (gs: seq<Group>)
    ensures 1 <= |gs| <= RADIOTEXT_SIZE / 4
    ensures 4 * |gs| >= Min(|Truncate(text, RADIOTEXT_SIZE)| + 1, RADIOTEXT_SIZE)
  {
    var t := Truncate(text, RADIOTEXT_SIZE);
    RtGroupsUpTo(pi, pty, t, RtGroupCountAsWritten(|t|))
  }

  /** The groups for `text` when the buffer length is rounded up to a multiple
      of 4: every group carries a byte of the text or its terminator, and the
      groups reach the terminator unless the text fills all 64 bytes. */
  function RadioTextGroups(pi: uint16, pty: uint8, text: string): (gs: seq<Group>)
    ensures var t := Truncate(text, RADIOTEXT_SIZE);
      && 1 <= |gs| <= RADIOTEXT_SIZE / 4
      && 4 * |gs| >= Min(|t| + 1, RADIOTEXT_SIZE)
      && 4 * (|gs| - 1) <= |t|
  {
    var t := Truncate(text, RADIOTEXT_SIZE);
    RtGroupsUpTo(pi, pty, t, Min((|t| + 4) / 4, RADIOTEXT_SIZE / 4))
  }

  /** The code as written sends one group more than needed when the text
      (cut to 64 bytes) has a length of 2 modulo 4 below 62; the extra group
      carries no text. */
  lemma {:induction false} RadioTextExtraGroup(pi: uint16, pty: uint8, text: string)
    requires |Truncate(text, RADIOTEXT_SIZE)| % 4 == 2 && |Truncate(text, RADIOTEXT_SIZE)| < RADIOTEXT_SIZE - 2
    ensures var fixed := RadioTextGroups(pi, pty, text);
      var written := RadioTextGroupsAsWritten(pi, pty, text);
      |written| == |fixed| + 1 && written[..|fixed|] == fixed && written[|fixed|][4..] == [0, 0, 0, 0]
  {
    var t := Truncate(text, RADIOTEXT_SIZE);
    var fixed := RadioTextGroups(pi, pty, text);
    var written := RadioTextGroupsAsWritten(pi, pty, text);
    var n := |fixed|;
    assert n == (|t| + 4) / 4;
    assert 4 * n > |t|;
    assert written == fixed + [RtGroup(pi, pty, n, BufferByte(t, 4 * n), BufferByte(t, 4 * n + 1),
                                       BufferByte(t, 4 * n + 2), BufferByte(t, 4 * n + 3))];
    assert written[..n] == fixed;
    var g := written[n];
    assert g[4] == 0 && g[5] == 0 && g[6] == 0 && g[7] == 0;
    assert g[4..] == [g[4], g[5], g[6], g[7]];
  }

  /** For every other length both send the same groups. */
  lemma {:induction false} RadioTextSameGroups(pi: uint16, pty: uint8, text: string)
    requires !(|Truncate(text, RADIOTEXT_SIZE)| % 4 == 2 && |Truncate(text, RADIOTEXT_SIZE)| < RADIOTEXT_SIZE - 2)
    ensures RadioTextGroupsAsWritten(pi, pty, text) == RadioTextGroups(pi, pty, text)
  {
    var t := Truncate(text, RADIOTEXT_SIZE);
    assert RtGroupCountAsWritten(|t|) == Min((|t| + 4) / 4, RADIOTEXT_SIZE / 4);
  }

  /** A two-character text shows the discrepancy: two groups instead of one,
      the second carrying no text. */
  lemma RadioTextTwoBytesExample(pi: uint16, pty: uint8)
    ensures |RadioTextGroupsAsWritten(pi, pty, "ab")| == 2
    ensures |RadioTextGroups(pi, pty, "ab")| == 1
    ensures RadioTextGroupsAsWritten(pi, pty, "ab")[1][4..] == [0, 0, 0, 0]
  {
    assert Truncate("ab", RADIOTEXT_SIZE) == "ab";
    RadioTextExtraGroup(pi, pty, "ab");
  }

  // ---------------------------------------------------------------------------
  // Register bytes

  /** SYSTEM register: carrier on, mono, mute, RDS toggle and the top channel
      bits, OR-ed together. */
  function SystemByte(status: uint8, mono: uint8, mute: uint8, ready: uint8, fh: uint8): uint8
  {
    Or8(Or8(Or8(Or8(status, mono), mute), ready), fh)
  }

  /** The SYSTEM fields occupy disjoint bits, so OR-ing them adds them. */
  lemma SystemByteSum(status: uint8, mono: uint8, mute: uint8, ready: uint8, fh: uint8)
    requires (status == 0 || status == 32) && (mono == 0 || mono == 16)
    requires (mute == 0 || mute == 8) && (ready == 0 || ready == 4) && fh < 4
    ensures SystemByte(status, mono, mute, ready, fh) == status + mono + mute + ready + fh
  {
    assert Pow2(2) == 4 && Pow2(3) == 8 && Pow2(4) == 16 && Pow2(5) == 32;
    SystemAligned(status, mono, mute, ready);
    Or8Extend(status, status, 5, mono);
    Or8Extend(Or8(status, mono), status + mono, 4, mute);
    Or8Extend(Or8(Or8(status, mono), mute), status + mono + mute, 3, ready);
    Or8Extend(Or8(Or8(Or8(status, mono), mute), ready), status + mono + mute + ready, 2, fh);
  }

  lemma SystemAligned(status: nat, mono: nat, mute: nat, ready: nat)
    requires (status == 0 || status == 32) && (mono == 0 || mono == 16)
    requires (mute == 0 || mute == 8) && (ready == 0 || ready == 4)
    ensures status % 32 == 0 && (status + mono) % 16 == 0
    ensures (status + mono + mute) % 8 == 0 && (status + mono + mute + ready) % 4 == 0
  {
  }

  lemma SystemDecode(status: nat, mono: nat, mute: nat, ready: nat, fh: nat, b: nat)
    requires (status == 0 || status == 32) && (mono == 0 || mono == 16)
    requires (mute == 0 || mute == 8) && (ready == 0 || ready == 4) && fh < 4
    requires b == status + mono + mute + ready + fh
    ensures b / 32 * 32 == status && b / 16 % 2 * 16 == mono && b / 8 % 2 * 8 == mute
    ensures b / 4 % 2 * 4 == ready && b % 4 == fh
  {
    var st := if status == 32 then 1 else 0;
    var mo := if mono == 16 then 1 else 0;
    var mu := if mute == 8 then 1 else 0;
    var re := if ready == 4 then 1 else 0;
    DivOf(b, 32, st, 16 * mo + 8 * mu + 4 * re + fh);
    DivOf(b, 16, 2 * st + mo, 8 * mu + 4 * re + fh);
    ModOf(2 * st + mo, 2, st, mo);
    DivOf(b, 8, 4 * st + 2 * mo + mu, 4 * re + fh);
    ModOf(4 * st + 2 * mo + mu, 2, 2 * st + mo, mu);
    DivOf(b, 4, 8 * st + 4 * mo + 2 * mu + re, fh);
    ModOf(8 * st + 4 * mo + 2 * mu + re, 2, 4 * st + 2 * mo + mu, re);
    ModOf(b, 4, 8 * st + 4 * mo + 2 * mu + re, fh);
  }

  /** Each SYSTEM field is read back from the byte. */
  lemma SystemByteFields(status: uint8, mono: uint8, mute: uint8, ready: uint8, fh: uint8)
    requires (status == 0 || status == 32) && (mono == 0 || mono == 16)
    requires (mute == 0 || mute == 8) && (ready == 0 || ready == 4) && fh < 4
    ensures var b := SystemByte(status, mono, mute, ready, fh);
      && b / 32 * 32 == status && b / 16 % 2 * 16 == mono && b / 8 % 2 * 8 == mute
      && b / 4 % 2 * 4 == ready && b % 4 == fh
  {
    SystemByteSum(status, mono, mute, ready, fh);
    SystemDecode(status, mono, mute, ready, fh, SystemByte(status, mono, mute, ready, fh));
  }

  /** GPLT register: pre-emphasis, private mode, PA auto-off time and pilot
      deviation, OR-ed together. */
  function GpltByte(preEmph: uint8, priv: uint8, paOff: uint8, pilot: uint8): uint8
  {
    Or8(Or8(Or8(preEmph, priv), paOff), pilot)
  }

  /** The GPLT fields occupy disjoint bits while the pilot deviation, which
      is stored as given, fits in the low nibble. */
  lemma GpltByteSum(preEmph: uint8, priv: uint8, paOff: uint8, pilot: uint8)
    requires (preEmph == 0 || preEmph == 128) && (priv == 0 || priv == 64)
    requires (paOff == 0 || paOff == 32 || paOff == 48) && pilot < 16
    ensures GpltByte(preEmph, priv, paOff, pilot) == preEmph + priv + paOff + pilot
  {
    assert Pow2(4) == 16 && Pow2(6) == 64 && Pow2(7) == 128;
    GpltAligned(preEmph, priv, paOff);
    Or8Extend(preEmph, preEmph, 7, priv);
    Or8Extend(Or8(preEmph, priv), preEmph + priv, 6, paOff);
    Or8Extend(Or8(Or8(preEmph, priv), paOff), preEmph + priv + paOff, 4, pilot);
  }

  lemma GpltAligned(preEmph: nat, priv: nat, paOff: nat)
    requires (preEmph == 0 || preEmph == 128) && (priv == 0 || priv == 64)
    requires paOff == 0 || paOff == 32 || paOff == 48
    ensures preEmph % 128 == 0 && (preEmph + priv) % 64 == 0 && (preEmph + priv + paOff) % 16 == 0
  {
  }

  lemma GpltDecode(preEmph: nat, priv: nat, paOff: nat, pilot: nat, b: nat)
    requires (preEmph == 0 || preEmph == 128) && (priv == 0 || priv == 64)
    requires (paOff == 0 || paOff == 32 || paOff == 48) && pilot < 16
    requires b == preEmph + priv + paOff + pilot
    ensures b / 128 * 128 == preEmph && b / 64 % 2 * 64 == priv
    ensures b / 16 % 4 * 16 == paOff && b % 16 == pilot
  {
    var pe := if preEmph == 128 then 1 else 0;
    var pr := if priv == 64 then 1 else 0;
    var a := if paOff == 0 then 0 else if paOff == 32 then 2 else 3;
    DivOf(b, 128, pe, 64 * pr + 16 * a + pilot);
    DivOf(b, 64, 2 * pe + pr, 16 * a + pilot);
    ModOf(2 * pe + pr, 2, pe, pr);
    DivOf(b, 16, 8 * pe + 4 * pr + a, pilot);
    ModOf(8 * pe + 4 * pr + a, 4, 2 * pe + pr, a);
    ModOf(b, 16, 8 * pe + 4 * pr + a, pilot);
  }

  /** Each GPLT field is read back from the byte while the pilot deviation
      fits in the low nibble. */
  lemma GpltByteFields(preEmph: uint8, priv: uint8, paOff: uint8, pilot: uint8)
    requires (preEmph == 0 || preEmph == 128) && (priv == 0 || priv == 64)
    requires (paOff == 0 || paOff == 32 || paOff == 48) && pilot < 16
    ensures var b := GpltByte(preEmph, priv, paOff, pilot);
      && b / 128 * 128 == preEmph && b / 64 % 2 * 64 == priv
      && b / 16 % 4 * 16 == paOff && b % 16 == pilot
  {
    GpltByteSum(preEmph, priv, paOff, pilot);
    GpltDecode(preEmph, priv, paOff, pilot, GpltByte(preEmph, priv, paOff, pilot));
  }

  /** XTL register: clock source and crystal current. */
  function XtlByte(clockSource: uint8, current: uint8): uint8
  {
    Or8(clockSource, current)
  }

  /** VGA register: crystal frequency, input buffer gain, digital gain and
      input impedance, OR-ed together. */
  function VgaByte(xtal: uint8, ibGain: uint8, dGain: uint8, imp: uint8): uint8
  {
    Or8(Or8(Or8(xtal, ibGain), dGain), imp)
  }

  /** The VGA fields occupy disjoint bits for every value the setters store. */
  lemma VgaByteSum(xtal: uint8, ibGain: uint8, dGain: uint8, imp: uint8)
    requires (xtal == 0 || xtal == 128) && ibGain % 16 == 0 && ibGain <= 0x70
    requires dGain % 4 == 0 && dGain <= 0x0C && imp < 4
    ensures VgaByte(xtal, ibGain, dGain, imp) == xtal + ibGain + dGain + imp
  {
    assert Pow2(2) == 4 && Pow2(4) == 16 && Pow2(7) == 128;
    VgaAligned(xtal, ibGain, dGain);
    Or8Extend(xtal, xtal, 7, ibGain);
    Or8Extend(Or8(xtal, ibGain), xtal + ibGain, 4, dGain);
    Or8Extend(Or8(Or8(xtal, ibGain), dGain), xtal + ibGain + dGain, 2, imp);
  }

  lemma VgaAligned(xtal: nat, ibGain: nat, dGain: nat)
    requires (xtal == 0 || xtal == 128) && ibGain % 16 == 0 && dGain % 4 == 0
    ensures xtal % 128 == 0 && (xtal + ibGain) % 16 == 0 && (xtal + ibGain + dGain) % 4 == 0
  {
  }

  lemma VgaDecode(xtal: nat, ibGain: nat, dGain: nat, imp: nat, b: nat)
    requires (xtal == 0 || xtal == 128) && ibGain % 16 == 0 && ibGain <= 0x70
    requires dGain % 4 == 0 && dGain <= 0x0C && imp < 4
    requires b == xtal + ibGain + dGain + imp
    ensures b / 128 * 128 == xtal && b / 16 % 8 * 16 == ibGain
    ensures b / 4 % 4 * 4 == dGain && b % 4 == imp
  {
    var x := if xtal == 128 then 1 else 0;
    var i, d := ibGain / 16, dGain / 4;
    assert ibGain == 16 * i && dGain == 4 * d;
    DivOf(b, 128, x, 16 * i + 4 * d + imp);
    DivOf(b, 16, 8 * x + i, 4 * d + imp);
    ModOf(8 * x + i, 8, x, i);
    DivOf(b, 4, 32 * x + 4 * i + d, imp);
    ModOf(32 * x + 4 * i + d, 4, 8 * x + i, d);
    ModOf(b, 4, 32 * x + 4 * i + d, imp);
  }

  /** Each VGA field is read back from the byte. */
  lemma VgaByteFields(xtal: uint8, ibGain: uint8, dGain: uint8, imp: uint8)
    requires (xtal == 0 || xtal == 128) && ibGain % 16 == 0 && ibGain <= 0x70
    requires dGain % 4 == 0 && dGain <= 0x0C && imp < 4
    ensures var b := VgaByte(xtal, ibGain, dGain, imp);
      && b / 128 * 128 == xtal && b / 16 % 8 * 16 == ibGain
      && b / 4 % 4 * 4 == dGain && b % 4 == imp
  {
    VgaByteSum(xtal, ibGain, dGain, imp);
    VgaDecode(xtal, ibGain, dGain, imp, VgaByte(xtal, ibGain, dGain, imp));
  }

  /** RDS register: enable bit and RDS deviation. */
  function RdsByte(enable: uint8, deviation: uint8): uint8
  {
    Or8(enable, deviation)
  }

  /** PAC register: the peak-clear toggle and the output power. */
  function PacByte(peakClear: uint8, power: uint8): uint8
  {
    Or8(peakClear, power)
  }

  /** The two-field registers read back while the low field stays below the
      top bit. */
  lemma TopBitFields(top: uint8, low: uint8)
    requires (top == 0 || top == 128) && low < 128
    ensures PacByte(top, low) / 128 * 128 == top && PacByte(top, low) % 128 == low
    ensures RdsByte(top, low) == PacByte(top, low)
  {
    var t := if top == 128 then 1 else 0;
    assert Pow2(7) == 128;
    ModOf(top, 128, t, 0);
    OrDisjoint(top, 7, low);
    DivOf(top + low, 128, t, low);
    ModOf(top + low, 128, t, low);
  }

  /** The next value of the RDS toggle bit after one group. */
  function Toggled(ready: uint8): (r: uint8)
    ensures r == 0 || r == 4
    ensures (ready == 0 || ready == 4) ==> r != ready
  {
    if ready == 4 then 0 else 4
  }

  /** The toggle bit after n groups. */
  function ToggledN(ready: uint8, n: nat): (r: uint8)
    ensures n > 0 ==> r == 0 || r == 4
  {
    if n == 0 then ready else Toggled(ToggledN(ready, n - 1))
  }

  /** The toggle bit alternates: after an even number of groups it is back
      where it started. */
  lemma {:induction false} ToggledNParity(ready: uint8, n: nat)
    requires ready == 0 || ready == 4
    ensures ToggledN(ready, n) == if n % 2 == 0 then ready else Toggled(ready)
  {
    if n > 0 {
      ToggledNParity(ready, n - 1);
    }
  }

  /** Input impedance in kilo-ohm for each impedance code. */
  function ImpedanceKOhm(code: uint8): uint8
    requires code < 4
  {
    if code == 0 then 5 else if code == 1 then 10 else if code == 2 then 20 else 40
  }

  /** setAudioInpImp's table: 5, 10, 20 and 40 kOhm map to codes 0 to 3, any
      other value to code 2 (20 kOhm). */
  function ImpedanceCode(kOhm: uint8): (r: uint8)
    ensures r < 4
    ensures kOhm != 5 && kOhm != 10 && kOhm != 20 && kOhm != 40 ==> r == 2
  {
    match kOhm
    case 5 => 0
    case 10 => 1
    case 20 => 2
    case 40 => 3
    case _ => 2
  }

  /** The table is the inverse of ImpedanceKOhm. */
  lemma ImpedanceRoundTrip(code: uint8)
    requires code < 4
    ensures ImpedanceCode(ImpedanceKOhm(code)) == code
  {
  }

  /** `setX & 0x7F`: the requested TX power reduced to 7 bits; only the top
      bit is dropped. */
  function TxPowerBits(setX: uint8): (r: uint8)
    ensures r < 128 && (r == setX || r + 128 == setX)
  {
    setX % 128
  }

  /** getFSMStatus, `status & 7`: the chip state in the low three status bits. */
  function FsmStatusOf(status: uint8): (r: uint8)
    ensures r < 8 && (status - r) % 8 == 0 && r <= status
  {
    status % 8
  }

  /** getAudioInpPeak, `status >> 4`: the audio peak in the high status nibble. */
  function AudioInpPeakOf(status: uint8): (r: uint8)
    ensures r < 16 && r * 16 <= status < r * 16 + 16
  {
    status / 16
  }

  // ---------------------------------------------------------------------------
  // The driver object

  /** Writes group `g` to the eight RDS data registers. */
  function WriteRdsData(chip: map<Reg, uint8>, g: Group): map<Reg, uint8>
  {
    chip[RDSD(0) := g[0]][RDSD(1) := g[1]][RDSD(2) := g[2]][RDSD(3) := g[3]]
        [RDSD(4) := g[4]][RDSD(5) := g[5]][RDSD(6) := g[6]][RDSD(7) := g[7]]
  }

  /** The chip after a group is sent: its data bytes written, then SYSTEM
      rewritten with `image`; every other register is left as it was. */
  function RdsSent(chip: map<Reg, uint8>, g: Group, image: uint8): map<Reg, uint8>
  {
    WriteRdsData(chip, g)[SYSTEM := image]
  }

  /** A second group sent overwrites every register the first one wrote, so
      after any run of sends the chip holds the registers it had before,
      the data bytes of the last group and the last SYSTEM image. */
  lemma RdsSentOverwrites(chip: map<Reg, uint8>, g1: Group, g2: Group, x1: uint8, x2: uint8)
    ensures RdsSent(RdsSent(chip, g1, x1), g2, x2) == RdsSent(chip, g2, x2)
  {
  }

  /** Fills `buf` with NUL and copies `text` and its terminator into it. */
  method CopyToBuffer(buf: array<char>, text: string)
    requires |text| < buf.Length
    modifies buf
    ensures forall i :: 0 <= i < buf.Length - 1 ==> buf[i] == BufferChar(text, i)
  {
    var j := 0;
    while j < buf.Length - 1
      invariant 0 <= j <= buf.Length - 1
      invariant forall i :: 0 <= i < j ==> buf[i] == NUL
    {
      buf[j] := NUL;
      j := j + 1;
    }
    j := 0;
    while j < |text|
      invariant 0 <= j <= |text|
      invariant forall i :: 0 <= i < j ==> buf[i] == text[i]
      invariant forall i :: j <= i < buf.Length - 1 ==> buf[i] == NUL
    {
      buf[j] := text[j];
      j := j + 1;
    }
    buf[|text|] := NUL;
  }

  class Radio {
    var radioStatus: uint8
    var monoAudio: uint8
    var muteAudio: uint8
    var rdsReady: uint8
    var freqH: uint8
    var preEmphTime: uint8
    var privateMode: uint8
    var PAAutoOffTime: uint8
    var TxPilotFreqDeviation: uint8
    var clockSource: uint8
    var CrystalCurrentuA: uint8
    var crystalFreqMHz: uint8
    var TxInputBufferGain: uint8
    var TxDigitalGain: uint8
    var LRInputImpdKOhm: uint8
    var RDSEnable: uint8
    var RDSFreqDeviationKHz: uint8
    var AudioPeakClear: uint8
    var PAOutputPower: uint8
    var piCode: uint16
    var ptyCode: uint8
    /** Last byte written to each register. */
    var chip: map<Reg, uint8>
    /** RDS groups handed to the chip, oldest first. */
    var rdsGroups: seq<Group>

    /** Every field holds one of the values its setter can store, so the
        fields that share a register occupy disjoint bits (SystemByteFields,
        GpltByteFields, VgaByteFields, TopBitFields). */
    ghost predicate Valid()
      reads this
    {
      && (radioStatus == 0 || radioStatus == 32)
      && (monoAudio == 0 || monoAudio == 16)
      && (muteAudio == 0 || muteAudio == 8)
      && (rdsReady == 0 || rdsReady == 4)
      && freqH < 4
      && (preEmphTime == 0 || preEmphTime == 128)
      && (privateMode == 0 || privateMode == 64)
      && (PAAutoOffTime == 0 || PAAutoOffTime == 32 || PAAutoOffTime == 48)
      && (crystalFreqMHz == 0 || crystalFreqMHz == 128)
      && TxInputBufferGain % 16 == 0 && TxInputBufferGain <= 0x50
      && TxDigitalGain % 4 == 0 && TxDigitalGain <= 0x08
      && LRInputImpdKOhm < 4
      && (RDSEnable == 0 || RDSEnable == 128)
      && (AudioPeakClear == 0 || AudioPeakClear == 128)
      && PAOutputPower < 128
    }

    function SystemImage(): uint8
      reads this
    {
      SystemByte(radioStatus, monoAudio, muteAudio, rdsReady, freqH)
    }

    function GpltImage(): uint8
      reads this
    {
      GpltByte(preEmphTime, privateMode, PAAutoOffTime, TxPilotFreqDeviation)
    }

    function VgaImage(): uint8
      reads this
    {
      VgaByte(crystalFreqMHz, TxInputBufferGain, TxDigitalGain, LRInputImpdKOhm)
    }

    function PacImage(): uint8
      reads this
    {
      PacByte(AudioPeakClear, PAOutputPower)
    }

    /** All fields start cleared; nothing has been written to the chip. */
    constructor ()
      ensures Valid() && chip == map[] && rdsGroups == []
      ensures radioStatus == 0 && muteAudio == 0 && rdsReady == 0 && piCode == 0 && ptyCode == 0
    {
      radioStatus, monoAudio, muteAudio, rdsReady, freqH := 0, 0, 0, 0, 0;
      preEmphTime, privateMode, PAAutoOffTime, TxPilotFreqDeviation := 0, 0, 0, 0;
      clockSource, CrystalCurrentuA := 0, 0;
      crystalFreqMHz, TxInputBufferGain, TxDigitalGain, LRInputImpdKOhm := 0, 0, 0, 0;
      RDSEnable, RDSFreqDeviationKHz, AudioPeakClear, PAOutputPower := 0, 0, 0, 0;
      piCode, ptyCode := 0, 0;
      chip, rdsGroups := map[], [];
    }

    method UpdateSystemReg()
      requires Valid()
      modifies this`chip
      ensures Valid()
      ensures chip == old(chip)[SYSTEM := SystemImage()]
    {
      chip := chip[SYSTEM := SystemImage()];
    }

    /** Sends one group, flips the RDS toggle bit and rewrites SYSTEM. */
    method SendRDS(g: Group)
      requires Valid()
      modifies this`rdsReady, this`chip, this`rdsGroups
      ensures Valid()
      ensures rdsGroups == old(rdsGroups) + [g]
      ensures rdsReady == Toggled(old(rdsReady)) && rdsReady != old(rdsReady)
      ensures chip == RdsSent(old(chip), g, SystemImage())
    {
      chip := WriteRdsData(chip, g);
      rdsGroups := rdsGroups + [g];
      if rdsReady == 4 {
        rdsReady := 0;
      } else {
        rdsReady := 4;
      }
      UpdateSystemReg();
    }

    method Mute(onOffCtrl: uint8)
      requires Valid()
      modifies this`muteAudio, this`chip
      ensures Valid()
      ensures muteAudio == if onOffCtrl == ON then 8 else if onOffCtrl == OFF then 0 else old(muteAudio)
      ensures chip == old(chip)[SYSTEM := SystemImage()]
    {
      if onOffCtrl == ON {
        muteAudio := 8;
      } else if onOffCtrl == OFF {
        muteAudio := 0;
      }
      UpdateSystemReg();
    }

    method MonoAudio(onOffCtrl: uint8)
      requires Valid()
      modifies this`monoAudio, this`chip
      ensures Valid()
      ensures monoAudio == if onOffCtrl == ON then 16 else if onOffCtrl == OFF then 0 else old(monoAudio)
      ensures chip == old(chip)[SYSTEM := SystemImage()]
    {
      if onOffCtrl == ON {
        monoAudio := 16;
      } else if onOffCtrl == OFF {
        monoAudio := 0;
      }
      UpdateSystemReg();
    }

    method Switch(onOffCtrl: uint8)
      requires Valid()
      modifies this`radioStatus, this`chip
      ensures Valid()
      ensures radioStatus == if onOffCtrl == ON then 32 else if onOffCtrl == OFF then 0 else old(radioStatus)
      ensures chip == old(chip)[SYSTEM := SystemImage()]
    {
      if onOffCtrl == ON {
        radioStatus := 32;
      } else if onOffCtrl == OFF {
        radioStatus := 0;
      }
      UpdateSystemReg();
    }

    method UpdateGpltReg()
      requires Valid()
      modifies this`chip
      ensures Valid()
      ensures chip == old(chip)[GPLT := GpltImage()]
    {
      chip := chip[GPLT := GpltImage()];
    }

    method ScrambleAudio(onOffCtrl: uint8)
      requires Valid()
      modifies this`privateMode, this`chip
      ensures Valid()
      ensures privateMode == if onOffCtrl == ON then 64 else if onOffCtrl == OFF then 0 else old(privateMode)
      ensures chip == old(chip)[GPLT := GpltImage()]
    {
      if onOffCtrl == ON {
        privateMode := 64;
      } else if onOffCtrl == OFF {
        privateMode := 0;
      }
      UpdateGpltReg();
    }

    /** ON selects the 50 us time constant (field 0), OFF 75 us (field 128). */
    method SetPreEmphTime50(onOffCtrl: uint8)
      requires Valid()
      modifies this`preEmphTime, this`chip
      ensures Valid()
      ensures preEmphTime == if onOffCtrl == ON then 0 else if onOffCtrl == OFF then 128 else old(preEmphTime)
      ensures chip == old(chip)[GPLT := GpltImage()]
    {
      if onOffCtrl == ON {
        preEmphTime := 0;
      } else if onOffCtrl == OFF {
        preEmphTime := 128;
      }
      UpdateGpltReg();
    }

    /** The pilot deviation is stored unchecked; values of 16 and above
        overlap the other GPLT fields. */
    method SetTxPilotFreqDeviation(PGain: uint8)
      requires Valid()
      modifies this`TxPilotFreqDeviation, this`chip
      ensures Valid()
      ensures TxPilotFreqDeviation == PGain
      ensures chip == old(chip)[GPLT := GpltImage()]
    {
      TxPilotFreqDeviation := PGain;
      UpdateGpltReg();
    }

    /** ON: the PA switches off after 60 s of silence (field 32); OFF: never (48). */
    method RadioNoAudioAutoOFF(onOffCtrl: uint8)
      requires Valid()
      modifies this`PAAutoOffTime, this`chip
      ensures Valid()
      ensures PAAutoOffTime == if onOffCtrl == ON then 32 else if onOffCtrl == OFF then 48 else old(PAAutoOffTime)
      ensures chip == old(chip)[GPLT := GpltImage()]
    {
      if onOffCtrl == ON {
        PAAutoOffTime := 32;
      } else if onOffCtrl == OFF {
        PAAutoOffTime := 48;
      }
      UpdateGpltReg();
    }

    method SetPiCode(piCodeVal: uint16)
      modifies this`piCode
      ensures piCode == piCodeVal
    {
      piCode := piCodeVal;
    }

    method SetPtyCode(ptyCodeVal: uint8)
      modifies this`ptyCode
      ensures ptyCode == ptyCodeVal
    {
      ptyCode := ptyCodeVal;
    }

    /** `Type << 6` stored in a uint8_t: the type's two low bits in bits 6
        and 7 of XTL. */
    method SetClockSource(Type: uint8)
      modifies this`clockSource, this`chip
      ensures clockSource == Type % 4 * 64
      ensures chip == old(chip)[XTL := XtlByte(clockSource, CrystalCurrentuA)]
    {
      clockSource := Type * 64 % 0x100;
      chip := chip[XTL := XtlByte(clockSource, CrystalCurrentuA)];
    }

    method UpdateVgaReg()
      requires Valid()
      modifies this`chip
      ensures Valid()
      ensures chip == old(chip)[VGA := VgaImage()]
    {
      chip := chip[VGA := VgaImage()];
    }

    /** 24 selects a 24 MHz crystal (field 128); every other value 12 MHz. */
    method SetCrystalFreq(Freq: uint8)
      requires Valid()
      modifies this`crystalFreqMHz, this`chip
      ensures Valid()
      ensures crystalFreqMHz == if Freq == 24 then 128 else 0
      ensures chip == old(chip)[VGA := VgaImage()]
    {
      if Freq == 24 {
        crystalFreqMHz := 128;
      } else {
        crystalFreqMHz := 0;
      }
      UpdateVgaReg();
    }

    /** The gain is clamped to 5 and shifted into bits 4 to 6. */
    method SetTxInputBufferGain(IBGain: uint8)
      requires Valid()
      modifies this`TxInputBufferGain, this`chip
      ensures Valid()
      ensures TxInputBufferGain == Min(IBGain, 5) * 16
      ensures chip == old(chip)[VGA := VgaImage()]
    {
      var gain := IBGain;
      if gain > 5 {
        gain := 5;
      }
      TxInputBufferGain := gain * 16;
      UpdateVgaReg();
    }

    /** The gain is clamped to 2 and shifted into bits 2 and 3. */
    method SetTxDigitalGain(DGain: uint8)
      requires Valid()
      modifies this`TxDigitalGain, this`chip
      ensures Valid()
      ensures TxDigitalGain == Min(DGain, 2) * 4
      ensures chip == old(chip)[VGA := VgaImage()]
    {
      var gain := DGain;
      if gain > 2 {
        gain := 2;
      }
      TxDigitalGain := gain * 4;
      UpdateVgaReg();
    }

    method SetAudioInpImp(impdInKOhms: uint8)
      requires Valid()
      modifies this`LRInputImpdKOhm, this`chip
      ensures Valid()
      ensures LRInputImpdKOhm == ImpedanceCode(impdInKOhms)
      ensures chip == old(chip)[VGA := VgaImage()]
    {
      LRInputImpdKOhm := ImpedanceCode(impdInKOhms);
      UpdateVgaReg();
    }

    method SetTxFreqDeviation(Fdev: uint8)
      modifies this`chip
      ensures chip == old(chip)[FDEV := Fdev]
    {
      chip := chip[FDEV := Fdev];
    }

    /** RDS on (field 128) for ON; any other value turns it off. */
    method Rds(onOffCtrl: uint8)
      requires Valid()
      modifies this`RDSEnable, this`chip
      ensures Valid()
      ensures RDSEnable == if onOffCtrl == ON then 128 else 0
      ensures chip == old(chip)[RDS := RdsByte(RDSEnable, RDSFreqDeviationKHz)]
    {
      if onOffCtrl == ON {
        RDSEnable := 128;
      } else {
        RDSEnable := 0;
      }
      chip := chip[RDS := RdsByte(RDSEnable, RDSFreqDeviationKHz)];
    }

    /** The RDS deviation is stored unchecked. */
    method SetRDSFreqDeviation(RDSFreqDev: uint8)
      modifies this`RDSFreqDeviationKHz, this`chip
      ensures RDSFreqDeviationKHz == RDSFreqDev
      ensures chip == old(chip)[RDS := RdsByte(RDSEnable, RDSFreqDeviationKHz)]
    {
      RDSFreqDeviationKHz := RDSFreqDev;
      chip := chip[RDS := RdsByte(RDSEnable, RDSFreqDeviationKHz)];
    }

    method UpdatePacReg()
      requires Valid()
      modifies this`chip
      ensures Valid()
      ensures chip == old(chip)[PAC := PacImage()]
    {
      chip := chip[PAC := PacImage()];
    }

    /** Flips the peak-clear bit, which restarts the chip's peak detector. */
    method ClearAudioPeak()
      requires Valid()
      modifies this`AudioPeakClear, this`chip
      ensures Valid()
      ensures AudioPeakClear == (if old(AudioPeakClear) == 128 then 0 else 128)
      ensures AudioPeakClear != old(AudioPeakClear)
      ensures chip == old(chip)[PAC := PacImage()]
    {
      if AudioPeakClear == 128 {
        AudioPeakClear := 0;
      } else {
        AudioPeakClear := 128;
      }
      UpdatePacReg();
    }

    method SetTxPower(setX: uint8)
      requires Valid()
      modifies this`PAOutputPower, this`chip
      ensures Valid()
      ensures PAOutputPower == TxPowerBits(setX)
      ensures chip == old(chip)[PAC := PacImage()]
    {
      PAOutputPower := setX % 128;
      UpdatePacReg();
    }

    /** getAudioInpPeak: the peak from `status`, the byte read from the
        status register, then a restart of the peak detector. */
    method GetAudioInpPeak(status: uint8) returns (peak: uint8)
      requires Valid()
      modifies this`AudioPeakClear, this`chip
      ensures Valid()
      ensures peak == AudioInpPeakOf(status)
      ensures AudioPeakClear != old(AudioPeakClear)
      ensures chip == old(chip)[PAC := PacImage()]
    {
      ClearAudioPeak();
      peak := status / 16;
    }

    /** getStatus: the status byte unchanged, then a restart of the peak
        detector. */
    method GetStatus(status: uint8) returns (r: uint8)
      requires Valid()
      modifies this`AudioPeakClear, this`chip
      ensures Valid()
      ensures r == status
      ensures AudioPeakClear != old(AudioPeakClear)
      ensures chip == old(chip)[PAC := PacImage()]
    {
      ClearAudioPeak();
      r := status;
    }

    /** One pass of sendStationName's loop: group k of the name in `buf`. */
    method SendPsSegment(buf: array<char>, sn: string, i: nat, ghost k: nat, ghost sent: seq<Group>,
                         ghost chip0: map<Reg, uint8>)
      requires Valid() && i == 2 * k && k < PSN_SIZE / 2 && buf.Length == PSN_SIZE + 1
      requires forall j :: 0 <= j < PSN_SIZE ==> buf[j] == BufferChar(sn, j)
      requires rdsGroups == sent + PsGroupsUpTo(piCode, ptyCode, sn, k)
      requires k == 0 ==> chip == chip0
      requires k > 0 ==> chip == RdsSent(chip0, rdsGroups[|rdsGroups| - 1], SystemImage())
      modifies this`rdsReady, this`chip, this`rdsGroups
      ensures Valid()
      ensures rdsGroups == sent + PsGroupsUpTo(piCode, ptyCode, sn, k + 1)
      ensures rdsReady == Toggled(old(rdsReady))
      ensures chip == RdsSent(chip0, rdsGroups[|rdsGroups| - 1], SystemImage())
    {
      var g := PsGroup(piCode, ptyCode, i / 2, ByteOf(buf[i]), ByteOf(buf[i + 1]));
      ghost var groups0, image0 := rdsGroups, SystemImage();
      SendRDS(g);
      if k > 0 {
        RdsSentOverwrites(chip0, groups0[|groups0| - 1], g, image0, SystemImage());
      }
    }

    /** The loop of sendStationName over a buffer already filled from `sn`. */
    method SendPsGroups(buf: array<char>, sn: string)
      requires Valid() && |sn| <= PSN_SIZE && buf.Length == PSN_SIZE + 1
      requires forall j :: 0 <= j < PSN_SIZE ==> buf[j] == BufferChar(sn, j)
      modifies this`rdsReady, this`chip, this`rdsGroups
      ensures Valid()
      ensures rdsGroups == old(rdsGroups) + PsGroupsUpTo(piCode, ptyCode, sn, PsGroupCount(|sn|))
      ensures rdsReady == ToggledN(old(rdsReady), PsGroupCount(|sn|))
      ensures chip == RdsSent(old(chip), rdsGroups[|rdsGroups| - 1], SystemImage())
    {
      var strLen := |sn| + 1;
      var rdsLen := strLen + strLen % 2;
      ghost var n := PsGroupCount(|sn|);
      assert 1 <= n <= 4 && 2 * (n - 1) < rdsLen && (n == 4 || rdsLen <= 2 * n);
      var i := 0;
      ghost var k := 0;
      while i < rdsLen
        invariant i == 2 * k && k <= n
        invariant Valid()
        invariant rdsGroups == old(rdsGroups) + PsGroupsUpTo(piCode, ptyCode, sn, k)
        invariant rdsReady == ToggledN(old(rdsReady), k)
        invariant k == 0 ==> chip == old(chip)
        invariant k > 0 ==> chip == RdsSent(old(chip), rdsGroups[|rdsGroups| - 1], SystemImage())
      {
        if i >= PSN_SIZE {
          break;
        }
        SendPsSegment(buf, sn, i, k, old(rdsGroups), old(chip));
        i, k := i + 2, k + 1;
      }
      assert k == n;
    }

    /** sendStationName: truncates the name to PSN_SIZE, fills the buffer and
        sends one type 0A group per two bytes. */
    method SendStationName(SN: string)
      requires Valid()
      modifies this`rdsReady, this`chip, this`rdsGroups
      ensures Valid()
      ensures rdsGroups == old(rdsGroups) + StationNameGroups(piCode, ptyCode, SN)
      ensures rdsReady == ToggledN(old(rdsReady), |StationNameGroups(piCode, ptyCode, SN)|)
      ensures chip == RdsSent(old(chip), rdsGroups[|rdsGroups| - 1], SystemImage())
    {
      var sn := SN;
      if |sn| > PSN_SIZE {
        sn := Substring(sn, 0, PSN_SIZE);
      }
      assert sn == Truncate(SN, PSN_SIZE);
      var buf := new char[PSN_SIZE + 1];
      CopyToBuffer(buf, sn);
      SendPsGroups(buf, sn);
    }
    /** One pass of sendRadioText's loop: group k of the text in `buf`. */
    method SendRtSegment(buf: array<char>, rt: string, i: nat, ghost k: nat, ghost sent: seq<Group>,
                         ghost chip0: map<Reg, uint8>)
      requires Valid() && i == 4 * k && k < RADIOTEXT_SIZE / 4 && buf.Length == RADIOTEXT_SIZE + 1
      requires forall j :: 0 <= j < RADIOTEXT_SIZE ==> buf[j] == BufferChar(rt, j)
      requires rdsGroups == sent + RtGroupsUpTo(piCode, ptyCode, rt, k)
      requires k == 0 ==> chip == chip0
      requires k > 0 ==> chip == RdsSent(chip0, rdsGroups[|rdsGroups| - 1], SystemImage())
      modifies this`rdsReady, this`chip, this`rdsGroups
      ensures Valid()
      ensures rdsGroups == sent + RtGroupsUpTo(piCode, ptyCode, rt, k + 1)
      ensures rdsReady == Toggled(old(rdsReady))
      ensures chip == RdsSent(chip0, rdsGroups[|rdsGroups| - 1], SystemImage())
    {
      var g := RtGroup(piCode, ptyCode, i / 4, ByteOf(buf[i]), ByteOf(buf[i + 1]),
                       ByteOf(buf[i + 2]), ByteOf(buf[i + 3]));
      ghost var groups0, image0 := rdsGroups, SystemImage();
      SendRDS(g);
      if k > 0 {
        RdsSentOverwrites(chip0, groups0[|groups0| - 1], g, image0, SystemImage());
      }
    }

    /** The loop of sendRadioText over a buffer already filled from `rt`, as
        written: the index runs while it is below `rds_len` = length + 1 +
        (length + 1) % 4, in steps of 4, and stops at RADIOTEXT_SIZE. */
    method SendRtGroups(buf: array<char>, rt: string)
      requires Valid() && |rt| <= RADIOTEXT_SIZE && buf.Length == RADIOTEXT_SIZE + 1
      requires forall j :: 0 <= j < RADIOTEXT_SIZE ==> buf[j] == BufferChar(rt, j)
      modifies this`rdsReady, this`chip, this`rdsGroups
      ensures Valid()
      ensures rdsGroups == old(rdsGroups) + RtGroupsUpTo(piCode, ptyCode, rt, RtGroupCountAsWritten(|rt|))
      ensures rdsReady == ToggledN(old(rdsReady), RtGroupCountAsWritten(|rt|))
      ensures chip == RdsSent(old(chip), rdsGroups[|rdsGroups| - 1], SystemImage())
    {
      var strLen := |rt| + 1;
      var rdsLen := strLen + strLen % 4;
      ghost var n := RtGroupCountAsWritten(|rt|);
      assert 1 <= n <= 16 && 4 * (n - 1) < rdsLen && (n == 16 || rdsLen <= 4 * n);
      var i := 0;
      ghost var k := 0;
      while i < rdsLen
        invariant i == 4 * k && k <= n
        invariant Valid()
        invariant rdsGroups == old(rdsGroups) + RtGroupsUpTo(piCode, ptyCode, rt, k)
        invariant rdsReady == ToggledN(old(rdsReady), k)
        invariant k == 0 ==> chip == old(chip)
        invariant k > 0 ==> chip == RdsSent(old(chip), rdsGroups[|rdsGroups| - 1], SystemImage())
      {
        if i >= RADIOTEXT_SIZE {
          break;
        }
        SendRtSegment(buf, rt, i, k, old(rdsGroups), old(chip));
        i, k := i + 4, k + 1;
      }
      assert k == n;
    }

    /** sendRadioText: truncates the text to RADIOTEXT_SIZE, fills the buffer
        and sends type 2A groups as the loop above does. */
    method SendRadioText(RT: string)
      requires Valid()
      modifies this`rdsReady, this`chip, this`rdsGroups
      ensures Valid()
      ensures rdsGroups == old(rdsGroups) + RadioTextGroupsAsWritten(piCode, ptyCode, RT)
      ensures rdsReady == ToggledN(old(rdsReady), |RadioTextGroupsAsWritten(piCode, ptyCode, RT)|)
      ensures chip == RdsSent(old(chip), rdsGroups[|rdsGroups| - 1], SystemImage())
    {
      var rt := RT;
      if |rt| > RADIOTEXT_SIZE {
        rt := Substring(rt, 0, RADIOTEXT_SIZE);
      }
      assert rt == Truncate(RT, RADIOTEXT_SIZE);
      var buf := new char[RADIOTEXT_SIZE + 1];
      CopyToBuffer(buf, rt);
      SendRtGroups(buf, rt);
    }
  }
}
