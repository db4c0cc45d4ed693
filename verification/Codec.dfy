/** Message layout (PTPWRd/dep/msg.c): the pack functions write an output buffer in place at fixed
    offsets, the unpack functions read one. Values are big-endian on the wire. */
module Codec {
  import opened CTypes
  import opened Bmc
  import Servo
  import W = WrFsm

  const PACKET_SIZE: nat := 1024
  const ANNOUNCE_LENGTH: uint16 := 64
  const WR_ANNOUNCE_LENGTH: uint16 := 78
  const WR_ANNOUNCE_TLV_LENGTH: uint16 := 10
  const WR_SIGNALING_BASE: uint16 := 48
  const TLV_ORG_EXTENSION: uint16 := 0x0003
  const WR_ORGANIZATION: uint32 := 0x080030
  const WR_MAGIC: uint16 := 0xDEAD
  const WR_VERSION: uint8 := 0x01
  const ANN_SUFFIX: uint16 := 0x2000

  type Packet = b: seq<uint8> | |b| == PACKET_SIZE witness seq(PACKET_SIZE, _ => 0)

  // ---------- words ----------

  function Be16(b: Packet, k: nat): uint16
    requires k + 2 <= PACKET_SIZE
  {
    b[k] as int * 0x100 + b[k + 1]
  }

  function Be32(b: Packet, k: nat): uint32
    requires k + 4 <= PACKET_SIZE
  {
    b[k] as int * 0x100_0000 + b[k + 1] as int * 0x1_0000 + b[k + 2] as int * 0x100 + b[k + 3]
  }

  /** A value read as signed. */
  function Signed16(x: uint16): int16 {
    if x < 0x8000 then x else x - 0x1_0000
  }

  function Signed8(x: uint8): int8 {
    if x < 0x80 then x else x - 0x100
  }

  function Unsigned16(x: int16): uint16 {
    x % 0x1_0000
  }

  ghost predicate SameOutside(b: seq<uint8>, c: seq<uint8>, from: nat, to: nat) {
    |b| == |c| && forall k :: 0 <= k < |b| && !(from <= k < to) ==> b[k] == c[k]
  }

  method PutBe16(buf: array<uint8>, at: nat, x: uint16)
    requires buf.Length == PACKET_SIZE && at + 2 <= PACKET_SIZE
    modifies buf
    ensures Be16(buf[..], at) == x
    ensures SameOutside(old(buf[..]), buf[..], at, at + 2)
  {
    buf[at], buf[at + 1] := x / 0x100, x % 0x100;
  }

  method PutBe32(buf: array<uint8>, at: nat, x: uint32)
    requires buf.Length == PACKET_SIZE && at + 4 <= PACKET_SIZE
    modifies buf
    ensures Be32(buf[..], at) == x
    ensures SameOutside(old(buf[..]), buf[..], at, at + 4)
  {
    buf[at], buf[at + 1], buf[at + 2], buf[at + 3] :=
      x / 0x100_0000, x / 0x1_0000 % 0x100, x / 0x100 % 0x100, x % 0x100;
    Bytes32(x);
  }

  lemma Bytes32(x: uint32)
    ensures x / 0x100_0000 * 0x100_0000 + x / 0x1_0000 % 0x100 * 0x1_0000 + x / 0x100 % 0x100 * 0x100 + x % 0x100 == x
  {
    var a, b := x / 0x100, x / 0x1_0000;
    assert a / 0x100 == b && b / 0x100 == x / 0x100_0000;
  }

  method PutIdentity(buf: array<uint8>, at: nat, id: ClockId)
    requires buf.Length == PACKET_SIZE && at + 8 <= PACKET_SIZE
    modifies buf
    ensures buf[at..at + 8] == id
    ensures SameOutside(old(buf[..]), buf[..], at, at + 8)
  {
    forall k | 0 <= k < 8 {
      buf[at + k] := id[k];
    }
    assert forall k :: 0 <= k < 8 ==> buf[at..at + 8][k] == id[k];
  }

  method PutZeros(buf: array<uint8>, from: nat, to: nat)
    requires buf.Length == PACKET_SIZE && from <= to <= PACKET_SIZE
    modifies buf
    ensures forall k :: from <= k < to ==> buf[k] == 0
    ensures SameOutside(old(buf[..]), buf[..], from, to)
  {
    forall k | from <= k < to {
      buf[k] := 0;
    }
  }

  /** The message type takes the low half of the first byte. */
  method PutType(buf: array<uint8>, messageType: uint8)
    requires buf.Length == PACKET_SIZE && messageType < 16
    modifies buf
    ensures buf[0] == old(buf[0]) / 16 * 16 + messageType
    ensures SameOutside(old(buf[..]), buf[..], 0, 1)
  {
    buf[0] := buf[0] / 16 * 16 + messageType;
  }

  // ---------- header ----------

  /** What every message of a port says about that port. */
  datatype PortHeader = PortHeader(version: uint8, domain: uint8, twoStep: bool, source: PortIdentity)

  datatype Header = Header(messageType: uint8, version: uint8, length: uint16, domain: uint8, twoStep: bool,
                           cfMsb: uint32, cfLsb: uint32, source: PortIdentity, sequenceId: uint16,
                           control: uint8, logInterval: int8)

  function UnpackHeader(b: Packet): Header {
    Header(b[0] % 16, b[1] % 16, Be16(b, 2), b[4], b[6] / 2 % 2 == 1, Be32(b, 8), Be32(b, 12),
           PortIdentity(b[20..28], Be16(b, 28)), Be16(b, 30), b[32], Signed8(b[33]))
  }

  /** The bytes that no message type overwrites. */
  ghost predicate Stamped(b: Packet, h: PortHeader) {
    && b[1] == h.version && b[4] == h.domain && (h.twoStep ==> b[6] == 2)
    && b[20..28] == h.source.clockIdentity && Be16(b, 28) == h.source.portNumber
  }

  method PackHeader(buf: array<uint8>, h: PortHeader)
    requires buf.Length == PACKET_SIZE
    modifies buf
    ensures Stamped(buf[..], h) && buf[0] == 0 && buf[33] == 0x7F
    ensures Be32(buf[..], 8) == 0 && Be32(buf[..], 12) == 0
    ensures !h.twoStep ==> buf[6] == old(buf[6])
    ensures SameOutside(old(buf[..]), buf[..], 0, 34)
  {
    buf[0] := 0;
    buf[1] := h.version;
    buf[4] := h.domain;
    if h.twoStep {
      buf[6] := 2;
    }
    PutZeros(buf, 8, 16);
    PutIdentity(buf, 20, h.source.clockIdentity);
    PutBe16(buf, 28, h.source.portNumber);
    buf[33] := 0x7F;
  }

  // ---------- the White Rabbit TLV ----------

  /** Organization, magic number and version share three 16-bit words. */
  predicate IsWrTlv(b: Packet, at: nat)
    requires at + 10 <= PACKET_SIZE
  {
    && Be16(b, at) == TLV_ORG_EXTENSION
    && Be16(b, at + 4) * 0x100 + Be16(b, at + 6) / 0x100 == WR_ORGANIZATION
    && Be16(b, at + 6) * 0x100 % 0x1_0000 + Be16(b, at + 8) / 0x100 == WR_MAGIC
    && Be16(b, at + 8) % 0x100 == WR_VERSION
  }

  lemma TlvWords(b: Packet, at: nat)
    requires at + 10 <= PACKET_SIZE && Be16(b, at) == TLV_ORG_EXTENSION && Be16(b, at + 4) == 0x0800
    requires Be16(b, at + 6) == 0x30DE && Be16(b, at + 8) == 0xAD01
    ensures IsWrTlv(b, at)
  {
    hide Be16;
  }

  method PutWrTlv(buf: array<uint8>, at: nat)
    requires buf.Length == PACKET_SIZE && at + 10 <= PACKET_SIZE
    modifies buf
    ensures IsWrTlv(buf[..], at)
    ensures SameOutside(old(buf[..]), buf[..], at, at + 10)
  {
    hide IsWrTlv;
    PutBe16(buf, at, TLV_ORG_EXTENSION);
    PutBe16(buf, at + 4, WR_ORGANIZATION / 0x100);
    PutBe16(buf, at + 6, (WR_ORGANIZATION * 0x100 + WR_MAGIC / 0x100) % 0x1_0000);
    PutBe16(buf, at + 8, (WR_MAGIC * 0x100 + WR_VERSION) % 0x1_0000);
    TlvWords(buf[..], at);
  }

  // ---------- Announce ----------

  datatype AnnounceData = AnnounceData(utcOffset: int16, priority1: uint8, quality: ClockQuality, priority2: uint8,
                                       gmIdentity: ClockId, stepsRemoved: uint16, timeSource: uint8)

  /** A received record; its flags are one byte, those on the wire two. */
  datatype AnnounceMsg = AnnounceMsg(data: AnnounceData, wrFlags: uint8)

  function ConfigCode(c: W.WrConfig): uint8 {
    match c
    case NON_WR => 0
    case WR_M_ONLY => 1
    case WR_S_ONLY => 2
    case WR_M_AND_S => 3
  }

  function ConfigOf(code: uint8): W.WrConfig {
    if code == 0 then W.NON_WR else if code == 1 then W.WR_M_ONLY else if code == 2 then W.WR_S_ONLY else W.WR_M_AND_S
  }

  predicate HasSuffix(c: W.WrConfig) {
    c != W.NON_WR && c != W.WR_S_ONLY
  }

  /** What a port says about its White Rabbit side: the configuration in the two lowest bits, then
      whether it is calibrated and whether it runs in WR mode. */
  function WrFlags(w: W.Parent): uint8 {
    ConfigCode(w.wrConfig) + (if w.calibrated then 4 else 0) + (if w.wrModeOn then 8 else 0)
  }

  /** How `s1` reads the flags. */
  function ParentOf(flags: uint8): W.Parent {
    W.Parent(ConfigOf(flags % 4), flags / 8 % 2 == 1, flags / 4 % 2 == 1)
  }

  function UnpackAnnounceBody(b: Packet): AnnounceData {
    AnnounceData(Signed16(Be16(b, 44)), b[47], ClockQuality(b[48], b[49], Be16(b, 50)), b[52], b[53..61],
                 b[61] + b[62] as int * 0x100, b[63])
  }

  /** `msgUnpackAnnounce`; without a valid WR suffix the flags of the record stay what they were. */
  function UnpackAnnounce(b: Packet, before: AnnounceMsg): AnnounceMsg {
    AnnounceMsg(UnpackAnnounceBody(b),
                if Be16(b, 2) > ANNOUNCE_LENGTH && IsWrTlv(b, 64) && Be16(b, 74) == ANN_SUFFIX
                then Be16(b, 76) % 0x100 else before.wrFlags)
  }

  method PackAnnounceBody(buf: array<uint8>, d: AnnounceData)
    requires buf.Length == PACKET_SIZE
    modifies buf
    ensures UnpackAnnounceBody(buf[..]) == d
    ensures forall k :: 34 <= k < 44 ==> buf[k] == 0
    ensures SameOutside(old(buf[..]), buf[..], 34, 64)
  {
    PutZeros(buf, 34, 44);
    PutBe16(buf, 44, Unsigned16(d.utcOffset));
    buf[47], buf[48], buf[49] := d.priority1, d.quality.clockClass, d.quality.clockAccuracy;
    PutBe16(buf, 50, d.quality.variance);
    buf[52] := d.priority2;
    PutIdentity(buf, 53, d.gmIdentity);
    buf[61], buf[62] := d.stepsRemoved % 0x100, d.stepsRemoved / 0x100;
    buf[63] := d.timeSource;
  }

  /** The header and body are read from the bytes written for them alone. */
  lemma HeaderKept(b: Packet, c: Packet, h: PortHeader)
    requires SameOutside(b, c, 34, PACKET_SIZE)
    ensures UnpackHeader(b) == UnpackHeader(c) && (Stamped(b, h) ==> Stamped(c, h))
  {
    assert b[20..28] == c[20..28];
  }

  lemma BodyKept(b: Packet, c: Packet)
    requires SameOutside(b, c, 64, PACKET_SIZE)
    ensures UnpackAnnounceBody(b) == UnpackAnnounceBody(c)
  {
    assert b[53..61] == c[53..61];
  }

  /** What the packer of one message type changes in the header. */
  method PackTypeHeader(buf: array<uint8>, ghost h: PortHeader, messageType: uint8, length: uint16,
                        sequenceId: uint16, logInterval: int8)
    requires buf.Length == PACKET_SIZE && Stamped(buf[..], h) && messageType < 16
    modifies buf
    ensures Stamped(buf[..], h)
    ensures var r := UnpackHeader(buf[..]);
            && r.messageType == messageType && r.length == length && r.control == 0x05
            && r.source == h.source && r.domain == h.domain && r.version == h.version % 16
            && r.sequenceId == sequenceId && r.logInterval == logInterval
            && (h.twoStep ==> r.twoStep)
    ensures SameOutside(old(buf[..]), buf[..], 0, 34)
  {
    PutType(buf, messageType);
    PutBe16(buf, 2, length);
    PutBe16(buf, 30, sequenceId);
    buf[32], buf[33] := 0x05, logInterval % 0x100;
    assert buf[20..28] == old(buf[20..28]);
  }

  /** `msgPackAnnounce`. Unpacking the result yields every field that was packed, whatever the
      receiving record held before, and says who sent it. */
  method PackAnnounce(buf: array<uint8>, ghost h: PortHeader, d: AnnounceData, w: W.Parent,
                      sequenceId: uint16, logInterval: int8)
    requires buf.Length == PACKET_SIZE && Stamped(buf[..], h)
    modifies buf
    ensures Stamped(buf[..], h)
    ensures forall before :: UnpackAnnounce(buf[..], before) ==
                             AnnounceMsg(d, if w.wrConfig in {W.WR_M_ONLY, W.WR_M_AND_S} then WrFlags(w)
                                            else before.wrFlags)
    ensures var r := UnpackHeader(buf[..]);
            && r.messageType == 0x0B && r.control == 0x05
            && r.length == (if w.wrConfig in {W.WR_M_ONLY, W.WR_M_AND_S} then 78 else 64)
            && r.source == h.source && r.domain == h.domain && r.version == h.version % 16
            && r.sequenceId == sequenceId && r.logInterval == logInterval
            && (h.twoStep ==> r.twoStep)
    ensures SameOutside(old(buf[..]), buf[..], 0, 78)
  {
    hide UnpackAnnounceBody, IsWrTlv, WrFlags;
    var length := if HasSuffix(w.wrConfig) then WR_ANNOUNCE_LENGTH else ANNOUNCE_LENGTH;
    PackTypeHeader(buf, h, 0x0B, length, sequenceId, logInterval);
    ghost var afterHeader := buf[..];
    PackAnnounceBody(buf, d);
    ghost var afterBody := buf[..];
    if HasSuffix(w.wrConfig) {
      PackWrSuffix(buf, w);
    }
    HeaderKept(afterHeader, buf[..], h);
    BodyKept(afterBody, buf[..]);
    assert Be16(buf[..], 2) == length by {
      assert UnpackHeader(buf[..]).length == length;
    }
  }

  method PackWrSuffix(buf: array<uint8>, w: W.Parent)
    requires buf.Length == PACKET_SIZE
    modifies buf
    ensures IsWrTlv(buf[..], 64) && Be16(buf[..], 66) == 10
    ensures Be16(buf[..], 74) == 0x2000 && Be16(buf[..], 76) == WrFlags(w)
    ensures SameOutside(old(buf[..]), buf[..], 64, 78)
  {
    PutWrTlv(buf, 64);
    PutBe16(buf, 66, WR_ANNOUNCE_TLV_LENGTH);
    PutBe16(buf, 74, ANN_SUFFIX);
    PutBe16(buf, 76, WrFlags(w));
  }

  /** The flags byte: configuration in the two low bits, then calibrated, then WR mode. */
  lemma FlagsFormat(w: W.Parent)
    ensures var f := WrFlags(w);
            && f < 16 && f % 4 == (match w.wrConfig
                                   case NON_WR => 0
                                   case WR_M_ONLY => 1
                                   case WR_S_ONLY => 2
                                   case WR_M_AND_S => 3)
            && (f / 4 % 2 == 1 <==> w.calibrated) && (f / 8 % 2 == 1 <==> w.wrModeOn)
  {}

  /** A receiver reads these four bits whatever the others are. */
  lemma OtherFlagsIgnored(flags: uint8)
    ensures ParentOf(flags) == ParentOf(flags % 16)
  {
    hide ConfigOf;
    var h, r := flags / 16, flags % 16;
    DivUnique(flags, 4, 4 * h + r / 4, r % 4);
    DivUnique(flags, 8, 2 * h + r / 8, r % 8);
    DivUnique(4 * h + r / 4, 2, 2 * h + r / 4 / 2, r / 4 % 2);
    DivUnique(2 * h + r / 8, 2, h + r / 8 / 2, r / 8 % 2);
  }

  /** The flags tell a receiver exactly the sender's configuration, calibration and mode. */
  lemma FlagsRoundTrip(w: W.Parent)
    ensures ParentOf(WrFlags(w)) == w
  {}

  // ---------- WR signaling ----------

  /** The message identifiers on the wire; a port never sends any other. */
  function MessageId(m: W.WrMsg): uint16
    requires !m.OtherMsg?
  {
    match m
    case SlavePresentMsg => 0x1000
    case LockMsg => 0x1001
    case LockedMsg => 0x1002
    case CalibrateMsg(_, _, _) => 0x1003
    case CalibratedMsg(_, _) => 0x1004
    case WrModeOnMsg => 0x1005
  }

  function TlvLength(m: W.WrMsg): uint16 {
    match m
    case CalibrateMsg(_, _, _) => 20
    case CalibratedMsg(_, _) => 24
    case _ => 8
  }

  function UnpackDelta(b: Packet, k: nat): W.FixedDelta
    requires k + 8 <= PACKET_SIZE
  {
    W.FixedDelta(Be32(b, k), Be32(b, k + 4))
  }

  function UnpackContent(b: Packet, id: uint16): W.WrMsg {
    if id == 0x1000 then W.SlavePresentMsg
    else if id == 0x1001 then W.LockMsg
    else if id == 0x1002 then W.LockedMsg
    else if id == 0x1003 then W.CalibrateMsg(Be16(b, 56) % 0x100, Be16(b, 56) / 0x100, Be32(b, 58))
    else if id == 0x1004 then W.CalibratedMsg(UnpackDelta(b, 56), UnpackDelta(b, 64))
    else if id == 0x1005 then W.WrModeOnMsg
    else W.OtherMsg
  }

  /** `msgUnpackWRSignalingMsg`: None is a message that is not a WR TLV. */
  function UnpackSignaling(b: Packet): Option<W.WrMsg> {
    if IsWrTlv(b, 44) then Some(UnpackContent(b, Be16(b, 54))) else None
  }

  function UnpackTarget(b: Packet): PortIdentity {
    PortIdentity(b[34..42], Be16(b, 42))
  }

  /** The content of the two messages that have one. */
  method PackContent(buf: array<uint8>, m: W.WrMsg)
    requires buf.Length == PACKET_SIZE && !m.OtherMsg?
    modifies buf
    ensures UnpackContent(buf[..], MessageId(m)) == m
    ensures SameOutside(old(buf[..]), buf[..], 56, 72)
  {
    match m {
      case CalibrateMsg(pattern, retry, period) =>
        PutBe16(buf, 56, retry as int * 0x100 + pattern);
        PutBe32(buf, 58, period);
      case CalibratedMsg(tx, rx) =>
        PutBe32(buf, 56, tx.msb);
        PutBe32(buf, 60, tx.lsb);
        PutBe32(buf, 64, rx.msb);
        PutBe32(buf, 68, rx.lsb);
      case _ =>
    }
  }

  method PackTarget(buf: array<uint8>, target: PortIdentity)
    requires buf.Length == PACKET_SIZE
    modifies buf
    ensures UnpackTarget(buf[..]) == target
    ensures SameOutside(old(buf[..]), buf[..], 34, 44)
  {
    PutIdentity(buf, 34, target.clockIdentity);
    PutBe16(buf, 42, target.portNumber);
  }

  /** The sender is stamped on the bytes below 44 other than type, length and control. */
  lemma StampKept(b: Packet, c: Packet, h: PortHeader)
    requires forall k :: 0 < k < 34 && k != 2 && k != 3 && k != 32 ==> b[k] == c[k]
    requires Stamped(b, h)
    ensures Stamped(c, h) && UnpackHeader(c).source == h.source
  {
    assert b[20..28] == c[20..28];
  }

  lemma TargetKept(b: Packet, c: Packet)
    requires forall k :: 34 <= k < 44 ==> b[k] == c[k]
    ensures UnpackTarget(b) == UnpackTarget(c)
  {
    assert b[34..42] == c[34..42];
  }

  lemma SignalingKept(b: Packet, c: Packet)
    requires forall k :: 44 <= k < 72 ==> b[k] == c[k]
    ensures UnpackSignaling(b) == UnpackSignaling(c)
  {}

  /** The TLV: its marks, identifier, content and, last, its length. */
  method PackMessage(buf: array<uint8>, m: W.WrMsg)
    requires buf.Length == PACKET_SIZE && !m.OtherMsg?
    modifies buf
    ensures UnpackSignaling(buf[..]) == Some(m) && Be16(buf[..], 46) == TlvLength(m)
    ensures SameOutside(old(buf[..]), buf[..], 44, 72)
  {
    PutWrTlv(buf, 44);
    PutBe16(buf, 54, MessageId(m));
    PackContent(buf, m);
    ghost var b := buf[..];
    PutBe16(buf, 46, TlvLength(m));
    assert UnpackContent(buf[..], MessageId(m)) == UnpackContent(b, MessageId(m)) == m;
  }

  /** The message that the members of a port make of an identifier it may send. */
  function MessageOf(p: W.Port, id: W.MsgId): (m: W.WrMsg)
    requires !id.NullTlv? && !id.OtherId?
    ensures W.IdOf(m) == id
  {
    match id
    case SlavePresentId => W.SlavePresentMsg
    case LockId => W.LockMsg
    case LockedId => W.LockedMsg
    case CalibrateId => W.CalibrateMsgOf(p)
    case CalibratedId => W.CalibratedMsgOf(p)
    case WrModeOnId => W.WrModeOnMsg
  }

  /** `msgPackWRSignalingMsg`: unpacking the result yields the message of the port, its addressee and
      its sender. Outside of WR mode nothing is packed. */
  method PackSignaling(buf: array<uint8>, ghost h: PortHeader, p: W.Port, target: PortIdentity, id: W.MsgId)
    returns (length: uint16)
    requires buf.Length == PACKET_SIZE && Stamped(buf[..], h) && !id.NullTlv? && !id.OtherId?
    modifies buf
    ensures p.fsm.wrMode.NonWr? ==> length == 0 && buf[..] == old(buf[..])
    ensures !p.fsm.wrMode.NonWr? ==>
              var b, m := buf[..], MessageOf(p, id);
              && UnpackSignaling(b) == Some(m) && UnpackTarget(b) == target
              && length == UnpackHeader(b).length == 48 + Be16(b, 46)
              && Be16(b, 46) == (if m.CalibrateMsg? then 20 else if m.CalibratedMsg? then 24 else 8)
              && UnpackHeader(b).messageType == 0x0C && UnpackHeader(b).control == 0x05
              && UnpackHeader(b).source == h.source && Stamped(b, h)
  {
    hide UnpackSignaling, UnpackContent, IsWrTlv;
    if p.fsm.wrMode.NonWr? {
      return 0;
    }
    var m := MessageOf(p, id);
    PutType(buf, 0x0C);
    buf[32] := 0x05;
    PackTarget(buf, target);
    ghost var withTarget := buf[..];
    PackMessage(buf, m);
    ghost var withMessage := buf[..];
    length := WR_SIGNALING_BASE + TlvLength(m);
    PutBe16(buf, 2, length);
    StampKept(old(buf[..]), buf[..], h);
    TargetKept(withTarget, buf[..]);
    SignalingKept(withMessage, buf[..]);
  }

  // ---------- the bytes on the wire ----------

  /** A White Rabbit TLV is marked by these bytes and no others. */
  lemma TlvFormat(b: Packet, at: nat)
    requires at + 10 <= PACKET_SIZE
    ensures IsWrTlv(b, at) <==>
            b[at..at + 2] == [0x00, 0x03] && b[at + 4..at + 10] == [0x08, 0x00, 0x30, 0xDE, 0xAD, 0x01]
  {
    if IsWrTlv(b, at) {
      assert b[at..at + 2] == [b[at], b[at + 1]];
      var w := b[at + 4..at + 10];
      assert w == [b[at + 4], b[at + 5], b[at + 6], b[at + 7], b[at + 8], b[at + 9]];
      assert b[at + 6] == 0x30 && b[at + 7] == 0xDE && b[at + 8] == 0xAD && b[at + 9] == 0x01;
    } else {
      assert b[at..at + 2] == [b[at], b[at + 1]];
      assert b[at + 4..at + 10] == [b[at + 4], b[at + 5], b[at + 6], b[at + 7], b[at + 8], b[at + 9]];
    }
  }

  /** The bytes of a message after its TLV marks. */
  predicate OnWire(b: Packet, m: W.WrMsg) {
    b[54] == 0x10 &&
    match m
    case SlavePresentMsg => b[55] == 0x00
    case LockMsg => b[55] == 0x01
    case LockedMsg => b[55] == 0x02
    case CalibrateMsg(pattern, retry, period) =>
      b[55] == 0x03 && b[56] == retry && b[57] == pattern && Be32(b, 58) == period
    case CalibratedMsg(tx, rx) =>
      && b[55] == 0x04
      && Be32(b, 56) == tx.msb && Be32(b, 60) == tx.lsb && Be32(b, 64) == rx.msb && Be32(b, 68) == rx.lsb
    case WrModeOnMsg => b[55] == 0x05
    case OtherMsg => false
  }

  /** The fields of the common header lie where section 13.3 of IEEE 1588-2008 puts them; of the flags, only
      the two-step bit is read. */
  lemma HeaderFormat(b: Packet)
    ensures var h := UnpackHeader(b);
            && h.messageType < 16 && (b[0] - h.messageType as int) % 16 == 0 && h.version < 16
            && (b[1] - h.version as int) % 16 == 0
            && b[2] == h.length / 0x100 && b[3] == h.length % 0x100 && b[4] == h.domain
            && (h.twoStep <==> 2 <= b[6] % 4)
            && b[20..28] == h.source.clockIdentity
            && b[28] == h.source.portNumber / 0x100 && b[29] == h.source.portNumber % 0x100
            && b[30] == h.sequenceId / 0x100 && b[31] == h.sequenceId % 0x100
            && b[32] == h.control && b[33] == h.logInterval % 0x100
  {
    assert b[0] - b[0] % 16 == b[0] / 16 * 16 && b[1] - b[1] % 16 == b[1] / 16 * 16;
  }

  /** A packet decodes to one of the six messages exactly when it has the bytes of that message. */
  lemma SignalingFormat(b: Packet, m: W.WrMsg)
    requires !m.OtherMsg?
    ensures UnpackSignaling(b) == Some(m) <==> IsWrTlv(b, 44) && OnWire(b, m)
  {
    hide IsWrTlv;
    assert Be16(b, 54) - b[55] as int == 0x1000 <==> b[54] == 0x10;
    assert Be16(b, 56) / 0x100 == b[56] && Be16(b, 56) % 0x100 == b[57];
  }

  /** The fields of an Announce lie where section 13.5 of IEEE 1588-2008 puts them, but that stepsRemoved
      has its low byte first. */
  lemma AnnounceFormat(b: Packet, d: AnnounceData)
    ensures UnpackAnnounceBody(b) == d <==>
            && b[44] == Unsigned16(d.utcOffset) / 0x100 && b[45] == Unsigned16(d.utcOffset) % 0x100
            && b[47] == d.priority1 && b[48] == d.quality.clockClass && b[49] == d.quality.clockAccuracy
            && b[50] == d.quality.variance / 0x100 && b[51] == d.quality.variance % 0x100
            && b[52] == d.priority2 && b[53..61] == d.gmIdentity
            && b[61] == d.stepsRemoved % 0x100 && b[62] == d.stepsRemoved / 0x100 && b[63] == d.timeSource
  {
    var r := UnpackAnnounceBody(b);
    assert Be16(b, 44) / 0x100 == b[44] && Be16(b, 44) % 0x100 == b[45];
    assert Be16(b, 50) / 0x100 == b[50] && Be16(b, 50) % 0x100 == b[51];
    assert Unsigned16(r.utcOffset) == Be16(b, 44);
  }

  // ---------- end to end ----------

  /** Fixed delays are measured in picoseconds, scaled, sent in CALIBRATED and read by
      `wr_servo_init` of the peer: each arrives unchanged exactly when it is below 2^31 ps. */
  lemma FixedDelaysArrive(tx: uint64, rx: uint64, b: Packet, p: W.Port)
    requires UnpackSignaling(b) == Some(W.CalibratedMsg(W.SplitDelta(tx), W.SplitDelta(rx)))
    ensures var q := W.Accept(p, UnpackSignaling(b).value);
            && (Servo.JoinDelta(q.cal.otherDeltaTx) == tx <==> tx < 0x8000_0000)
            && (Servo.JoinDelta(q.cal.otherDeltaRx) == rx <==> rx < 0x8000_0000)
  {
    Servo.DeltaSurvives(tx);
    Servo.DeltaSurvives(rx);
  }

  /** `phase_to_cf_units`: picoseconds to units of 2^-16 ns, kept in 32 bits. */
  function PhaseToCf(phase: int32): int32 {
    ToInt32(TruncDiv(phase * 65536, 1000))
  }

  /** 28 * 8192 leaves 1 modulo 125. */
  lemma MultipleOf125(p: int, c: int)
    requires 8192 * p == 125 * c
    ensures p % 125 == 0
  {
    assert p == 125 * (28 * c - 1835 * p);
  }

  /** The way back from c, the floor of 8192 p / 125. */
  lemma PhaseBack(p: int, c: int, r: int)
    requires 8192 * p == 125 * c + r && 0 <= r < 125
    ensures 125 * c / 8192 == (if r == 0 then p else p - 1)
    ensures r == 0 <==> p % 125 == 0
  {
    if r == 0 {
      MultipleOf125(p, c);
    } else {
      DivUnique(125 * c, 8192, p - 1, 8192 - r);
      if p % 125 == 0 {
        SmallMultiple(8192 * (p / 125) - c, 125);
      }
    }
  }

  /** A phase sent through the correction field loses at most one picosecond, and none exactly
      when it is a multiple of 125 ps. */
  lemma PhaseThroughCf(p: int32)
    requires 0 <= p <= 32767999
    ensures var q := Servo.CfToPhase(PhaseToCf(p));
            && (q == p || q == p - 1)
            && (q == p <==> p % 125 == 0)
  {
    var c := p * 65536 / 1000;
    assert PhaseToCf(p) == c;
    assert c * 1000 / 65536 == 125 * c / 8192;
    PhaseBack(p, c, 8192 * p - 125 * c);
  }

  /** From 32 768 ns on, the correction field overflows and another phase arrives. */
  lemma LongPhaseIsLost(p: int32)
    requires 32767999 < p
    ensures Servo.CfToPhase(PhaseToCf(p)) < p - 1
  {
    var c := p * 65536 / 1000;
    assert c >= 0x8000_0000;
    assert PhaseToCf(p) <= c - TWO32;
  }
}
