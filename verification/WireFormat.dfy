/** The wire format in plain bytes: where each field of a datagram lies, the constants that go out,
    and which datagrams are turned down as what. */
module WireFormat {
  import opened Common
  import opened BigEndian
  import opened Packets
  import opened Serializer
  import Crc32

  /** The bytes [from, to) of a datagram, most significant first. */
  function Field(d: seq<byte>, from: nat, to: nat): nat
    requires from <= to <= |d|
  {
    ReadBe(d[from..to])
  }

  /** Every field of a datagram that is sent, at its place, in network byte order. */
  lemma Layout(h: Header, payload: seq<byte>)
    requires |payload| <= 65535
    ensures var d := Encode(h, payload);
            && |d| == 40 + |payload| && d[40..] == payload
            && Field(d, 0, 4) == h.magic && Field(d, 4, 5) == h.version && Field(d, 6, 8) == h.headerLength
            && Field(d, 8, 16) == h.sessionId && Field(d, 16, 20) == h.sequenceNumber
            && Field(d, 20, 24) == h.acknowledgementNumber && Field(d, 24, 32) == h.byteOffset
            && Field(d, 32, 34) == |payload| && Field(d, 34, 36) == h.flags
            && Field(d, 5, 6) == (match h.packetType
                                  case Start => 1
                                  case StartAck => 2
                                  case Data => 3
                                  case Ack => 4
                                  case Fin => 5
                                  case FinAck => 6
                                  case ErrorPacket => 7)
  {
    var d := Encode(h, payload);
    var front := Front(h, |payload|);
    var sum := WordBytes(ChecksumOf(h, payload));
    hide Front, WordBytes, ChecksumOf, ReadBe;
    Pieces(front, sum, payload);
    ReadFront(d, h, |payload|);
  }

  /** The checksum field holds the CRC of the datagram with that field blank. */
  lemma ChecksumField(h: Header, payload: seq<byte>)
    requires |payload| <= 65535
    ensures var d := Encode(h, payload);
            |d| >= 40 && ReadWord(d[36..40]) == Crc32.Crc(d[..36] + [0, 0, 0, 0] + d[40..])
  {
    var front := Front(h, |payload|);
    var crc := ChecksumOf(h, payload);
    var sum := WordBytes(crc);
    hide Front, WordBytes, ReadWord, Crc32.Crc;
    Pieces(front, sum, payload);
    ReadWordBytes(crc);
  }

  lemma Longest(h: Header, payload: seq<byte>)
    ensures Encode(h, payload) == [] <==> |payload| > 65535
  {
    hide Front, WordBytes, ChecksumOf;
  }

  /** What every datagram of the two drivers begins with: "SWLK", version 1, the packet type, and
      a header length of 40; the flags are zero. */
  lemma Preamble(t: PacketType, sessionId: uint64, sequence: uint32, ack: uint32, offset: uint64, payload: seq<byte>)
    requires |payload| <= 65535
    ensures var d := Encode(MakeHeader(t, sessionId, sequence, ack, offset), payload);
            && |d| >= 40 && d[0..4] == [0x53, 0x57, 0x4C, 0x4B] && d[4..5] == [1]
            && d[6..8] == [0, 40] && d[34..36] == [0, 0]
            && Field(d, 8, 16) == sessionId && Field(d, 16, 20) == sequence && Field(d, 20, 24) == ack
            && Field(d, 24, 32) == offset
  {
    var h := MakeHeader(t, sessionId, sequence, ack, offset);
    var d := Encode(h, payload);
    hide Encode, ReadBe, WriteBe;
    Layout(h, payload);
    WriteAfterRead(d[0..4]);
    WriteAfterRead(d[4..5]);
    WriteAfterRead(d[6..8]);
    WriteAfterRead(d[34..36]);
    Constants();
  }

  lemma Constants()
    ensures WriteBe(MAGIC, 4) == [0x53, 0x57, 0x4C, 0x4B] && WriteBe(VERSION, 1) == [1]
    ensures WriteBe(HEADER_WIRE_SIZE, 2) == [0, 40] && WriteBe(0, 2) == [0, 0]
  {
    hide WriteBe, ToByte;
    assert WriteBe(0, 0) == [] by { WriteNone(); }
    WriteLast(MAGIC, 3);
    WriteLast(0x53574C, 2);
    WriteLast(0x5357, 1);
    WriteLast(0x53, 0);
    WriteLast(VERSION, 0);
    WriteLast(HEADER_WIRE_SIZE, 1);
    WriteLast(0, 1);
    WriteLast(0, 0);
    ConstantBytes();
  }

  lemma WriteNone()
    ensures WriteBe(0, 0) == []
  {
  }

  lemma ConstantBytes()
    ensures ToByte(0x53) == 0x53 && ToByte(0x57) == 0x57 && ToByte(0x4C) == 0x4C && ToByte(0x4B) == 0x4B
    ensures ToByte(0) == 0 && ToByte(1) == 1 && ToByte(40) == 40
  {
  }

  // ------------------------------------------------------------------------
  // What is turned down as what
  // ------------------------------------------------------------------------

  /** The first check that a datagram fails, from its length to its checksum; None if it passes
      them all. */
  function FirstFault(b: seq<byte>): Option<DecodeError> {
    if |b| < 40 then Some(BufferTooSmall)
    else if b[0..4] != [0x53, 0x57, 0x4C, 0x4B] then Some(BadMagic)
    else if b[4] != 1 then Some(UnsupportedVersion)
    else if b[5] == 0 || b[5] > 7 then Some(UnknownPacketType)
    else if b[6..8] != [0, 40] then Some(BadHeaderLength)
    else if Field(b, 32, 34) != |b| - 40 then Some(PayloadLengthMismatch)
    else if Crc32.Crc(b[..36] + [0, 0, 0, 0] + b[40..]) != ReadWord(b[36..40]) then Some(ChecksumMismatch)
    else None
  }

  lemma MagicBytes(b: seq<byte>)
    requires |b| >= 40
    ensures Read32(b, 0) == MAGIC <==> b[0..4] == [0x53, 0x57, 0x4C, 0x4B]
    ensures Read16(b, 6) == HEADER_WIRE_SIZE <==> b[6..8] == [0, 40]
  {
    hide WriteBe, ReadBe;
    Constants();
    Capacities();
    WriteAfterRead(b[0..4]);
    ReadAfterWrite(MAGIC, 4);
    WriteAfterRead(b[6..8]);
    ReadAfterWrite(HEADER_WIRE_SIZE, 2);
  }

  lemma OneByte(b: seq<byte>, at: nat)
    requires at < |b|
    ensures Read8(b, at) == FromByte(b[at])
  {
    var s := b[at..at + 1];
    assert s[..0] == [] && ReadBe(s) == ReadBe(s[..0]) * 256 + FromByte(s[0]);
  }

  lemma TypeBytes(x: byte)
    ensures TypeOf(FromByte(x)).None? <==> x == 0 || x > 7
    ensures FromByte(x) == 1 <==> x == 1
  {
  }

  lemma Blanked(b: seq<byte>)
    requires |b| >= 40
    ensures Crc32.Zeroed(b, CHECKSUM_AT) == b[..36] + [0, 0, 0, 0] + b[40..]
  {
    var z := b[..36] + [0, 0, 0, 0] + b[40..];
    forall i | 0 <= i < |b| ensures Crc32.Zeroed(b, CHECKSUM_AT)[i] == z[i] {
    }
  }

  /** A datagram is accepted if it passes every check, and otherwise turned down for the first
      that it fails. */
  lemma DecodeErrors(b: seq<byte>)
    ensures match Decode(b)
            case Ok(_) => FirstFault(b) == None
            case Err(e) => FirstFault(b) == Some(e)
  {
    hide ReadBe, Crc32.Crc, Crc32.Zeroed, ReadWord, TypeOf, HeaderAt;
    if |b| >= 40 {
      MagicBytes(b);
      OneByte(b, 4);
      OneByte(b, 5);
      TypeBytes(b[4]);
      TypeBytes(b[5]);
      Blanked(b);
    }
  }

  /** The status bytes that an ERROR packet can carry. */
  lemma StatusCodes()
    ensures StatusByte(StatusOk) == 0 && StatusByte(StatusUnsupportedVersion) == 1
    ensures StatusByte(InvalidFilename) == 2 && StatusByte(FileOpenFailed) == 3
    ensures StatusByte(IntegrityCheckFailed) == 4 && StatusByte(SizeMismatch) == 5
    ensures StatusByte(UnknownSession) == 6 && StatusByte(InternalError) == 7 && StatusByte(ServerBusy) == 8
  {
  }
}
