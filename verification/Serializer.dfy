/** The wire format of src/protocol/serializer.cpp: a printer, a strict parser, and the
    proof that each undoes the other and that corruption does not get past the parser. */
module Serializer {
  import opened Common
  import opened Packets
  import opened BigEndian
  import Crc32

  const CHECKSUM_AT: nat := 36

  // ------------------------------------------------------------------------
  // The printer
  // ------------------------------------------------------------------------

  /** The 36 header bytes in front of the checksum. */
  function Front(h: Header, length: uint16): (s: seq<byte>)
    ensures |s| == CHECKSUM_AT
  {
    WriteBe(h.magic, 4) + WriteBe(h.version, 1) + WriteBe(TypeCode(h.packetType), 1) +
    WriteBe(h.headerLength, 2) + WriteBe(h.sessionId, 8) + WriteBe(h.sequenceNumber, 4) +
    WriteBe(h.acknowledgementNumber, 4) + WriteBe(h.byteOffset, 8) + WriteBe(length, 2) +
    WriteBe(h.flags, 2)
  }

  const BLANK: seq<byte> := [0, 0, 0, 0]

  /** The checksum that belongs to a packet: taken with its own field blank. */
  function ChecksumOf(h: Header, payload: seq<byte>): bv32
    requires |payload| <= MAX_PAYLOAD_SIZE
  {
    Crc32.Crc(Front(h, |payload|) + BLANK + payload)
  }

  /** What serialize returns; empty when the payload cannot be described by the format. */
  function Encode(h: Header, payload: seq<byte>): seq<byte> {
    if |payload| > MAX_PAYLOAD_SIZE then []
    else Front(h, |payload|) + WordBytes(ChecksumOf(h, payload)) + payload
  }

  method WriteBe8(out: array<byte>, at: nat, value: uint8)
    requires at < out.Length
    modifies out
    ensures out[..at + 1] == old(out[..at]) + WriteBe(value, 1)
    ensures out[at + 1..] == old(out[at + 1..])
  {
    out[at] := ToByte(value);
    assert out[..at] == old(out[..at]);
    assert WriteBe(value, 1) == WriteBe(value / 256, 0) + [ToByte(value)];
  }

  method WriteBe16(out: array<byte>, at: nat, value: uint16)
    requires at + 2 <= out.Length
    modifies out
    ensures out[..at + 2] == old(out[..at]) + WriteBe(value, 2)
    ensures out[at + 2..] == old(out[at + 2..])
  {
    hide ByteAt;
    out[at] := ByteAt(value, 1);
    out[at + 1] := ByteAt(value, 0);
    assert out[..at] == old(out[..at]);
    WriteBeAt(value, 2, 0);
    WriteBeAt(value, 2, 1);
  }

  method WriteBe32(out: array<byte>, at: nat, value: uint32)
    requires at + 4 <= out.Length
    modifies out
    ensures out[..at + 4] == old(out[..at]) + WriteBe(value, 4)
    ensures out[at + 4..] == old(out[at + 4..])
  {
    hide ByteAt;
    out[at] := ByteAt(value, 3);
    out[at + 1] := ByteAt(value, 2);
    out[at + 2] := ByteAt(value, 1);
    out[at + 3] := ByteAt(value, 0);
    assert out[..at] == old(out[..at]);
    forall i | 0 <= i < 4 ensures WriteBe(value, 4)[i] == out[at + i] {
      WriteBeAt(value, 4, i);
    }
    assert out[at..at + 4] == WriteBe(value, 4);
    assert out[..at + 4] == out[..at] + out[at..at + 4];
  }

  method WriteBe64(out: array<byte>, at: nat, value: uint64)
    requires at + 8 <= out.Length
    modifies out
    ensures out[..at + 8] == old(out[..at]) + WriteBe(value, 8)
    ensures out[at + 8..] == old(out[at + 8..])
  {
    hide ByteAt, WriteBe;
    for i := 0 to 8
      invariant out[..at] == old(out[..at]) && out[at + 8..] == old(out[at + 8..])
      invariant forall k :: 0 <= k < i ==> out[at + k] == WriteBe(value, 8)[k]
    {
      WriteBeAt(value, 8, i);
      out[at + i] := ByteAt(value, 7 - i);
    }
    assert out[at..at + 8] == WriteBe(value, 8);
    assert out[..at + 8] == out[..at] + out[at..at + 8];
  }

  method WriteChecksum(out: array<byte>, value: bv32)
    requires CHECKSUM_AT + 4 <= out.Length
    modifies out
    ensures out[..] == old(out[..CHECKSUM_AT]) + WordBytes(value) + old(out[CHECKSUM_AT + 4..])
  {
    var b := WordBytes(value);
    hide WordBytes;
    out[CHECKSUM_AT] := b[0];
    out[CHECKSUM_AT + 1] := b[1];
    out[CHECKSUM_AT + 2] := b[2];
    out[CHECKSUM_AT + 3] := b[3];
    assert out[CHECKSUM_AT..CHECKSUM_AT + 4] == b;
    assert out[..] == out[..CHECKSUM_AT] + out[CHECKSUM_AT..CHECKSUM_AT + 4] + out[CHECKSUM_AT + 4..];
  }

  lemma ZeroedFront(front: seq<byte>, sum: seq<byte>, payload: seq<byte>)
    requires |front| == CHECKSUM_AT && |sum| == 4
    ensures Crc32.Zeroed(front + sum + payload, CHECKSUM_AT) == front + BLANK + payload
  {
    var z := Crc32.Zeroed(front + sum + payload, CHECKSUM_AT);
    var w := front + BLANK + payload;
    forall i | 0 <= i < |z| ensures z[i] == w[i] {
    }
  }

  method WriteFront(buffer: array<byte>, h: Header, length: uint16)
    requires buffer.Length >= 40
    modifies buffer
    ensures buffer[..CHECKSUM_AT] == Front(h, length)
  {
    hide WriteBe, ToByte;
    WriteBe32(buffer, 0, h.magic);
    WriteBe8(buffer, 4, h.version);
    WriteBe8(buffer, 5, TypeCode(h.packetType));
    WriteBe16(buffer, 6, h.headerLength);
    WriteBe64(buffer, 8, h.sessionId);
    WriteBe32(buffer, 16, h.sequenceNumber);
    WriteBe32(buffer, 20, h.acknowledgementNumber);
    WriteBe64(buffer, 24, h.byteOffset);
    WriteBe16(buffer, 32, length);
    WriteBe16(buffer, 34, h.flags);
  }

  method CopyPayload(buffer: array<byte>, payload: seq<byte>)
    requires buffer.Length == 40 + |payload|
    modifies buffer
    ensures buffer[..] == old(buffer[..40]) + payload
  {
    forall i | 0 <= i < |payload| {
      buffer[40 + i] := payload[i];
    }
    assert buffer[..40] == old(buffer[..40]);
    assert buffer[40..] == payload;
    assert buffer[..] == buffer[..40] + buffer[40..];
  }

  /** The last step: fill in the checksum of everything else. */
  method Seal(buffer: array<byte>, ghost front: seq<byte>, ghost payload: seq<byte>)
    requires buffer[..] == front + WordBytes(0) + payload && |front| == CHECKSUM_AT
    modifies buffer
    ensures buffer[..] == front + WordBytes(Crc32.Crc(front + BLANK + payload)) + payload
  {
    hide WordBytes, Crc32.Crc, Crc32.Zeroed;
    ZeroedFront(front, WordBytes(0), payload);
    var crc := Crc32.ComputeCrcExcludingChecksum(buffer[..], CHECKSUM_AT);
    WriteChecksum(buffer, crc);
  }

  method Serialize(h: Header, payload: seq<byte>) returns (buffer: array<byte>)
    ensures fresh(buffer)
    ensures buffer[..] == Encode(h, payload)
  {
    if |payload| > MAX_PAYLOAD_SIZE {
      buffer := new byte[0];
      return;
    }
    hide WriteBe, ToByte, WordBytes, Crc32.Crc, Crc32.Zeroed, Front;
    buffer := new byte[40 + |payload|];
    WriteFront(buffer, h, |payload|);
    WriteChecksum(buffer, 0);
    CopyPayload(buffer, payload);
    Seal(buffer, Front(h, |payload|), payload);
  }

  // ------------------------------------------------------------------------
  // The parser
  // ------------------------------------------------------------------------

  function Read8(b: seq<byte>, at: nat): uint8
    requires at + 1 <= |b|
  {
    Capacities();
    ReadBeBound(b[at..at + 1]);
    ReadBe(b[at..at + 1])
  }

  function Read16(b: seq<byte>, at: nat): uint16
    requires at + 2 <= |b|
  {
    Capacities();
    ReadBeBound(b[at..at + 2]);
    ReadBe(b[at..at + 2])
  }

  function Read32(b: seq<byte>, at: nat): uint32
    requires at + 4 <= |b|
  {
    Capacities();
    ReadBeBound(b[at..at + 4]);
    ReadBe(b[at..at + 4])
  }

  function Read64(b: seq<byte>, at: nat): uint64
    requires at + 8 <= |b|
  {
    Capacities();
    ReadBeBound(b[at..at + 8]);
    ReadBe(b[at..at + 8])
  }

  function HeaderAt(b: seq<byte>, t: PacketType): Header
    requires |b| >= 40
  {
    Header(Read32(b, 0), Read8(b, 4), t, Read16(b, 6), Read64(b, 8), Read32(b, 16), Read32(b, 20),
           Read64(b, 24), Read16(b, 32), Read16(b, 34), ReadWord(b[36..40]))
  }

  /** deserialize: the first field that does not fit decides the error. */
  function Decode(b: seq<byte>): Result<Packet, DecodeError> {
    if |b| < 40 then Err(BufferTooSmall)
    else if Read32(b, 0) != MAGIC then Err(BadMagic)
    else if Read8(b, 4) != VERSION then Err(UnsupportedVersion)
    else match TypeOf(Read8(b, 5))
      case None => Err(UnknownPacketType)
      case Some(t) =>
        if Read16(b, 6) != HEADER_WIRE_SIZE then Err(BadHeaderLength)
        else if |b| - 40 != Read16(b, 32) then Err(PayloadLengthMismatch)
        else if Crc32.Crc(Crc32.Zeroed(b, CHECKSUM_AT)) != ReadWord(b[36..40]) then Err(ChecksumMismatch)
        else Ok(Packet(HeaderAt(b, t), b[40..]))
  }

  // ------------------------------------------------------------------------
  // Printer and parser are mutual inverses
  // ------------------------------------------------------------------------

  /** What a caller must leave at its default for the packet to be readable. */
  predicate ValidHeader(h: Header) {
    h.magic == MAGIC && h.version == VERSION && h.headerLength == HEADER_WIRE_SIZE
  }

  /** The packet a reader gets: the header with length and checksum filled in. */
  function Sent(h: Header, payload: seq<byte>): Packet
    requires |payload| <= MAX_PAYLOAD_SIZE
  {
    Packet(h.(payloadLength := |payload|, checksum := ChecksumOf(h, payload)), payload)
  }

  lemma FrontFields(h: Header, length: uint16)
    ensures var f := Front(h, length);
            && f[0..4] == WriteBe(h.magic, 4)
            && f[4..5] == WriteBe(h.version, 1)
            && f[5..6] == WriteBe(TypeCode(h.packetType), 1)
            && f[6..8] == WriteBe(h.headerLength, 2)
            && f[8..16] == WriteBe(h.sessionId, 8)
            && f[16..20] == WriteBe(h.sequenceNumber, 4)
            && f[20..24] == WriteBe(h.acknowledgementNumber, 4)
            && f[24..32] == WriteBe(h.byteOffset, 8)
            && f[32..34] == WriteBe(length, 2)
            && f[34..36] == WriteBe(h.flags, 2)
  {
    hide WriteBe;
  }

  lemma ReadFront(b: seq<byte>, h: Header, length: uint16)
    requires |b| >= 40 && b[..36] == Front(h, length)
    ensures Read32(b, 0) == h.magic && Read8(b, 4) == h.version
    ensures Read8(b, 5) == TypeCode(h.packetType) && Read16(b, 6) == h.headerLength
    ensures Read64(b, 8) == h.sessionId && Read32(b, 16) == h.sequenceNumber
    ensures Read32(b, 20) == h.acknowledgementNumber && Read64(b, 24) == h.byteOffset
    ensures Read16(b, 32) == length && Read16(b, 34) == h.flags
  {
    FrontFields(h, length);
    Capacities();
    var f := Front(h, length);
    hide WriteBe, Front;
    assert forall i, j :: 0 <= i <= j <= 36 ==> b[i..j] == f[i..j];
    ReadAfterWrite(h.magic, 4);
    ReadAfterWrite(h.version, 1);
    ReadAfterWrite(TypeCode(h.packetType), 1);
    ReadAfterWrite(h.headerLength, 2);
    ReadAfterWrite(h.sessionId, 8);
    ReadAfterWrite(h.sequenceNumber, 4);
    ReadAfterWrite(h.acknowledgementNumber, 4);
    ReadAfterWrite(h.byteOffset, 8);
    ReadAfterWrite(length, 2);
    ReadAfterWrite(h.flags, 2);
  }

  lemma Pieces(front: seq<byte>, sum: seq<byte>, payload: seq<byte>)
    requires |front| == CHECKSUM_AT && |sum| == 4
    ensures var b := front + sum + payload;
            |b| == 40 + |payload| && b[..36] == front && b[36..40] == sum && b[40..] == payload
  {
  }

  lemma DecodeEncodeHeader(b: seq<byte>, h: Header, payload: seq<byte>, sum: bv32)
    requires |payload| <= MAX_PAYLOAD_SIZE
    requires |b| >= 40 && b[..36] == Front(h, |payload|) && b[36..40] == WordBytes(sum)
    ensures HeaderAt(b, h.packetType) == h.(payloadLength := |payload|, checksum := sum)
  {
    hide WriteBe, Front, WordBytes, ReadWord, Read8, Read16, Read32, Read64;
    ReadFront(b, h, |payload|);
    ReadWordBytes(sum);
  }

  lemma Accepts(b: seq<byte>, t: PacketType)
    requires |b| >= 40 && Read32(b, 0) == MAGIC && Read8(b, 4) == VERSION
    requires Read8(b, 5) == TypeCode(t) && Read16(b, 6) == HEADER_WIRE_SIZE && Read16(b, 32) == |b| - 40
    requires Crc32.Crc(Crc32.Zeroed(b, CHECKSUM_AT)) == ReadWord(b[36..40])
    ensures Decode(b) == Ok(Packet(HeaderAt(b, t), b[40..]))
  {
    hide ReadWord, Crc32.Crc, Crc32.Zeroed, Read8, Read16, Read32, Read64, HeaderAt;
  }

  /** Every valid header and payload decodes to itself, length and checksum filled in. */
  lemma DecodeEncode(h: Header, payload: seq<byte>)
    requires ValidHeader(h) && |payload| <= MAX_PAYLOAD_SIZE
    ensures Decode(Encode(h, payload)) == Ok(Sent(h, payload))
  {
    var b := Encode(h, payload);
    var front := Front(h, |payload|);
    var crc := ChecksumOf(h, payload);
    var sum := WordBytes(crc);
    hide WriteBe, Front, WordBytes, ReadWord, Crc32.Crc, Crc32.Zeroed, Read8, Read16, Read32, Read64,
      HeaderAt;
    Pieces(front, sum, payload);
    ReadFront(b, h, |payload|);
    ZeroedFront(front, sum, payload);
    ReadWordBytes(crc);
    DecodeEncodeHeader(b, h, payload, crc);
    hide Decode;
    Accepts(b, h.packetType);
  }

  lemma FrontOfFields(b: seq<byte>, t: PacketType)
    requires |b| >= 40 && Read8(b, 5) == TypeCode(t)
    ensures Front(HeaderAt(b, t), Read16(b, 32)) == b[..36]
  {
    hide WriteBe, ReadBe;
    WriteAfterRead(b[0..4]);
    WriteAfterRead(b[4..5]);
    WriteAfterRead(b[5..6]);
    WriteAfterRead(b[6..8]);
    WriteAfterRead(b[8..16]);
    WriteAfterRead(b[16..20]);
    WriteAfterRead(b[20..24]);
    WriteAfterRead(b[24..32]);
    WriteAfterRead(b[32..34]);
    WriteAfterRead(b[34..36]);
    assert b[..36] == b[0..4] + b[4..5] + b[5..6] + b[6..8] + b[8..16] + b[16..20] + b[20..24] +
                      b[24..32] + b[32..34] + b[34..36];
  }

  lemma Reassemble(b: seq<byte>)
    requires |b| >= 40
    ensures b == b[..36] + b[36..40] + b[40..]
  {
  }

  lemma AcceptedFields(b: seq<byte>)
    requires Decode(b).Ok?
    ensures |b| >= 40
    ensures var p := Decode(b).value;
            var t := p.header.packetType;
            && p == Packet(HeaderAt(b, t), b[40..]) && ValidHeader(p.header)
            && Read8(b, 5) == TypeCode(t) && Read16(b, 32) == |p.payload|
            && Crc32.Crc(Crc32.Zeroed(b, CHECKSUM_AT)) == ReadWord(b[36..40])
  {
    hide ReadWord, Crc32.Crc, Crc32.Zeroed, Read8, Read16, Read32, Read64;
  }

  /** Every accepted datagram re-serializes to the same bytes, and only valid headers decode. */
  lemma EncodeDecode(b: seq<byte>)
    requires Decode(b).Ok?
    ensures var p := Decode(b).value;
            && ValidHeader(p.header) && |p.payload| <= MAX_PAYLOAD_SIZE
            && Encode(p.header, p.payload) == b
  {
    AcceptedFields(b);
    hide WriteBe, Front, WordBytes, ReadWord, Crc32.Crc, Crc32.Zeroed, Read8, Read16, Read32, Read64,
      HeaderAt, Decode;
    var p := Decode(b).value;
    FrontOfFields(b, p.header.packetType);
    Reassemble(b);
    ZeroedFront(b[..36], b[36..40], p.payload);
    WordBytesOfRead(b[36..40]);
  }

  /** The parser accepts exactly what the printer produces from valid headers. */
  lemma AcceptedIsPrinted(b: seq<byte>)
    ensures Decode(b).Ok? <==>
            exists h: Header, payload: seq<byte> ::
              ValidHeader(h) && |payload| <= MAX_PAYLOAD_SIZE && Encode(h, payload) == b
  {
    hide Decode, Encode;
    if Decode(b).Ok? {
      EncodeDecode(b);
    }
    if h: Header, payload: seq<byte> :|
      ValidHeader(h) && |payload| <= MAX_PAYLOAD_SIZE && Encode(h, payload) == b
    {
      DecodeEncode(h, payload);
    }
  }

  // ------------------------------------------------------------------------
  // Corruption does not get past the parser
  // ------------------------------------------------------------------------

  /** `c` differs from `b` at most in the `length` bytes from `at`. */
  ghost predicate Burst(b: seq<byte>, c: seq<byte>, at: nat, length: nat) {
    && |b| == |c| && at + length <= |b|
    && forall i :: 0 <= i < |b| && !(at <= i < at + length) ==> b[i] == c[i]
  }

  lemma BurstSplits(b: seq<byte>, c: seq<byte>, at: nat, length: nat)
    requires Burst(b, c, at, length)
    ensures b == b[..at] + b[at..at + length] + b[at + length..]
    ensures c == b[..at] + c[at..at + length] + b[at + length..]
  {
  }

  lemma ChecksumBurst(b: seq<byte>, c: seq<byte>, at: nat, length: nat)
    requires |b| >= 40 && Burst(b, c, at, length) && 36 <= at && at + length <= 40
    ensures Crc32.Zeroed(b, CHECKSUM_AT) == Crc32.Zeroed(c, CHECKSUM_AT)
    ensures b[36..40] == c[36..40] ==> b == c
  {
    assert forall i :: 0 <= i < 4 ==> b[36..40][i] == b[36 + i] && c[36..40][i] == c[36 + i];
    if b[36..40] == c[36..40] {
      forall i | 0 <= i < |b| ensures b[i] == c[i] {
        if 36 <= i < 40 {
          assert b[36..40][i - 36] == c[36..40][i - 36];
        }
      }
    }
  }

  lemma CoveredBurst(b: seq<byte>, c: seq<byte>, at: nat, length: nat)
    requires |b| >= 40 && Burst(b, c, at, length) && (at + length <= 36 || 40 <= at)
    ensures b[36..40] == c[36..40]
    ensures Burst(Crc32.Zeroed(b, CHECKSUM_AT), Crc32.Zeroed(c, CHECKSUM_AT), at, length)
    ensures b != c ==>
              Crc32.Zeroed(b, CHECKSUM_AT)[at..at + length] != Crc32.Zeroed(c, CHECKSUM_AT)[at..at + length]
  {
    var y := Crc32.Zeroed(b, CHECKSUM_AT);
    var z := Crc32.Zeroed(c, CHECKSUM_AT);
    if b != c {
      var i :| 0 <= i < |b| && b[i] != c[i];
      assert y[at..at + length][i - at] == b[i] && z[at..at + length][i - at] == c[i];
    }
  }

  /** A datagram that decodes stops decoding when up to four consecutive bytes of it change,
      all inside or all outside the checksum field. Its length is not bounded. */
  lemma BurstRejected(b: seq<byte>, c: seq<byte>, at: nat, length: nat)
    requires Decode(b).Ok? && b != c && length <= 4 && Burst(b, c, at, length)
    requires at + length <= 36 || 40 <= at || (36 <= at && at + length <= 40)
    ensures Decode(c).Err?
  {
    AcceptedFields(b);
    if Decode(c).Ok? {
      AcceptedFields(c);
      hide Decode, ReadWord, WordBytes, Crc32.Crc, Crc32.Zeroed;
      if 36 <= at && at + length <= 40 {
        ChecksumBurst(b, c, at, length);
        WordBytesOfRead(b[36..40]);
        WordBytesOfRead(c[36..40]);
      } else {
        CoveredBurst(b, c, at, length);
        var y := Crc32.Zeroed(b, CHECKSUM_AT);
        var z := Crc32.Zeroed(c, CHECKSUM_AT);
        BurstSplits(y, z, at, length);
        Crc32.BurstDetected(y[..at], y[at..at + length], z[at..at + length], y[at + length..]);
      }
    }
  }

  function FlippedByte(b: byte, bit: nat): byte
    requires bit < 8
  {
    b ^ (1 << bit)
  }

  /** Corruption as the impairment proxy applies it: one bit of the datagram is inverted. */
  function FlipBit(b: seq<byte>, bit: nat): (c: seq<byte>)
    requires bit < 8 * |b|
    ensures |c| == |b|
  {
    b[bit / 8 := FlippedByte(b[bit / 8], bit % 8)]
  }

  lemma FlipChanges(b: byte, bit: nat)
    requires bit < 8
    ensures FlippedByte(b, bit) != b
  {
  }

  /** No datagram that decodes still decodes after any one of its bits is inverted. */
  lemma BitFlipRejected(b: seq<byte>, bit: nat)
    requires Decode(b).Ok? && bit < 8 * |b|
    ensures Decode(FlipBit(b, bit)).Err?
  {
    hide Decode, FlippedByte;
    FlipChanges(b[bit / 8], bit % 8);
    BurstRejected(b, FlipBit(b, bit), bit / 8, 1);
  }
}
