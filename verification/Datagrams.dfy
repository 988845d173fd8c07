/** What the two ends put on the wire, byte by byte. */
module Datagrams {
  import opened Common
  import opened Packets
  import opened Chunking
  import opened Sessions
  import opened Senders
  import opened Transfers
  import opened WireFormat
  import Serializer

  /** A datagram with these fields, no flags and this payload. */
  ghost predicate Carries(d: seq<byte>, code: byte, sessionId: nat, sequence: nat, ack: nat, offset: nat,
                          payload: seq<byte>) {
    && |d| == 40 + |payload| && d[40..] == payload
    && d[0..4] == [0x53, 0x57, 0x4C, 0x4B] && d[4..5] == [1] && d[5] == code && d[6..8] == [0, 40]
    && Field(d, 8, 16) == sessionId && Field(d, 16, 20) == sequence && Field(d, 20, 24) == ack
    && Field(d, 24, 32) == offset && Field(d, 32, 34) == |payload| && d[34..36] == [0, 0]
  }

  function Code(t: PacketType): byte {
    match t
    case Start => 1
    case StartAck => 2
    case Data => 3
    case Ack => 4
    case Fin => 5
    case FinAck => 6
    case ErrorPacket => 7
  }

  lemma TypeByte(d: seq<byte>, t: PacketType)
    requires |d| >= 40
    requires Field(d, 5, 6) == (match t
                                case Start => 1
                                case StartAck => 2
                                case Data => 3
                                case Ack => 4
                                case Fin => 5
                                case FinAck => 6
                                case ErrorPacket => 7)
    ensures d[5] == Code(t)
  {
    OneByte(d, 5);
    ByteIs(d[5]);
  }

  lemma ByteIs(b: byte)
    ensures FromByte(b) == 1 ==> b == 1
    ensures FromByte(b) == 2 ==> b == 2
    ensures FromByte(b) == 3 ==> b == 3
    ensures FromByte(b) == 4 ==> b == 4
    ensures FromByte(b) == 5 ==> b == 5
    ensures FromByte(b) == 6 ==> b == 6
    ensures FromByte(b) == 7 ==> b == 7
  {
  }

  lemma EncodedCarries(t: PacketType, sessionId: uint64, sequence: uint32, ack: uint32, offset: uint64,
                       payload: seq<byte>)
    requires |payload| <= 65535
    ensures Carries(Serializer.Encode(MakeHeader(t, sessionId, sequence, ack, offset), payload), Code(t), sessionId,
                    sequence, ack, offset, payload)
  {
    hide Serializer.Encode, Field;
    Layout(MakeHeader(t, sessionId, sequence, ack, offset), payload);
    Preamble(t, sessionId, sequence, ack, offset, payload);
    TypeByte(Serializer.Encode(MakeHeader(t, sessionId, sequence, ack, offset), payload), t);
  }

  /** START carries the name and the size of the file. */
  lemma StartOnWire(c: SenderConfig)
    requires CanStart(c) && |c.name| <= 65535
    ensures Carries(Wire(StartPacket(c)), 1, c.sessionId, 0, 0, |c.file|, c.name)
  {
    hide Carries, Serializer.Encode;
    EncodedCarries(Start, c.sessionId, 0, 0, |c.file|, c.name);
  }

  /** Chunk k carries its number, its place in the file, and the bytes that are there. */
  lemma ChunkOnWire(c: SenderConfig, k: nat)
    requires CanStart(c) && k < Total(c) && c.chunkSize <= 65535
    ensures var from := k * c.chunkSize;
            var to := if from + c.chunkSize < |c.file| then from + c.chunkSize else |c.file|;
            from <= to && Carries(Wire(DataPacket(c, k)), 3, c.sessionId, k, 0, from, c.file[from..to])
  {
    hide Carries, Serializer.Encode;
    PlannedChunksExist(|c.file|, c.chunkSize, k);
    EncodedCarries(Data, c.sessionId, k, 0, Offset(c.chunkSize, k), ChunkBytes(c, k));
  }

  /** FIN carries the number of chunks, the size of the file and its digest. */
  lemma FinOnWire(c: SenderConfig)
    requires CanStart(c) && |c.digest(c.file)| <= 65535
    ensures Carries(Wire(FinPacket(c)), 5, c.sessionId, Total(c), 0, |c.file|, c.digest(c.file))
  {
    hide Carries, Serializer.Encode, Total;
    EncodedCarries(Fin, c.sessionId, Total(c), 0, |c.file|, c.digest(c.file));
  }

  /** A reply goes out under the session id of the packet it answers, and names that packet's
      sequence number twice. */
  lemma ReplyOnWire(h: Header, reply: Reply)
    requires reply.Reply? && |reply.payload| <= 65535
    ensures exists d :: Replied(h, reply) == {d} &&
              Carries(d, Code(reply.packetType), h.sessionId, reply.sequence, reply.sequence, 0, reply.payload)
  {
    hide Carries, Serializer.Encode;
    EncodedCarries(reply.packetType, h.sessionId, reply.sequence, reply.sequence, 0, reply.payload);
    var header := MakeHeader(reply.packetType, h.sessionId, reply.sequence, reply.sequence, 0);
    var d := Serializer.Encode(header, reply.payload);
    assert Replied(h, reply) == {d};
  }
}
