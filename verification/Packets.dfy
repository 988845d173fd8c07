/** The packet header and its value ranges (include/swiftlink/protocol/packet.hpp). */
module Packets {
  import opened Common

  type uint8 = x: nat | x < 0x100
  type uint16 = x: nat | x < 0x1_0000
  type uint32 = x: nat | x < TWO_32
  type uint64 = x: nat | x < TWO_64

  const MAGIC: uint32 := 0x53574C4B
  const VERSION: uint8 := 1
  const HEADER_WIRE_SIZE: uint16 := 40
  const MAX_PAYLOAD_SIZE: nat := 65535

  datatype PacketType = Start | StartAck | Data | Ack | Fin | FinAck | ErrorPacket

  function TypeCode(t: PacketType): uint8 {
    match t
    case Start => 1
    case StartAck => 2
    case Data => 3
    case Ack => 4
    case Fin => 5
    case FinAck => 6
    case ErrorPacket => 7
  }

  /** is_valid_packet_type followed by the cast it protects. */
  function TypeOf(raw: uint8): Option<PacketType> {
    if raw == 1 then Some(Start)
    else if raw == 2 then Some(StartAck)
    else if raw == 3 then Some(Data)
    else if raw == 4 then Some(Ack)
    else if raw == 5 then Some(Fin)
    else if raw == 6 then Some(FinAck)
    else if raw == 7 then Some(ErrorPacket)
    else None
  }

  datatype Header = Header(
    magic: uint32,
    version: uint8,
    packetType: PacketType,
    headerLength: uint16,
    sessionId: uint64,
    sequenceNumber: uint32,
    acknowledgementNumber: uint32,
    byteOffset: uint64,
    payloadLength: uint16,
    flags: uint16,
    checksum: bv32)

  datatype Packet = Packet(header: Header, payload: seq<byte>)

  datatype DecodeError =
    | BufferTooSmall
    | BadMagic
    | UnsupportedVersion
    | BadHeaderLength
    | UnknownPacketType
    | PayloadLengthMismatch
    | ChecksumMismatch

  datatype StatusCode =
    | StatusOk
    | StatusUnsupportedVersion
    | InvalidFilename
    | FileOpenFailed
    | IntegrityCheckFailed
    | SizeMismatch
    | UnknownSession
    | InternalError
    | ServerBusy

  function StatusByte(code: StatusCode): uint8 {
    match code
    case StatusOk => 0
    case StatusUnsupportedVersion => 1
    case InvalidFilename => 2
    case FileOpenFailed => 3
    case IntegrityCheckFailed => 4
    case SizeMismatch => 5
    case UnknownSession => 6
    case InternalError => 7
    case ServerBusy => 8
  }

  /** A default header with the four fields that the drivers fill in. */
  function MakeHeader(t: PacketType, sessionId: uint64, sequence: uint32, ack: uint32, offset: uint64): Header {
    Header(MAGIC, VERSION, t, HEADER_WIRE_SIZE, sessionId, sequence, ack, offset, 0, 0, 0)
  }
}
