/** The session object of src/transfer/receiver_session.cpp, updating its fields in place.
    Every method is proved to do exactly what the step functions of Sessions say. */
module ReceiverSessions {
  import opened Common
  import opened Packets
  import opened Files
  import opened Filenames
  import opened ReceiverWindows
  import opened Sessions
  import FileHash
  import Sha256

  /** The output directory's files, shared by everything that runs on the host. */
  class Disk {
    var files: FileSystem

    constructor (initial: FileSystem)
      ensures files == initial
    {
      files := initial;
    }
  }

  class ReceiverSession {
    const directory: Path
    const requested: uint32
    const window: ReceiverWindow
    var outputPath: Path
    var tempPath: Path
    var published: bool
    var sessionId: uint64
    var declaredSize: uint64
    var bytesWritten: nat
    var started: bool
    var finished: bool
    var finalReply: Reply
    var error: TransferError
    var stats: Stats

    ghost function Settings(): Config {
      Config(directory, requested, Sha256.Hash)
    }

    ghost function View(): State
      reads this, window
    {
      State(window.View(), outputPath, tempPath, published, sessionId, declaredSize, bytesWritten,
            started, finished, finalReply, error, stats)
    }

    ghost predicate Valid()
      reads this, window, window.received
    {
      window.Valid() && WellFormedState(Settings(), View())
    }

    constructor (capacity: uint32, outputDirectory: Path)
      ensures Valid() && directory == outputDirectory && requested == capacity
      ensures View() == Fresh(Settings()) && fresh(window) && fresh(window.received)
    {
      directory := outputDirectory;
      requested := capacity;
      window := new ReceiverWindow(capacity);
      outputPath, tempPath := [], [];
      published, started, finished := false, false, false;
      sessionId, declaredSize, bytesWritten := 0, 0, 0;
      finalReply, error := Silent, NoError;
      stats := Stats(0, 0, 0, 0, 0);
    }

    /** Build an ERROR reply and settle. */
    method FailWith(code: StatusCode, failure: TransferError, sequence: uint32) returns (reply: Reply)
      modifies `error, `finished, `finalReply
      ensures Outcome(map[], View(), reply) == Fail(map[], old(View()), code, failure, sequence)
    {
      hide ToByte;
      error := failure;
      finished := true;
      finalReply := Reply(ErrorPacket, sequence, [ToByte(StatusByte(code))]);
      reply := finalReply;
    }

    method HandleStart(disk: Disk, p: Packet, io: Io) returns (reply: Reply)
      modifies this, disk
      ensures Outcome(disk.files, View(), reply) == OnStart(Settings(), old(disk.files), old(View()), p, io)
    {
      hide ToByte, Sanitize, JoinPath, TempPath, StatusByte;
      var h := p.header;
      if started {
        if h.sessionId == sessionId {
          stats := stats.(duplicates := stats.duplicates + 1);
          return Reply(StartAck, h.sequenceNumber, []);
        }
        reply := FailWith(UnknownSession, ProtocolViolation, h.sequenceNumber);
        return;
      }
      sessionId := h.sessionId;
      var name := Sanitize(p.payload);
      if name.Err? {
        reply := FailWith(InvalidFilename, FilenameError, h.sequenceNumber);
        return;
      }
      outputPath := JoinPath(directory, name.value);
      tempPath := TempPath(directory, sessionId);
      if !io.openWorks {
        reply := FailWith(FileOpenFailed, FileOpenError, h.sequenceNumber);
        return;
      }
      disk.files := disk.files[tempPath := []];
      declaredSize := h.byteOffset;
      started := true;
      return Reply(StartAck, h.sequenceNumber, []);
    }

    method HandleData(disk: Disk, p: Packet, io: Io) returns (reply: Reply)
      requires window.Valid()
      modifies this, window, window.received, disk
      ensures window.Valid()
      ensures Outcome(disk.files, View(), reply) == OnData(old(disk.files), old(View()), p, io)
    {
      hide ToByte, StatusByte, WriteAt, WriteCompletes, Classify, Mark, WellFormed;
      var h := p.header;
      var disposition := window.ClassifySequence(h.sequenceNumber);
      match disposition {
        case Duplicate =>
          stats := stats.(duplicates := stats.duplicates + 1);
          return Reply(Ack, h.sequenceNumber, []);
        case OutsideWindow =>
          stats := stats.(outOfOrder := stats.outOfOrder + 1);
          return Silent;
        case Accepted =>
      }
      if ChunkEnd(p) > declaredSize {
        reply := FailWith(SizeMismatch, SizeMismatchError, h.sequenceNumber);
        return;
      }
      if h.sequenceNumber != window.base {
        stats := stats.(outOfOrder := stats.outOfOrder + 1);
      }
      disk.files := disk.files[tempPath := WriteAt(FileAt(disk.files, tempPath), p.payload, h.byteOffset, io)];
      if !WriteCompletes(p.payload, h.byteOffset, io) {
        reply := FailWith(InternalError, FileWriteError, h.sequenceNumber);
        return;
      }
      window.MarkReceived(h.sequenceNumber);
      bytesWritten := bytesWritten + |p.payload|;
      stats := stats.(chunks := stats.chunks + 1, bytesTransferred := bytesWritten);
      return Reply(Ack, h.sequenceNumber, []);
    }

    method HandleFin(disk: Disk, p: Packet, io: Io) returns (reply: Reply)
      modifies this, disk
      ensures Outcome(disk.files, View(), reply) == OnFin(Settings(), old(disk.files), old(View()), p, io)
    {
      hide ToByte, StatusByte, ReadsComplete, Sha256.Hash, Rename;
      var h := p.header;
      if h.byteOffset != bytesWritten {
        reply := FailWith(SizeMismatch, SizeMismatchError, h.sequenceNumber);
        return;
      }
      if !io.syncWorks {
        reply := FailWith(InternalError, FileWriteError, h.sequenceNumber);
        return;
      }
      var ok, computed := FileHash.HashPrefix(FileAt(disk.files, tempPath), bytesWritten, io.readFaults);
      if !ok {
        reply := FailWith(InternalError, FileWriteError, h.sequenceNumber);
        return;
      }
      if |p.payload| != DIGEST_SIZE || p.payload != computed {
        reply := FailWith(IntegrityCheckFailed, IntegrityError, h.sequenceNumber);
        return;
      }
      if !RenameCompletes(disk.files, tempPath, io) {
        reply := FailWith(InternalError, FileWriteError, h.sequenceNumber);
        return;
      }
      disk.files := Rename(disk.files, tempPath, outputPath);
      published := true;
      finished := true;
      finalReply := Reply(FinAck, h.sequenceNumber, []);
      reply := finalReply;
    }

    method DispatchPacket(disk: Disk, p: Packet, io: Io) returns (reply: Reply)
      requires window.Valid()
      modifies this, window, window.received, disk
      ensures window.Valid()
      ensures Outcome(disk.files, View(), reply) == Dispatch(Settings(), old(disk.files), old(View()), p, io)
    {
      hide OnStart, OnData, OnFin, ToByte, StatusByte, Sha256.Hash, WellFormed;
      var h := p.header;
      if h.packetType == Start {
        reply := HandleStart(disk, p, io);
      } else if !started || h.sessionId != sessionId {
        reply := FailWith(UnknownSession, ProtocolViolation, h.sequenceNumber);
      } else if h.packetType == Data {
        reply := HandleData(disk, p, io);
      } else if h.packetType == Fin {
        reply := HandleFin(disk, p, io);
      } else {
        reply := Silent;
      }
    }

    method HandleOrReplay(disk: Disk, p: Packet, io: Io) returns (reply: Reply)
      requires window.Valid()
      modifies this, window, window.received, disk
      ensures window.Valid()
      ensures Outcome(disk.files, View(), reply) ==
              HandlePacket(Settings(), old(disk.files), old(View()), p, io)
    {
      hide Dispatch, WellFormed;
      var h := p.header;
      stats := stats.(packetsReceived := stats.packetsReceived + 1);
      if finished && h.sessionId == sessionId && finalReply.Reply? {
        var isControl := h.packetType == Fin || h.packetType == Start;
        var matches := if finalReply.packetType == ErrorPacket then isControl else h.packetType == Fin;
        if matches {
          stats := stats.(duplicates := stats.duplicates + 1);
          return finalReply;
        }
      }
      if finished {
        return Silent;
      }
      reply := DispatchPacket(disk, p, io);
    }

    /** handle_packet: one step of the specification, and the session stays consistent. */
    method Handle(disk: Disk, p: Packet, io: Io) returns (reply: Reply)
      requires Valid() && |p.payload| <= MAX_PAYLOAD_SIZE
      modifies this, window, window.received, disk
      ensures Valid()
      ensures Outcome(disk.files, View(), reply) ==
              HandlePacket(Settings(), old(disk.files), old(View()), p, io)
    {
      hide HandlePacket, WellFormedState;
      reply := HandleOrReplay(disk, p, io);
      HandleWellFormed(Settings(), old(disk.files), old(View()), p, io);
    }

    /** The destructor. */
    method Close(disk: Disk)
      modifies disk
      ensures disk.files == Destroy(old(disk.files), View())
    {
      if !published && tempPath != [] {
        disk.files := Unlink(disk.files, tempPath);
      }
    }
  }
}
