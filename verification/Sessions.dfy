/** One receiving session as a step function: what src/transfer/receiver_session.cpp does
    with one packet, given the files on disk and the results of its system calls.

    The digest function is a parameter, so every theorem about sessions holds for any digest;
    the class in ReceiverSessions.dfy runs SHA-256. */
module Sessions {
  import opened Common
  import opened Packets
  import opened Files
  import opened Filenames
  import opened ReceiverWindows

  datatype TransferError =
    | NoError
    | FileOpenError
    | FileReadError
    | FileWriteError
    | SocketError
    | SendError
    | ReceiveError
    | PeerUnresponsive
    | ProtocolViolation
    | SizeMismatchError
    | HandshakeError
    | RemoteError
    | IntegrityError
    | FilenameError

  datatype Config = Config(directory: Path, capacity: uint32, digest: seq<byte> -> seq<byte>)

  datatype Reply = Silent | Reply(packetType: PacketType, sequence: uint32, payload: seq<byte>)

  datatype Stats = Stats(bytesTransferred: nat, chunks: nat, packetsReceived: nat, duplicates: nat, outOfOrder: nat)

  datatype State = State(
    window: RView,
    outputPath: Path,
    tempPath: Path,
    published: bool,
    sessionId: uint64,
    declaredSize: uint64,
    bytesWritten: nat,
    started: bool,
    finished: bool,
    finalReply: Reply,
    error: TransferError,
    stats: Stats)

  /** What one call leaves behind. */
  datatype Outcome = Outcome(fs: FileSystem, state: State, reply: Reply)

  function Fresh(cfg: Config): State {
    State(EmptyView(cfg.capacity), [], [], false, 0, 0, 0, false, false, Silent, NoError, Stats(0, 0, 0, 0, 0))
  }

  const DIGEST_SIZE: nat := 32

  // ------------------------------------------------------------------------
  // The handlers
  // ------------------------------------------------------------------------

  function Fail(fs: FileSystem, s: State, code: StatusCode, error: TransferError, sequence: uint32): Outcome {
    var reply := Reply(ErrorPacket, sequence, [ToByte(StatusByte(code))]);
    Outcome(fs, s.(error := error, finished := true, finalReply := reply), reply)
  }

  function OnStart(cfg: Config, fs: FileSystem, s: State, p: Packet, io: Io): Outcome {
    var h := p.header;
    if s.started then
      if h.sessionId == s.sessionId
      then
        Outcome(fs, s.(stats := s.stats.(duplicates := s.stats.duplicates + 1)),
                Reply(StartAck, h.sequenceNumber, []))
      else Fail(fs, s, UnknownSession, ProtocolViolation, h.sequenceNumber)
    else
      var claimed := s.(sessionId := h.sessionId);
      match Sanitize(p.payload)
      case Err(_) => Fail(fs, claimed, InvalidFilename, FilenameError, h.sequenceNumber)
      case Ok(name) =>
        var placed := claimed.(outputPath := JoinPath(cfg.directory, name),
                               tempPath := TempPath(cfg.directory, h.sessionId));
        if !io.openWorks then Fail(fs, placed, FileOpenFailed, FileOpenError, h.sequenceNumber)
        else Outcome(fs[placed.tempPath := []], placed.(declaredSize := h.byteOffset, started := true),
                     Reply(StartAck, h.sequenceNumber, []))
  }

  /** The chunk's end, summed in 64 bits. */
  function ChunkEnd(p: Packet): nat {
    (p.header.byteOffset + |p.payload|) % TWO_64
  }

  function OnData(fs: FileSystem, s: State, p: Packet, io: Io): Outcome {
    var h := p.header;
    match Classify(s.window, h.sequenceNumber)
    case Duplicate =>
      Outcome(fs, s.(stats := s.stats.(duplicates := s.stats.duplicates + 1)), Reply(Ack, h.sequenceNumber, []))
    case OutsideWindow =>
      Outcome(fs, s.(stats := s.stats.(outOfOrder := s.stats.outOfOrder + 1)), Silent)
    case Accepted =>
      if ChunkEnd(p) > s.declaredSize
      then Fail(fs, s, SizeMismatch, SizeMismatchError, h.sequenceNumber)
      else
        var early := if h.sequenceNumber != s.window.base then 1 else 0;
        var counted := s.(stats := s.stats.(outOfOrder := s.stats.outOfOrder + early));
        var fs' := fs[s.tempPath := WriteAt(FileAt(fs, s.tempPath), p.payload, h.byteOffset, io)];
        if !WriteCompletes(p.payload, h.byteOffset, io)
        then Fail(fs', counted, InternalError, FileWriteError, h.sequenceNumber)
        else
          var total := s.bytesWritten + |p.payload|;
          var stats := counted.stats.(chunks := s.stats.chunks + 1, bytesTransferred := total);
          Outcome(fs', counted.(window := Mark(s.window, h.sequenceNumber), bytesWritten := total, stats := stats),
                  Reply(Ack, h.sequenceNumber, []))
  }

  function OnFin(cfg: Config, fs: FileSystem, s: State, p: Packet, io: Io): Outcome {
    var h := p.header;
    var content := FileAt(fs, s.tempPath);
    if h.byteOffset != s.bytesWritten then Fail(fs, s, SizeMismatch, SizeMismatchError, h.sequenceNumber)
    else if !io.syncWorks then Fail(fs, s, InternalError, FileWriteError, h.sequenceNumber)
    else if !ReadsComplete(content, s.bytesWritten, io.readFaults)
    then Fail(fs, s, InternalError, FileWriteError, h.sequenceNumber)
    else if |p.payload| != DIGEST_SIZE || p.payload != cfg.digest(content[..s.bytesWritten])
    then Fail(fs, s, IntegrityCheckFailed, IntegrityError, h.sequenceNumber)
    else if !RenameCompletes(fs, s.tempPath, io)
    then Fail(fs, s, InternalError, FileWriteError, h.sequenceNumber)
    else
      var reply := Reply(FinAck, h.sequenceNumber, []);
      Outcome(Rename(fs, s.tempPath, s.outputPath),
              s.(published := true, finished := true, finalReply := reply), reply)
  }

  /** Whether a settled session answers this packet with its stored verdict. */
  predicate Replays(s: State, h: Header) {
    && s.finished && h.sessionId == s.sessionId && s.finalReply.Reply?
    && (if s.finalReply.packetType == ErrorPacket then h.packetType == Fin || h.packetType == Start
        else h.packetType == Fin)
  }

  function HandlePacket(cfg: Config, fs: FileSystem, state: State, p: Packet, io: Io): Outcome {
    var h := p.header;
    var s := state.(stats := state.stats.(packetsReceived := state.stats.packetsReceived + 1));
    if Replays(s, h) then
      Outcome(fs, s.(stats := s.stats.(duplicates := s.stats.duplicates + 1)), s.finalReply)
    else if s.finished then Outcome(fs, s, Silent)
    else Dispatch(cfg, fs, s, p, io)
  }

  /** A session without a verdict. */
  function Dispatch(cfg: Config, fs: FileSystem, s: State, p: Packet, io: Io): Outcome {
    var h := p.header;
    if h.packetType == Start then OnStart(cfg, fs, s, p, io)
    else if !s.started then Fail(fs, s, UnknownSession, ProtocolViolation, h.sequenceNumber)
    else if h.sessionId != s.sessionId then Fail(fs, s, UnknownSession, ProtocolViolation, h.sequenceNumber)
    else if h.packetType == Data then OnData(fs, s, p, io)
    else if h.packetType == Fin then OnFin(cfg, fs, s, p, io)
    else Outcome(fs, s, Silent)
  }

  lemma SessionRunning(cfg: Config, fs: FileSystem, s: State, p: Packet, io: Io)
    requires !s.finished
    ensures HandlePacket(cfg, fs, s, p, io) ==
            Dispatch(cfg, fs, s.(stats := s.stats.(packetsReceived := s.stats.packetsReceived + 1)), p, io)
  {
    hide Dispatch;
  }

  /** The destructor: an unpublished session removes its temporary file. */
  function Destroy(fs: FileSystem, s: State): FileSystem {
    if !s.published && s.tempPath != [] then Unlink(fs, s.tempPath) else fs
  }

  // ------------------------------------------------------------------------
  // What every step keeps
  // ------------------------------------------------------------------------

  /** The verdict: a settled session holds one, and it says whether it published. */
  ghost predicate VerdictAgrees(s: State) {
    && (s.finished <==> s.finalReply.Reply?)
    && (s.published ==> s.finished && s.started)
    && (s.published <==> s.finalReply.Reply? && s.finalReply.packetType == FinAck)
    && (s.finished && !s.published ==> s.finalReply.packetType == ErrorPacket)
    && (s.error != NoError <==> s.finished && !s.published)
  }

  /** The bookkeeping: distinct stored chunks are counted once each. */
  ghost predicate CountsAgree(s: State) {
    && WellFormed(s.window)
    && (forall k <- s.window.stored :: k < TWO_32)
    && s.bytesWritten <= MAX_PAYLOAD_SIZE * |s.window.stored|
    && s.stats.chunks == |s.window.stored|
    && s.stats.bytesTransferred == s.bytesWritten
  }

  ghost predicate WellFormedState(cfg: Config, s: State) {
    && VerdictAgrees(s) && CountsAgree(s)
    && (s.started ==> s.tempPath == TempPath(cfg.directory, s.sessionId))
    && (!s.started ==> s.window == EmptyView(cfg.capacity) && s.bytesWritten == 0)
  }

  lemma FreshWellFormed(cfg: Config)
    ensures WellFormedState(cfg, Fresh(cfg))
  {
  }

  lemma DataWellFormed(cfg: Config, fs: FileSystem, s: State, p: Packet, io: Io)
    requires WellFormedState(cfg, s) && s.started && !s.finished && |p.payload| <= MAX_PAYLOAD_SIZE
    ensures WellFormedState(cfg, OnData(fs, s, p, io).state)
  {
    hide WellFormed, Classify, Mark, WriteAt, WriteCompletes, FileAt, ToByte, TempPath;
    var k := p.header.sequenceNumber;
    MarkWellFormed(s.window, k);
    if Classify(s.window, k) == Accepted {
      AcceptedIsNew(s.window, k);
    }
  }

  lemma StartWellFormed(cfg: Config, fs: FileSystem, s: State, p: Packet, io: Io)
    requires WellFormedState(cfg, s) && !s.finished
    ensures WellFormedState(cfg, OnStart(cfg, fs, s, p, io).state)
  {
    hide WellFormed, ToByte, TempPath, Sanitize, JoinPath, StatusByte;
  }

  lemma FinWellFormed(cfg: Config, fs: FileSystem, s: State, p: Packet, io: Io)
    requires WellFormedState(cfg, s) && s.started && !s.finished
    ensures WellFormedState(cfg, OnFin(cfg, fs, s, p, io).state)
  {
    hide WellFormed, ReadsComplete, RenameCompletes, Rename, FileAt, ToByte, TempPath, StatusByte;
  }

  /** Every packet keeps the session's verdict and bookkeeping consistent. */
  lemma HandleWellFormed(cfg: Config, fs: FileSystem, s: State, p: Packet, io: Io)
    requires WellFormedState(cfg, s) && |p.payload| <= MAX_PAYLOAD_SIZE
    ensures WellFormedState(cfg, HandlePacket(cfg, fs, s, p, io).state)
  {
    hide OnStart, OnData, OnFin, WellFormed, ToByte, StatusByte, TempPath;
    var counted := s.(stats := s.stats.(packetsReceived := s.stats.packetsReceived + 1));
    assert WellFormedState(cfg, counted);
    if !s.finished {
      StartWellFormed(cfg, fs, counted, p, io);
      if s.started {
        DataWellFormed(cfg, fs, counted, p, io);
        FinWellFormed(cfg, fs, counted, p, io);
      }
    }
  }

  lemma {:induction false} BoundedSetSize(xs: set<nat>, n: nat)
    requires forall x <- xs :: x < n
    ensures |xs| <= n
    decreases n
  {
    if n > 0 {
      var rest := xs - {n - 1};
      BoundedSetSize(rest, n - 1);
      assert xs <= rest + {n - 1};
      SubsetSize(xs, rest + {n - 1});
    } else {
      assert xs == {};
    }
  }

  /** The 64-bit byte counter never wraps, so counting it without bound loses nothing. */
  lemma CounterFits(cfg: Config, s: State)
    requires WellFormedState(cfg, s)
    ensures s.bytesWritten < TWO_64
  {
    BoundedSetSize(s.window.stored, TWO_32);
  }
}
