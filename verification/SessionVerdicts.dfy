/** What a session answers: which packets it turns down and with which code, how often its
    verdict is repeated and to whom, and what its counters count. All of it is told on the
    headers of the packets it was handed. */
module SessionVerdicts {
  import opened Common
  import opened Packets
  import opened Files
  import opened Filenames
  import opened ReceiverWindows
  import opened Sessions
  import opened SessionSafety

  // ------------------------------------------------------------------------
  // Which packets are turned down, and with what
  // ------------------------------------------------------------------------

  /** The session is settled with this error, and the answer is an ERROR packet for p with this
      status byte and nothing else. Beyond that and the counters the session is as in `base`, and
      the files are these. */
  predicate TurnedDown(base: State, fs: FileSystem, p: Packet, o: Outcome, error: TransferError, code: byte) {
    && o.reply == Reply(ErrorPacket, p.header.sequenceNumber, [code]) && o.fs == fs
    && o.state == base.(error := error, finished := true, finalReply := o.reply, stats := o.state.stats)
  }

  /** The first START. */
  predicate Opening(s: State, p: Packet) {
    !s.started && p.header.packetType == Start
  }

  /** A packet of the session that START opened. */
  predicate Own(s: State, p: Packet) {
    s.started && p.header.sessionId == s.sessionId
  }

  /** A chunk that is not stored yet and lies in a window whose limit fits in 32 bits. */
  predicate NewChunk(s: State, p: Packet) {
    var k := p.header.sequenceNumber;
    && Own(s, p) && p.header.packetType == Data
    && k !in s.window.stored && k < s.window.base + s.window.capacity < 0x1_0000_0000
  }

  /** The end of the chunk, summed in 64 bits, lies within the declared size. */
  predicate FitsDeclared(s: State, p: Packet) {
    (p.header.byteOffset + |p.payload|) % 0x1_0000_0000_0000_0000 <= s.declaredSize
  }

  predicate OwnFin(s: State, p: Packet) {
    Own(s, p) && p.header.packetType == Fin
  }

  /** FIN names the bytes written, and they could be synchronised and read back. */
  ghost predicate ReadBack(fs: FileSystem, s: State, p: Packet, io: Io) {
    && OwnFin(s, p) && p.header.byteOffset == s.bytesWritten
    && io.syncWorks && ReadsComplete(FileAt(fs, s.tempPath), s.bytesWritten, io.readFaults)
  }

  /** And FIN carries their digest. */
  ghost predicate BornOut(cfg: Config, fs: FileSystem, s: State, p: Packet, io: Io) {
    && ReadBack(fs, s, p, io)
    && |p.payload| == 32 && p.payload == cfg.digest(FileAt(fs, s.tempPath)[..s.bytesWritten])
  }

  ghost predicate NameRefused(s: State, p: Packet) {
    Opening(s, p) && Sanitize(p.payload).Err?
  }

  ghost predicate OpenFailed(s: State, p: Packet, io: Io) {
    Opening(s, p) && Sanitize(p.payload).Ok? && !io.openWorks
  }

  predicate OutOfPlace(s: State, p: Packet) {
    !Opening(s, p) && !Own(s, p)
  }

  predicate WrongSize(s: State, p: Packet) {
    (NewChunk(s, p) && !FitsDeclared(s, p)) || (OwnFin(s, p) && p.header.byteOffset != s.bytesWritten)
  }

  ghost predicate DiskFailed(cfg: Config, fs: FileSystem, s: State, p: Packet, io: Io) {
    || (NewChunk(s, p) && FitsDeclared(s, p) && !WriteCompletes(p.payload, p.header.byteOffset, io))
    || (OwnFin(s, p) && p.header.byteOffset == s.bytesWritten && !ReadBack(fs, s, p, io))
    || (BornOut(cfg, fs, s, p, io) && !RenameCompletes(fs, s.tempPath, io))
  }

  /** What a write leaves, whether it completes or not. */
  function Written(fs: FileSystem, s: State, p: Packet, io: Io): FileSystem {
    fs[s.tempPath := WriteAt(FileAt(fs, s.tempPath), p.payload, p.header.byteOffset, io)]
  }

  ghost predicate WrongDigest(cfg: Config, fs: FileSystem, s: State, p: Packet, io: Io) {
    ReadBack(fs, s, p, io) && !BornOut(cfg, fs, s, p, io)
  }

  /** Each error has its cause, each cause its error and its status byte, and nothing else settles
      a session without publishing. */
  ghost predicate Table(cfg: Config, fs: FileSystem, s: State, p: Packet, io: Io, o: Outcome) {
    var claimed := s.(sessionId := p.header.sessionId);
    && (NameRefused(s, p) ==> TurnedDown(claimed, fs, p, o, FilenameError, 2))
    && (OpenFailed(s, p, io) ==>
          TurnedDown(claimed.(outputPath := JoinPath(cfg.directory, Sanitize(p.payload).value),
                              tempPath := TempPath(cfg.directory, p.header.sessionId)), fs, p, o, FileOpenError, 3))
    && (WrongDigest(cfg, fs, s, p, io) ==> TurnedDown(s, fs, p, o, IntegrityError, 4))
    && (WrongSize(s, p) ==> TurnedDown(s, fs, p, o, SizeMismatchError, 5))
    && (OutOfPlace(s, p) ==> TurnedDown(s, fs, p, o, ProtocolViolation, 6))
    && (DiskFailed(cfg, fs, s, p, io) ==>
          TurnedDown(s, if p.header.packetType == Data then Written(fs, s, p, io) else fs, p, o, FileWriteError, 7))
    && (o.state.finished && !o.state.published ==>
          || NameRefused(s, p) || OpenFailed(s, p, io) || WrongDigest(cfg, fs, s, p, io) || WrongSize(s, p)
          || OutOfPlace(s, p) || DiskFailed(cfg, fs, s, p, io))
  }

  lemma StatusBytes()
    ensures ToByte(StatusByte(InvalidFilename)) == 2 && ToByte(StatusByte(FileOpenFailed)) == 3
    ensures ToByte(StatusByte(IntegrityCheckFailed)) == 4 && ToByte(StatusByte(SizeMismatch)) == 5
    ensures ToByte(StatusByte(UnknownSession)) == 6 && ToByte(StatusByte(InternalError)) == 7
  {
  }

  lemma StartTable(cfg: Config, fs: FileSystem, s: State, p: Packet, io: Io)
    requires !s.finished && !s.published && p.header.packetType == Start
    ensures Table(cfg, fs, s, p, io, OnStart(cfg, fs, s, p, io))
  {
    StatusBytes();
    hide ToByte, StatusByte, Sanitize, JoinPath, TempPath;
  }

  lemma NewIsAccepted(s: State, p: Packet)
    requires WellFormed(s.window) && Own(s, p) && p.header.packetType == Data
    ensures Classify(s.window, p.header.sequenceNumber) == Accepted <==> NewChunk(s, p)
  {
  }

  lemma DataTable(cfg: Config, fs: FileSystem, s: State, p: Packet, io: Io)
    requires !s.finished && !s.published && WellFormed(s.window) && Own(s, p) && p.header.packetType == Data
    ensures Table(cfg, fs, s, p, io, OnData(fs, s, p, io))
  {
    StatusBytes();
    NewIsAccepted(s, p);
    hide ToByte, StatusByte, WriteAt, WriteCompletes, Classify, NewChunk, Mark, WellFormed, FileAt;
  }

  lemma FinTable(cfg: Config, fs: FileSystem, s: State, p: Packet, io: Io)
    requires !s.finished && !s.published && OwnFin(s, p)
    ensures Table(cfg, fs, s, p, io, OnFin(cfg, fs, s, p, io))
  {
    StatusBytes();
    hide ToByte, StatusByte, ReadsComplete, RenameCompletes, Rename, FileAt;
  }

  lemma DispatchTable(cfg: Config, fs: FileSystem, s: State, p: Packet, io: Io)
    requires !s.finished && !s.published && WellFormed(s.window)
    ensures Table(cfg, fs, s, p, io, Dispatch(cfg, fs, s, p, io))
  {
    if p.header.packetType == Start {
      StartTable(cfg, fs, s, p, io);
    } else if Own(s, p) && p.header.packetType == Data {
      DataTable(cfg, fs, s, p, io);
    } else if Own(s, p) && p.header.packetType == Fin {
      FinTable(cfg, fs, s, p, io);
    } else {
      StatusBytes();
      hide ToByte, StatusByte, OnStart, OnData, OnFin;
    }
  }

  /** In any session without a verdict. */
  lemma RefusalTable(cfg: Config, fs: FileSystem, s: State, p: Packet, io: Io)
    requires WellFormedState(cfg, s) && !s.finished
    ensures Table(cfg, fs, s, p, io, HandlePacket(cfg, fs, s, p, io))
  {
    hide Dispatch, HandlePacket, Table, WellFormed;
    var counted := s.(stats := s.stats.(packetsReceived := s.stats.packetsReceived + 1));
    DispatchTable(cfg, fs, counted, p, io);
    SessionRunning(cfg, fs, s, p, io);
    IgnoresStats(cfg, fs, s, p, io, HandlePacket(cfg, fs, s, p, io), counted.stats);
  }

  lemma IgnoresStats(cfg: Config, fs: FileSystem, s: State, p: Packet, io: Io, o: Outcome, stats: Stats)
    requires Table(cfg, fs, s.(stats := stats), p, io, o)
    ensures Table(cfg, fs, s, p, io, o)
  {
    hide WriteCompletes, WriteAt, ReadsComplete, RenameCompletes, FileAt, Sanitize, JoinPath, TempPath;
  }

  // ------------------------------------------------------------------------
  // What the others are answered
  // ------------------------------------------------------------------------

  /** Nothing has changed but the counters. */
  predicate OnlyCounted(fs: FileSystem, s: State, o: Outcome) {
    o.fs == fs && o.state == s.(stats := o.state.stats)
  }

  /** A chunk that is known to be stored: one below the base, or any other while the limit of the
      window fits in 32 bits. */
  predicate Recognised(s: State, p: Packet) {
    && Own(s, p) && p.header.packetType == Data && p.header.sequenceNumber in s.window.stored
    && (p.header.sequenceNumber < s.window.base || s.window.base + s.window.capacity < 0x1_0000_0000)
  }

  predicate Acknowledged(p: Packet, o: Outcome, t: PacketType) {
    o.reply == Reply(t, p.header.sequenceNumber, []) && !o.state.finished
  }

  /** START opens the session on an empty temporary file; START again and a chunk again are
      acknowledged again; a chunk outside the window and packets that are not for a receiver are
      passed over in silence; a new chunk is stored. */
  ghost predicate Answered(cfg: Config, fs: FileSystem, s: State, p: Packet, io: Io, o: Outcome) {
    var h := p.header;
    && (Opening(s, p) && Sanitize(p.payload).Ok? && io.openWorks ==>
          && Acknowledged(p, o, StartAck) && o.state.started && o.state.sessionId == h.sessionId
          && o.state.declaredSize == h.byteOffset
          && o.state.tempPath == TempPath(cfg.directory, h.sessionId) && o.fs == fs[o.state.tempPath := []]
          && o.state.outputPath == JoinPath(cfg.directory, Sanitize(p.payload).value))
    && (Own(s, p) && h.packetType == Start ==> Acknowledged(p, o, StartAck) && OnlyCounted(fs, s, o))
    && (Recognised(s, p) ==> Acknowledged(p, o, Ack) && OnlyCounted(fs, s, o))
    && (Own(s, p) && h.packetType == Data && !Recognised(s, p) && !NewChunk(s, p) ==>
          o.reply == Silent && OnlyCounted(fs, s, o))
    && (NewChunk(s, p) && FitsDeclared(s, p) && WriteCompletes(p.payload, h.byteOffset, io) ==>
          Acknowledged(p, o, Ack) && o.state.window.stored == s.window.stored + {h.sequenceNumber})
    && (Own(s, p) && h.packetType in {StartAck, Ack, FinAck, ErrorPacket} ==>
          o.reply == Silent && OnlyCounted(fs, s, o))
  }

  lemma StartAnswered(cfg: Config, fs: FileSystem, s: State, p: Packet, io: Io)
    requires !s.finished && p.header.packetType == Start
    ensures Answered(cfg, fs, s, p, io, OnStart(cfg, fs, s, p, io))
  {
    hide ToByte, StatusByte, Sanitize, JoinPath, TempPath;
  }

  lemma ChunkCases(s: State, p: Packet)
    requires WellFormed(s.window) && Own(s, p) && p.header.packetType == Data
    ensures var d := Classify(s.window, p.header.sequenceNumber);
            (d == Accepted <==> NewChunk(s, p)) && (d == Duplicate <==> Recognised(s, p))
  {
  }

  lemma DataAnswered(cfg: Config, fs: FileSystem, s: State, p: Packet, io: Io)
    requires !s.finished && WellFormed(s.window) && Own(s, p) && p.header.packetType == Data
    ensures Answered(cfg, fs, s, p, io, OnData(fs, s, p, io))
  {
    ChunkCases(s, p);
    MarkWellFormed(s.window, p.header.sequenceNumber);
    hide ToByte, StatusByte, WriteAt, WriteCompletes, Classify, NewChunk, Recognised, Mark, WellFormed, FileAt;
  }

  lemma DispatchAnswered(cfg: Config, fs: FileSystem, s: State, p: Packet, io: Io)
    requires !s.finished && WellFormed(s.window)
    ensures Answered(cfg, fs, s, p, io, Dispatch(cfg, fs, s, p, io))
  {
    if p.header.packetType == Start {
      StartAnswered(cfg, fs, s, p, io);
    } else if Own(s, p) && p.header.packetType == Data {
      DataAnswered(cfg, fs, s, p, io);
    } else {
      hide ToByte, StatusByte, OnStart, OnData, OnFin;
    }
  }

  /** In any session without a verdict. */
  lemma AnswerTable(cfg: Config, fs: FileSystem, s: State, p: Packet, io: Io)
    requires WellFormedState(cfg, s) && !s.finished
    ensures Answered(cfg, fs, s, p, io, HandlePacket(cfg, fs, s, p, io))
  {
    hide Dispatch, HandlePacket, Answered, WellFormed;
    var counted := s.(stats := s.stats.(packetsReceived := s.stats.packetsReceived + 1));
    DispatchAnswered(cfg, fs, counted, p, io);
    SessionRunning(cfg, fs, s, p, io);
    AnsweredAlike(cfg, fs, s, p, io, HandlePacket(cfg, fs, s, p, io), counted.stats);
  }

  lemma AnsweredAlike(cfg: Config, fs: FileSystem, s: State, p: Packet, io: Io, o: Outcome, stats: Stats)
    requires Answered(cfg, fs, s.(stats := stats), p, io, o)
    ensures Answered(cfg, fs, s, p, io, o)
  {
    hide WriteCompletes, Sanitize, TempPath, JoinPath;
  }

  // ------------------------------------------------------------------------
  // How often the verdict is repeated, and to whom
  // ------------------------------------------------------------------------

  /** Input i of the run brought the verdict. */
  ghost predicate SettledAt(cfg: Config, fs: FileSystem, inputs: seq<Input>, i: nat)
    requires i < |inputs|
  {
    !RunOf(cfg, fs, inputs[..i]).state.finished && RunOf(cfg, fs, inputs[..i + 1]).state.finished
  }

  /** The session id on record when input i brings the verdict: that of the START which opened the
      session; failing that, of the START which did not; and zero if there was none. */
  ghost predicate OnRecord(cfg: Config, fs: FileSystem, inputs: seq<Input>, i: nat, id: uint64)
    requires i < |inputs|
  {
    || (exists k :: 0 <= k < i && OpenedAt(cfg, fs, inputs, k) && id == inputs[k].packet.header.sessionId)
    || ((forall k :: 0 <= k < i ==> !OpenedAt(cfg, fs, inputs, k)) &&
        id == if inputs[i].packet.header.packetType == Start then inputs[i].packet.header.sessionId else 0)
  }

  lemma HandleRecords(cfg: Config, fs: FileSystem, s: State, p: Packet, io: Io)
    ensures var t := HandlePacket(cfg, fs, s, p, io).state;
            && (s.started ==> t.started && t.sessionId == s.sessionId)
            && (!s.started && !s.finished ==>
                  t.sessionId == if p.header.packetType == Start then p.header.sessionId else s.sessionId)
            && (!s.started && !s.finished && !t.started ==> t.finished)
            && (s.finished ==> t.started == s.started)
  {
    hide Classify, Mark, WriteAt, WriteCompletes, ToByte, StatusByte, ReadsComplete, RenameCompletes, Rename,
      Sanitize, JoinPath, TempPath;
  }

  /** A session that START has opened keeps its id for good. */
  lemma {:induction false} IdAtStart(cfg: Config, fs: FileSystem, inputs: seq<Input>, k: nat)
    requires k < |inputs| && OpenedAt(cfg, fs, inputs, k) && Decodable(inputs)
    ensures RunOf(cfg, fs, inputs).state.started
    ensures RunOf(cfg, fs, inputs).state.sessionId == inputs[k].packet.header.sessionId
    decreases |inputs|
  {
    hide HandlePacket, WellFormedState;
    var m := |inputs| - 1;
    var front := inputs[..m];
    assert inputs[..m + 1] == inputs;
    RunStep(cfg, fs, inputs, m);
    var before := RunOf(cfg, fs, front);
    HandleRecords(cfg, before.fs, before.state, inputs[m].packet, inputs[m].io);
    HandleDeclares(cfg, before.fs, before.state, inputs[m].packet, inputs[m].io);
    if k < m {
      OpenedPrefix(cfg, fs, inputs, m, k);
      IdAtStart(cfg, fs, front, k);
    }
  }

  /** Before its first packet, and only then, a session has neither been opened nor settled, and
      it has not recorded any id. */
  lemma UntouchedIsFresh(cfg: Config, fs: FileSystem, inputs: seq<Input>)
    requires !RunOf(cfg, fs, inputs).state.started && !RunOf(cfg, fs, inputs).state.finished
    ensures inputs == [] && RunOf(cfg, fs, inputs).state.sessionId == 0
  {
    hide HandlePacket;
    if inputs != [] {
      var m := |inputs| - 1;
      var before := RunOf(cfg, fs, inputs[..m]);
      HandleRecords(cfg, before.fs, before.state, inputs[m].packet, inputs[m].io);
      if before.state.finished {
        SettledForGood(cfg, fs, inputs, m);
      }
    }
  }

  /** The id that the settled session goes by. */
  lemma RecordedId(cfg: Config, fs: FileSystem, inputs: seq<Input>, i: nat, id: uint64)
    requires Decodable(inputs) && i < |inputs| && SettledAt(cfg, fs, inputs, i) && OnRecord(cfg, fs, inputs, i, id)
    ensures RunOf(cfg, fs, inputs[..i + 1]).state.sessionId == id
  {
    hide HandlePacket, RunOf, OpenedAt;
    var front := inputs[..i];
    var before := RunOf(cfg, fs, front);
    RunStep(cfg, fs, inputs, i);
    HandleRecords(cfg, before.fs, before.state, inputs[i].packet, inputs[i].io);
    forall k | 0 <= k < i ensures OpenedAt(cfg, fs, front, k) == OpenedAt(cfg, fs, inputs, k) {
      OpenedPrefix(cfg, fs, inputs, i, k);
    }
    if before.state.started {
      var k := OpenedSomewhere(cfg, fs, front);
      IdAtStart(cfg, fs, front, k);
      forall j | 0 <= j < i && OpenedAt(cfg, fs, inputs, j)
        ensures inputs[j].packet.header.sessionId == before.state.sessionId
      {
        IdAtStart(cfg, fs, front, j);
      }
    } else {
      UntouchedIsFresh(cfg, fs, front);
      assert i == 0;
    }
  }

  /** The step that brings the verdict answers with it. */
  lemma VerdictIsAnswer(cfg: Config, fs: FileSystem, s: State, p: Packet, io: Io)
    requires WellFormedState(cfg, s) && !s.finished && HandlePacket(cfg, fs, s, p, io).state.finished
    ensures var o := HandlePacket(cfg, fs, s, p, io);
            && o.state.finalReply == o.reply && o.reply.Reply?
            && o.reply.packetType == if Publishes(cfg, fs, s, p, io) then FinAck else ErrorPacket
  {
    hide HandlePacket, Publishes, Table, WellFormed;
    PublishedByVerifiedFin(cfg, fs, s, p, io);
    RefusalTable(cfg, fs, s, p, io);
    SettlesWithReply(cfg, fs, s, p, io);
  }

  lemma SettlesWithReply(cfg: Config, fs: FileSystem, s: State, p: Packet, io: Io)
    requires WellFormedState(cfg, s) && !s.finished && HandlePacket(cfg, fs, s, p, io).state.finished
    ensures var o := HandlePacket(cfg, fs, s, p, io);
            && o.state.finalReply == o.reply && o.reply.Reply?
            && o.reply.packetType == if o.state.published then FinAck else ErrorPacket
  {
    hide WellFormed, Classify, Mark, WriteAt, WriteCompletes, ToByte, StatusByte, ReadsComplete, RenameCompletes,
      Rename, Sanitize, JoinPath, TempPath;
  }

  lemma SameReply(cfg: Config, fs: FileSystem, inputs: seq<Input>, n: nat, i: nat)
    requires i < n <= |inputs|
    ensures RunOf(cfg, fs, inputs).replies[i] == RunOf(cfg, fs, inputs[..n]).replies[i]
    decreases |inputs|
  {
    hide HandlePacket;
    if n == |inputs| {
      assert inputs[..n] == inputs;
    } else {
      var front := inputs[..|inputs| - 1];
      assert front[..n] == inputs[..n];
      SameReply(cfg, fs, front, n, i);
    }
  }

  /** The verdict is repeated, word for word, exactly to those who ask again under the id on
      record: by FIN, whatever the verdict, and by START if it was an error. To everything else a
      settled session is silent, for the rest of the run. */
  lemma VerdictRepeated(cfg: Config, fs: FileSystem, inputs: seq<Input>, i: nat, j: nat, id: uint64)
    requires Decodable(inputs) && i < j < |inputs|
    requires SettledAt(cfg, fs, inputs, i) && OnRecord(cfg, fs, inputs, i, id)
    ensures var replies := RunOf(cfg, fs, inputs).replies;
            var h := inputs[j].packet.header;
            var published := PublishedAt(cfg, fs, inputs, i);
            && replies[i].Reply? && replies[i].packetType == (if published then FinAck else ErrorPacket)
            && replies[j] ==
               if h.sessionId == id && (h.packetType == Fin || (h.packetType == Start && !published))
               then replies[i] else Silent
  {
    hide HandlePacket, RunOf, OnRecord, Publishes;
    RunWellFormed(cfg, fs, inputs[..i]);
    var before := RunOf(cfg, fs, inputs[..i]);
    RunStep(cfg, fs, inputs, i);
    VerdictIsAnswer(cfg, before.fs, before.state, inputs[i].packet, inputs[i].io);
    RecordedId(cfg, fs, inputs, i, id);
    assert inputs[..j][..i + 1] == inputs[..i + 1];
    SettledForGood(cfg, fs, inputs[..j], i + 1);
    RunStep(cfg, fs, inputs, j);
    var later := RunOf(cfg, fs, inputs[..j]);
    SettledAnswers(cfg, later.fs, later.state, inputs[j].packet, inputs[j].io);
    SameReply(cfg, fs, inputs, i + 1, i);
    SameReply(cfg, fs, inputs, j + 1, j);
  }

  lemma SettledAnswers(cfg: Config, fs: FileSystem, s: State, p: Packet, io: Io)
    requires s.finished && s.finalReply.Reply?
    requires s.finalReply.packetType == ErrorPacket || s.finalReply.packetType == FinAck
    ensures HandlePacket(cfg, fs, s, p, io).reply ==
            if p.header.sessionId == s.sessionId &&
               (p.header.packetType == Fin || (p.header.packetType == Start && s.finalReply.packetType == ErrorPacket))
            then s.finalReply else Silent
  {
    hide Dispatch;
  }

  /** A FIN of session 1, sent twice with no START before it. */
  function FinTwice(): seq<Input> {
    var fin := Input(Packet(MakeHeader(Fin, 1, 0, 0, 0), []), ALL_WORKS);
    [fin, fin]
  }

  /** The packet that provoked an ERROR is not always answered again: before START no id is on
      record, so such a FIN is turned down once and then met with silence. */
  lemma EarlyFinUnanswered(cfg: Config, fs: FileSystem)
    ensures RunOf(cfg, fs, FinTwice()).replies == [Reply(ErrorPacket, 0, [6]), Silent]
  {
    hide HandlePacket, Sanitize;
    var inputs := FinTwice();
    var p := inputs[0].packet;
    assert inputs[..2] == inputs && inputs[..0] == [];
    RunWellFormed(cfg, fs, []);
    RunStep(cfg, fs, inputs, 0);
    RunStep(cfg, fs, inputs, 1);
    RefusalTable(cfg, fs, Fresh(cfg), p, ALL_WORKS);
    var one := RunOf(cfg, fs, inputs[..1]);
    HandleRecords(cfg, fs, Fresh(cfg), p, ALL_WORKS);
    SettledAnswers(cfg, one.fs, one.state, p, ALL_WORKS);
  }

  // ------------------------------------------------------------------------
  // What the counters count
  // ------------------------------------------------------------------------

  /** Input i was answered although it changed nothing: it had been answered before. */
  ghost predicate AnsweredAgain(cfg: Config, fs: FileSystem, inputs: seq<Input>, i: nat)
    requires i < |inputs|
  {
    var before, now := RunOf(cfg, fs, inputs[..i]), RunOf(cfg, fs, inputs[..i + 1]);
    now.replies[i].Reply? && now.state == before.state.(stats := now.state.stats)
  }

  /** Input i was a chunk of the running session, not stored, and not the next one in line; and it
      was not turned down for its size. */
  ghost predicate AheadOfTurn(cfg: Config, fs: FileSystem, inputs: seq<Input>, i: nat)
    requires i < |inputs|
  {
    var s, p := RunOf(cfg, fs, inputs[..i]).state, inputs[i].packet;
    && !s.finished && Own(s, p) && p.header.packetType == Data && !Recognised(s, p)
    && if NewChunk(s, p) then p.header.sequenceNumber != s.window.base && FitsDeclared(s, p) else true
  }

  ghost function CountAgain(cfg: Config, fs: FileSystem, inputs: seq<Input>): nat {
    if inputs == [] then 0
    else
      CountAgain(cfg, fs, inputs[..|inputs| - 1]) + (if AnsweredAgain(cfg, fs, inputs, |inputs| - 1) then 1 else 0)
  }

  ghost function CountAhead(cfg: Config, fs: FileSystem, inputs: seq<Input>): nat {
    if inputs == [] then 0
    else
      CountAhead(cfg, fs, inputs[..|inputs| - 1]) + (if AheadOfTurn(cfg, fs, inputs, |inputs| - 1) then 1 else 0)
  }

  lemma DataCounts(fs: FileSystem, s: State, p: Packet, io: Io)
    requires WellFormed(s.window) && !s.finished && Own(s, p) && p.header.packetType == Data
    ensures var o := OnData(fs, s, p, io);
            && o.state.stats.packetsReceived == s.stats.packetsReceived
            && o.state.stats.duplicates ==
               s.stats.duplicates + (if o.reply.Reply? && o.state == s.(stats := o.state.stats) then 1 else 0)
            && o.state.stats.outOfOrder ==
               s.stats.outOfOrder +
               (if !Recognised(s, p) &&
                   (NewChunk(s, p) ==> p.header.sequenceNumber != s.window.base && FitsDeclared(s, p)) then 1 else 0)
  {
    ChunkCases(s, p);
    MarkWellFormed(s.window, p.header.sequenceNumber);
    hide ToByte, StatusByte, WriteAt, WriteCompletes, Classify, NewChunk, Recognised, WellFormed, FileAt, Mark;
  }

  lemma OthersCount(cfg: Config, fs: FileSystem, s: State, p: Packet, io: Io)
    requires !s.finished && !(Own(s, p) && p.header.packetType == Data)
    ensures var o := Dispatch(cfg, fs, s, p, io);
            && o.state.stats.packetsReceived == s.stats.packetsReceived
            && o.state.stats.outOfOrder == s.stats.outOfOrder
            && o.state.stats.duplicates ==
               s.stats.duplicates + (if o.reply.Reply? && o.state == s.(stats := o.state.stats) then 1 else 0)
  {
    hide ToByte, StatusByte, OnData, ReadsComplete, RenameCompletes, Rename, FileAt, Sanitize, JoinPath, TempPath;
  }

  lemma StepCounts(cfg: Config, fs: FileSystem, s: State, p: Packet, io: Io)
    requires WellFormedState(cfg, s)
    ensures var o := HandlePacket(cfg, fs, s, p, io);
            && o.state.stats.packetsReceived == s.stats.packetsReceived + 1
            && o.state.stats.duplicates ==
               s.stats.duplicates + (if o.reply.Reply? && o.state == s.(stats := o.state.stats) then 1 else 0)
            && o.state.stats.outOfOrder ==
               s.stats.outOfOrder +
               (if !s.finished && Own(s, p) && p.header.packetType == Data && !Recognised(s, p) &&
                   (NewChunk(s, p) ==> p.header.sequenceNumber != s.window.base && FitsDeclared(s, p)) then 1 else 0)
  {
    hide Dispatch, WellFormed, Recognised, NewChunk;
    var counted := s.(stats := s.stats.(packetsReceived := s.stats.packetsReceived + 1));
    if !s.finished {
      ChunksAlike(s, p, counted.stats);
      if Own(s, p) && p.header.packetType == Data {
        DataDispatched(cfg, fs, counted, p, io);
        DataCounts(fs, counted, p, io);
      } else {
        OthersCount(cfg, fs, counted, p, io);
      }
      hide HandlePacket;
      SessionRunning(cfg, fs, s, p, io);
    }
  }

  lemma ChunksAlike(s: State, p: Packet, stats: Stats)
    ensures var t := s.(stats := stats);
            NewChunk(t, p) == NewChunk(s, p) && Recognised(t, p) == Recognised(s, p) && Own(t, p) == Own(s, p)
  {
  }

  lemma DataDispatched(cfg: Config, fs: FileSystem, s: State, p: Packet, io: Io)
    requires Own(s, p) && p.header.packetType == Data
    ensures Dispatch(cfg, fs, s, p, io) == OnData(fs, s, p, io)
  {
    hide OnData;
  }

  /** In any run: every packet is received, `duplicates` counts those that were answered although
      they changed nothing, and `outOfOrder` those chunks that were not the next in line. */
  lemma {:induction false} CountersCount(cfg: Config, fs: FileSystem, inputs: seq<Input>)
    requires Decodable(inputs)
    ensures var stats := RunOf(cfg, fs, inputs).state.stats;
            && stats.packetsReceived == |inputs|
            && stats.duplicates == CountAgain(cfg, fs, inputs)
            && stats.outOfOrder == CountAhead(cfg, fs, inputs)
    decreases |inputs|
  {
    hide HandlePacket, WellFormedState, Own, Recognised, NewChunk, FitsDeclared;
    if inputs != [] {
      var m := |inputs| - 1;
      CountersCount(cfg, fs, inputs[..m]);
      RunWellFormed(cfg, fs, inputs[..m]);
      RunStep(cfg, fs, inputs, m);
      assert inputs[..m + 1] == inputs;
      var before := RunOf(cfg, fs, inputs[..m]);
      StepCounts(cfg, before.fs, before.state, inputs[m].packet, inputs[m].io);
    }
  }

  lemma HandleKeepsRing(cfg: Config, fs: FileSystem, s: State, p: Packet, io: Io)
    ensures HandlePacket(cfg, fs, s, p, io).state.window.capacity == s.window.capacity
  {
    hide Classify, WriteAt, WriteCompletes, FileAt, ToByte, StatusByte, Slide, ReadsComplete, Rename, RenameCompletes;
  }

  /** The ring of a session is as large as asked for, but never empty. */
  lemma {:induction false} RingSize(cfg: Config, fs: FileSystem, inputs: seq<Input>)
    ensures RunOf(cfg, fs, inputs).state.window.capacity == if cfg.capacity == 0 then 1 else cfg.capacity
    decreases |inputs|
  {
    if inputs != [] {
      hide HandlePacket;
      var before := RunOf(cfg, fs, inputs[..|inputs| - 1]);
      var last := inputs[|inputs| - 1];
      RingSize(cfg, fs, inputs[..|inputs| - 1]);
      HandleKeepsRing(cfg, before.fs, before.state, last.packet, last.io);
    }
  }
}
