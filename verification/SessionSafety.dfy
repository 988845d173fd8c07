/** What a session guarantees against any sequence of packets, from any peer, under any
    failures of its system calls. */
module SessionSafety {
  import opened Common
  import opened Packets
  import opened Files
  import opened Filenames
  import opened ReceiverWindows
  import opened Sessions

  // ------------------------------------------------------------------------
  // One packet
  // ------------------------------------------------------------------------

  /** The only packet that publishes: a FIN of this session, for exactly the bytes written,
      carrying the digest of that prefix of the temporary file, with every call succeeding. */
  ghost predicate Publishes(cfg: Config, fs: FileSystem, s: State, p: Packet, io: Io) {
    var content := FileAt(fs, s.tempPath);
    && s.started && !s.finished
    && p.header.packetType == Fin && p.header.sessionId == s.sessionId
    && p.header.byteOffset == s.bytesWritten <= |content|
    && |p.payload| == DIGEST_SIZE && p.payload == cfg.digest(content[..s.bytesWritten])
    && io.syncWorks && ReadsComplete(content, s.bytesWritten, io.readFaults) && RenameCompletes(fs, s.tempPath, io)
  }

  /** A session becomes published by such a packet and by no other; then the whole temporary
      file is what appears under the output path. */
  lemma PublishedByVerifiedFin(cfg: Config, fs: FileSystem, s: State, p: Packet, io: Io)
    requires WellFormedState(cfg, s) && !s.published
    ensures var o := HandlePacket(cfg, fs, s, p, io);
            && (o.state.published <==> Publishes(cfg, fs, s, p, io))
            && (o.state.published ==>
                  && o.state.outputPath == s.outputPath && s.outputPath in o.fs
                  && o.fs[s.outputPath] == FileAt(fs, s.tempPath)
                  && o.reply == Reply(FinAck, p.header.sequenceNumber, []))
  {
    hide WellFormed, Classify, Mark, WriteAt, WriteCompletes, Sanitize, JoinPath, TempPath, ToByte,
      StatusByte;
  }

  /** After the verdict nothing changes: not the files, not the verdict; and every answer is
      the stored one or silence. */
  lemma SettledIsFinal(cfg: Config, fs: FileSystem, s: State, p: Packet, io: Io)
    requires s.finished
    ensures var o := HandlePacket(cfg, fs, s, p, io);
            && o.fs == fs && o.state == s.(stats := o.state.stats)
            && o.reply == (if Replays(s, p.header) then s.finalReply else Silent)
  {
  }

  /** One new sequence number stored, with the length and the bytes of this payload. */
  ghost predicate StoresChunk(fs: FileSystem, s: State, p: Packet, o: Outcome) {
    var k := p.header.sequenceNumber;
    && p.header.packetType == Data && k !in s.window.stored
    && o.state.window.stored == s.window.stored + {k}
    && o.state.bytesWritten == s.bytesWritten + |p.payload|
    && o.reply == Reply(Ack, k, [])
    && o.fs == fs[s.tempPath := Splice(FileAt(fs, s.tempPath), p.payload, p.header.byteOffset)]
  }

  ghost predicate StoresNothing(fs: FileSystem, s: State, o: Outcome) {
    && o.state.window == s.window && o.state.bytesWritten == s.bytesWritten
    && (o.state.finished || o.state.started != s.started || o.fs == fs)
  }

  lemma DataAccounting(fs: FileSystem, s: State, p: Packet, io: Io)
    requires WellFormed(s.window) && p.header.packetType == Data
    ensures var o := OnData(fs, s, p, io); StoresChunk(fs, s, p, o) || StoresNothing(fs, s, o)
  {
    hide WellFormed, Classify, Mark, WriteAt, WriteCompletes, Splice, FileAt, ToByte, StatusByte;
    MarkWellFormed(s.window, p.header.sequenceNumber);
    if Classify(s.window, p.header.sequenceNumber) == Accepted {
      AcceptedIsNew(s.window, p.header.sequenceNumber);
      if WriteCompletes(p.payload, p.header.byteOffset, io) {
        CompletedWrite(FileAt(fs, s.tempPath), p.payload, p.header.byteOffset, io);
      }
    }
  }

  /** Every packet either stores one new sequence number together with its payload, or leaves
      the set, the count and (unless the session starts or settles) the files as they were:
      a duplicate changes no byte and is counted once. */
  lemma StepAccounting(cfg: Config, fs: FileSystem, s: State, p: Packet, io: Io)
    requires WellFormedState(cfg, s)
    ensures var o := HandlePacket(cfg, fs, s, p, io);
            if o.state.window.stored != s.window.stored then StoresChunk(fs, s, p, o) else StoresNothing(fs, s, o)
  {
    hide WellFormed, OnData, Sanitize, JoinPath, TempPath, ToByte, StatusByte, ReadsComplete,
      RenameCompletes, Rename, Splice, FileAt;
    if s.started && !s.finished && p.header.packetType == Data {
      var counted := s.(stats := s.stats.(packetsReceived := s.stats.packetsReceived + 1));
      DataAccounting(fs, counted, p, io);
    }
  }

  /** The temporary file of a running session stays within the size declared at START. */
  ghost predicate WithinDeclared(fs: FileSystem, s: State) {
    s.started && !s.finished ==> s.tempPath in fs && |fs[s.tempPath]| <= s.declaredSize
  }

  /** A sum that wraps in 64 bits belongs to an offset that pwrite refuses, so no completed
      write passes the declared size, whatever the peer claims. */
  lemma WriteStaysWithin(content: seq<byte>, p: Packet, declared: nat, io: Io)
    requires |p.payload| <= MAX_PAYLOAD_SIZE && |content| <= declared
    requires ChunkEnd(p) <= declared && WriteCompletes(p.payload, p.header.byteOffset, io)
    ensures |WriteAt(content, p.payload, p.header.byteOffset, io)| <= declared
  {
  }

  lemma HandleWithinDeclared(cfg: Config, fs: FileSystem, s: State, p: Packet, io: Io)
    requires WellFormedState(cfg, s) && WithinDeclared(fs, s) && |p.payload| <= MAX_PAYLOAD_SIZE
    ensures var o := HandlePacket(cfg, fs, s, p, io); WithinDeclared(o.fs, o.state)
  {
    hide WellFormed, Classify, Mark, Sanitize, JoinPath, TempPath, ToByte, StatusByte, ReadsComplete,
      RenameCompletes, Rename, WriteAt, WriteCompletes;
    if s.started && !s.finished && ChunkEnd(p) <= s.declaredSize && WriteCompletes(p.payload, p.header.byteOffset, io) {
      WriteStaysWithin(fs[s.tempPath], p, s.declaredSize, io);
    }
  }

  // ------------------------------------------------------------------------
  // Whole runs
  // ------------------------------------------------------------------------

  datatype Input = Input(packet: Packet, io: Io)

  /** Files, state and answers after a session has handled `inputs` in order. */
  datatype Run = Run(fs: FileSystem, state: State, replies: seq<Reply>)

  function RunOf(cfg: Config, fs: FileSystem, inputs: seq<Input>): (r: Run)
    ensures |r.replies| == |inputs|
  {
    if inputs == [] then Run(fs, Fresh(cfg), [])
    else
      var before := RunOf(cfg, fs, inputs[..|inputs| - 1]);
      var last := inputs[|inputs| - 1];
      var o := HandlePacket(cfg, before.fs, before.state, last.packet, last.io);
      Run(o.fs, o.state, before.replies + [o.reply])
  }

  ghost predicate Decodable(inputs: seq<Input>) {
    forall i <- inputs :: |i.packet.payload| <= MAX_PAYLOAD_SIZE
  }

  lemma FreshWithinDeclared(cfg: Config, fs: FileSystem)
    ensures WithinDeclared(fs, Fresh(cfg))
  {
  }

  lemma {:induction false} RunWellFormed(cfg: Config, fs: FileSystem, inputs: seq<Input>)
    requires Decodable(inputs)
    ensures var r := RunOf(cfg, fs, inputs); WellFormedState(cfg, r.state) && WithinDeclared(r.fs, r.state)
  {
    hide HandlePacket, WellFormedState, WithinDeclared, Fresh;
    if inputs == [] {
      FreshWellFormed(cfg);
      FreshWithinDeclared(cfg, fs);
    } else {
      var rest := inputs[..|inputs| - 1];
      RunWellFormed(cfg, fs, rest);
      var before := RunOf(cfg, fs, rest);
      var last := inputs[|inputs| - 1];
      HandleWellFormed(cfg, before.fs, before.state, last.packet, last.io);
      HandleWithinDeclared(cfg, before.fs, before.state, last.packet, last.io);
    }
  }

  lemma RunStep(cfg: Config, fs: FileSystem, inputs: seq<Input>, i: nat)
    requires i < |inputs|
    ensures var before := RunOf(cfg, fs, inputs[..i]);
            var o := HandlePacket(cfg, before.fs, before.state, inputs[i].packet, inputs[i].io);
            RunOf(cfg, fs, inputs[..i + 1]) == Run(o.fs, o.state, before.replies + [o.reply])
  {
    hide HandlePacket;
    var upTo := inputs[..i + 1];
    assert upTo[..i] == inputs[..i] && upTo[i] == inputs[i];
  }

  /** Once settled, for the rest of the run: the files stay as they are, the verdict stays as
      it is, and every further answer is the stored one or silence. */
  lemma {:induction false} SettledForGood(cfg: Config, fs: FileSystem, inputs: seq<Input>, n: nat)
    requires n <= |inputs| && RunOf(cfg, fs, inputs[..n]).state.finished
    ensures var settled := RunOf(cfg, fs, inputs[..n]);
            var now := RunOf(cfg, fs, inputs);
            && now.fs == settled.fs && now.state == settled.state.(stats := now.state.stats)
            && forall i :: n <= i < |inputs| ==> now.replies[i] in {Silent, settled.state.finalReply}
    decreases |inputs|
  {
    if n == |inputs| {
      assert inputs[..n] == inputs;
    } else {
      hide HandlePacket;
      var m := |inputs| - 1;
      var rest := inputs[..m];
      assert rest[..n] == inputs[..n];
      SettledForGood(cfg, fs, rest, n);
      RunStep(cfg, fs, inputs, m);
      assert inputs[..m + 1] == inputs;
      var before := RunOf(cfg, fs, rest);
      SettledIsFinal(cfg, before.fs, before.state, inputs[m].packet, inputs[m].io);
    }
  }

  /** Step i of the run publishes. */
  ghost predicate PublishedAt(cfg: Config, fs: FileSystem, inputs: seq<Input>, i: nat)
    requires i < |inputs|
  {
    var before := RunOf(cfg, fs, inputs[..i]);
    Publishes(cfg, before.fs, before.state, inputs[i].packet, inputs[i].io)
  }

  lemma PublishedStays(cfg: Config, fs: FileSystem, inputs: seq<Input>, i: nat)
    requires Decodable(inputs) && i < |inputs| && PublishedAt(cfg, fs, inputs, i)
    ensures var before := RunOf(cfg, fs, inputs[..i]);
            var now := RunOf(cfg, fs, inputs);
            && now.state.published && before.state.outputPath == now.state.outputPath && now.state.outputPath in now.fs
            && now.fs[now.state.outputPath] == FileAt(before.fs, before.state.tempPath)
    ensures forall j :: i < j < |inputs| ==> !PublishedAt(cfg, fs, inputs, j)
  {
    hide HandlePacket, Publishes;
    RunWellFormed(cfg, fs, inputs[..i]);
    var before := RunOf(cfg, fs, inputs[..i]);
    assert !before.state.published by { PublishesFromRunning(cfg, before, inputs[i]); }
    PublishedByVerifiedFin(cfg, before.fs, before.state, inputs[i].packet, inputs[i].io);
    RunStep(cfg, fs, inputs, i);
    RunWellFormed(cfg, fs, inputs[..i + 1]);
    SettledForGood(cfg, fs, inputs, i + 1);
    forall j | i < j < |inputs| ensures !PublishedAt(cfg, fs, inputs, j) {
      assert inputs[..j][..i + 1] == inputs[..i + 1];
      SettledForGood(cfg, fs, inputs[..j], i + 1);
      if PublishedAt(cfg, fs, inputs, j) {
        PublishesFromRunning(cfg, RunOf(cfg, fs, inputs[..j]), inputs[j]);
      }
    }
  }

  lemma PublishesFromRunning(cfg: Config, before: Run, input: Input)
    requires Publishes(cfg, before.fs, before.state, input.packet, input.io)
    ensures !before.state.finished
    ensures VerdictAgrees(before.state) ==> !before.state.published
  {
  }

  /** In any run a session is published exactly when one step of the run published it; there
      is at most one such step, and what it renamed is what the output path holds at the end. */
  lemma {:induction false} PublishedOnce(cfg: Config, fs: FileSystem, inputs: seq<Input>)
    requires Decodable(inputs)
    ensures RunOf(cfg, fs, inputs).state.published <==>
            exists i :: 0 <= i < |inputs| && PublishedAt(cfg, fs, inputs, i)
    ensures forall i, j | 0 <= i < |inputs| && 0 <= j < |inputs| ::
              (PublishedAt(cfg, fs, inputs, i) && PublishedAt(cfg, fs, inputs, j) ==> i == j)
    decreases |inputs|
  {
    hide HandlePacket, Publishes, PublishedAt;
    forall i | 0 <= i < |inputs| && PublishedAt(cfg, fs, inputs, i)
      ensures RunOf(cfg, fs, inputs).state.published
      ensures forall j :: i < j < |inputs| ==> !PublishedAt(cfg, fs, inputs, j)
    {
      PublishedStays(cfg, fs, inputs, i);
    }
    if inputs != [] && RunOf(cfg, fs, inputs).state.published {
      LastPublished(cfg, fs, inputs);
    }
  }

  lemma {:induction false} LastPublished(cfg: Config, fs: FileSystem, inputs: seq<Input>)
    requires Decodable(inputs) && RunOf(cfg, fs, inputs).state.published
    ensures exists i :: 0 <= i < |inputs| && PublishedAt(cfg, fs, inputs, i)
    decreases |inputs|
  {
    hide HandlePacket, Publishes;
    var m := |inputs| - 1;
    var rest := inputs[..m];
    var before := RunOf(cfg, fs, rest);
    assert inputs[..m + 1] == inputs;
    RunStep(cfg, fs, inputs, m);
    if before.state.published {
      LastPublished(cfg, fs, rest);
      var i :| 0 <= i < |rest| && PublishedAt(cfg, fs, rest, i);
      assert rest[..i] == inputs[..i];
      assert PublishedAt(cfg, fs, inputs, i);
    } else {
      RunWellFormed(cfg, fs, rest);
      PublishedByVerifiedFin(cfg, before.fs, before.state, inputs[m].packet, inputs[m].io);
      assert PublishedAt(cfg, fs, inputs, m);
    }
  }

  // ------------------------------------------------------------------------
  // What a verified FIN does not verify
  // ------------------------------------------------------------------------

  /** START for a file of two bytes. */
  predicate OpensForTwo(p: Packet, id: uint64) {
    p.header.packetType == Start && p.header.sessionId == id && p.header.byteOffset == 2 && p.payload == [0x61]
  }

  /** One byte of DATA, past a hole of one byte. */
  predicate LeavesHole(p: Packet, id: uint64, x: byte) {
    && p.header.packetType == Data && p.header.sessionId == id
    && p.header.sequenceNumber == 0 && p.header.byteOffset == 1 && p.payload == [x]
  }

  lemma HoledStart(cfg: Config, fs: FileSystem, p: Packet, id: uint64)
    requires OpensForTwo(p, id)
    ensures var o := HandlePacket(cfg, fs, Fresh(cfg), p, ALL_WORKS);
            && o.fs == fs[o.state.tempPath := []] && o.state.tempPath == TempPath(cfg.directory, id)
            && o.state == Fresh(cfg).(started := true, sessionId := id, declaredSize := 2, stats := o.state.stats,
                                      tempPath := o.state.tempPath, outputPath := o.state.outputPath)
  {
    hide TempPath, JoinPath, EmptyView, Sanitize;
    LetterIsAccepted();
  }

  lemma LetterIsAccepted()
    ensures Sanitize([0x61]) == Ok([0x61])
  {
    hide Sanitize, IsControl, IsPermitted;
    LetterIsPlain();
    OneLetterName(0x61);
  }

  lemma LetterIsPlain()
    ensures !IsControl(0x61) && IsPermitted(0x61)
  {
  }

  lemma OneLetterName(letter: byte)
    requires !IsControl(letter) && IsPermitted(letter)
    requires letter != SLASH && letter != DOT && letter != DASH
    ensures Sanitize([letter]) == Ok([letter])
  {
    hide IsControl, IsPermitted;
    var name := [letter];
    assert BaseName(name) == name;
    assert forall c <- name :: c == letter;
  }

  lemma HoledData(cfg: Config, fs: FileSystem, s: State, p: Packet, x: byte)
    requires s.started && !s.finished && s.declaredSize == 2 && s.bytesWritten == 0 && LeavesHole(p, s.sessionId, x)
    requires s.window == EmptyView(cfg.capacity) && s.tempPath in fs && fs[s.tempPath] == []
    ensures var o := HandlePacket(cfg, fs, s, p, ALL_WORKS);
            && o.fs == fs[s.tempPath := [0, x]] && o.state.tempPath == s.tempPath && o.state.outputPath == s.outputPath
            && o.state.started && !o.state.finished && o.state.sessionId == s.sessionId && o.state.bytesWritten == 1
  {
    hide Mark, WriteAt;
    assert WriteAt([], [x], 1, ALL_WORKS) == [0, x] by {
      CompletedWrite([], [x], 1, ALL_WORKS);
      SpliceBytes([], [x], 1, 0);
      SpliceBytes([], [x], 1, 1);
    }
  }

  /** A peer that stores one byte past a hole and finishes with the digest of the hole. */
  function HoledTransfer(cfg: Config, x: byte): seq<Input> {
    [Input(Packet(MakeHeader(Start, 0, 0, 0, 2), [0x61]), ALL_WORKS),
     Input(Packet(MakeHeader(Data, 0, 0, 0, 1), [x]), ALL_WORKS),
     Input(Packet(MakeHeader(Fin, 0, 1, 0, 1), cfg.digest([0])), ALL_WORKS)]
  }

  /** Only the prefix that was counted is verified: such a peer has a file published whose
      last byte no digest vouches for. */
  lemma UnverifiedTail(cfg: Config, fs: FileSystem, x: byte)
    requires |cfg.digest([0])| == DIGEST_SIZE
    ensures var r := RunOf(cfg, fs, HoledTransfer(cfg, x));
            && r.state.published && r.state.bytesWritten == 1
            && r.state.outputPath in r.fs && r.fs[r.state.outputPath] == [0, x]
  {
    var inputs := HoledTransfer(cfg, x);
    hide HandlePacket, TempPath, JoinPath;
    assert inputs[..3] == inputs && inputs[..0] == [];
    RunStep(cfg, fs, inputs, 0);
    RunStep(cfg, fs, inputs, 1);
    RunStep(cfg, fs, inputs, 2);
    HoledStart(cfg, fs, inputs[0].packet, 0);
    HoledData(cfg, RunOf(cfg, fs, inputs[..1]).fs, RunOf(cfg, fs, inputs[..1]).state, inputs[1].packet, x);
    var before := RunOf(cfg, fs, inputs[..2]);
    RunWellFormed(cfg, fs, inputs[..2]);
    assert before.fs[before.state.tempPath][..1] == [0];
    PublishedByVerifiedFin(cfg, before.fs, before.state, inputs[2].packet, ALL_WORKS);
    FinKeepsCount(cfg, before.fs, before.state, inputs[2].packet);
  }

  lemma FinKeepsCount(cfg: Config, fs: FileSystem, s: State, p: Packet)
    requires p.header.packetType == Fin
    ensures HandlePacket(cfg, fs, s, p, ALL_WORKS).state.bytesWritten == s.bytesWritten
  {
    hide ToByte, StatusByte, ReadsComplete, RenameCompletes, Rename;
  }

  // ------------------------------------------------------------------------
  // Every stored byte is counted once
  // ------------------------------------------------------------------------

  /** Step i of the run stored its packet's sequence number. */
  ghost predicate StoredAt(cfg: Config, fs: FileSystem, inputs: seq<Input>, i: nat)
    requires i < |inputs|
  {
    RunOf(cfg, fs, inputs[..i + 1]).state.window.stored != RunOf(cfg, fs, inputs[..i]).state.window.stored
  }

  function SequenceOf(inputs: seq<Input>, i: nat): uint32
    requires i < |inputs|
  {
    inputs[i].packet.header.sequenceNumber
  }

  /** Payload bytes of the steps that stored something. */
  ghost function StoredBytes(cfg: Config, fs: FileSystem, inputs: seq<Input>): nat {
    if inputs == [] then 0
    else
      var m := |inputs| - 1;
      StoredBytes(cfg, fs, inputs[..m]) + (if StoredAt(cfg, fs, inputs, m) then |inputs[m].packet.payload| else 0)
  }

  lemma StoredAtPrefix(cfg: Config, fs: FileSystem, inputs: seq<Input>, n: nat, i: nat)
    requires i < n <= |inputs|
    ensures StoredAt(cfg, fs, inputs[..n], i) == StoredAt(cfg, fs, inputs, i)
  {
    hide RunOf;
    assert inputs[..n][..i] == inputs[..i] && inputs[..n][..i + 1] == inputs[..i + 1];
  }

  /** What one step adds to the run. */
  lemma StoringStep(cfg: Config, fs: FileSystem, inputs: seq<Input>, i: nat)
    requires Decodable(inputs) && i < |inputs|
    ensures var before := RunOf(cfg, fs, inputs[..i]).state;
            var now := RunOf(cfg, fs, inputs[..i + 1]).state;
            if StoredAt(cfg, fs, inputs, i)
            then && SequenceOf(inputs, i) !in before.window.stored
                 && now.window.stored == before.window.stored + {SequenceOf(inputs, i)}
                 && now.bytesWritten == before.bytesWritten + |inputs[i].packet.payload|
            else now.window.stored == before.window.stored && now.bytesWritten == before.bytesWritten
  {
    hide HandlePacket, RunOf, WellFormedState;
    RunWellFormed(cfg, fs, inputs[..i]);
    RunStep(cfg, fs, inputs, i);
    var before := RunOf(cfg, fs, inputs[..i]);
    StepAccounting(cfg, before.fs, before.state, inputs[i].packet, inputs[i].io);
  }

  /** In any run the stored sequence numbers are those of the storing steps, no two of which
      store the same one, and the byte count is the sum of their payloads: repeats, rejected
      and misdirected packets add nothing. */
  lemma {:induction false} BytesCountedOnce(cfg: Config, fs: FileSystem, inputs: seq<Input>)
    requires Decodable(inputs)
    ensures var s := RunOf(cfg, fs, inputs).state;
            && s.bytesWritten == StoredBytes(cfg, fs, inputs)
            && (forall k :: k in s.window.stored <==>
                  exists i :: 0 <= i < |inputs| && StoredAt(cfg, fs, inputs, i) && SequenceOf(inputs, i) == k)
    ensures forall i, j | 0 <= i < j < |inputs| ::
              (StoredAt(cfg, fs, inputs, i) && StoredAt(cfg, fs, inputs, j) ==>
                 SequenceOf(inputs, i) != SequenceOf(inputs, j))
    decreases |inputs|
  {
    hide HandlePacket, StoredAt;
    if inputs != [] {
      var m := |inputs| - 1;
      var rest := inputs[..m];
      BytesCountedOnce(cfg, fs, rest);
      StoringStep(cfg, fs, inputs, m);
      assert inputs[..m + 1] == inputs;
      forall i | 0 <= i < m
        ensures StoredAt(cfg, fs, inputs, i) == StoredAt(cfg, fs, rest, i)
        ensures SequenceOf(inputs, i) == SequenceOf(rest, i)
      {
        StoredAtPrefix(cfg, fs, inputs, m, i);
      }
    }
  }

  // ------------------------------------------------------------------------
  // When the published file is verified as a whole
  // ------------------------------------------------------------------------

  /** Step i stored bytes. */
  ghost predicate Reaches(cfg: Config, fs: FileSystem, inputs: seq<Input>, i: nat)
    requires i < |inputs|
  {
    StoredAt(cfg, fs, inputs, i) && inputs[i].packet.payload != []
  }

  /** Where the bytes of step i end. */
  function ReachOf(inputs: seq<Input>, i: nat): nat
    requires i < |inputs|
  {
    inputs[i].packet.header.byteOffset + |inputs[i].packet.payload|
  }

  /** A file of this length holds every stored byte, and ends with one of them. */
  ghost predicate LongestReach(cfg: Config, fs: FileSystem, inputs: seq<Input>, length: nat) {
    && (forall j :: 0 <= j < |inputs| && Reaches(cfg, fs, inputs, j) ==> ReachOf(inputs, j) <= length)
    && (length == 0 || exists j :: 0 <= j < |inputs| && Reaches(cfg, fs, inputs, j) && ReachOf(inputs, j) == length)
  }

  /** What one packet does to the temporary file of a session that is running afterwards. */
  lemma RunningFile(cfg: Config, fs: FileSystem, s: State, p: Packet, io: Io)
    requires WellFormedState(cfg, s) && !HandlePacket(cfg, fs, s, p, io).state.finished
    requires HandlePacket(cfg, fs, s, p, io).state.started
    ensures var o := HandlePacket(cfg, fs, s, p, io);
            var before := FileAt(fs, s.tempPath);
            var after := FileAt(o.fs, o.state.tempPath);
            if !s.started then after == [] && o.state.window.stored == {}
            else
              && !s.finished
              && (if o.state.window.stored == s.window.stored then after == before
                  else after == Splice(before, p.payload, p.header.byteOffset))
  {
    hide WellFormed, OnData, OnFin, Sanitize, JoinPath, TempPath, ToByte, StatusByte, Splice;
    var counted := s.(stats := s.stats.(packetsReceived := s.stats.packetsReceived + 1));
    if s.started && !s.finished && p.header.packetType == Data {
      DataRunningFile(fs, counted, p, io);
    }
    if s.started && !s.finished && p.header.packetType == Fin {
      FinSettles(cfg, fs, counted, p, io);
    }
  }

  lemma DataRunningFile(fs: FileSystem, s: State, p: Packet, io: Io)
    requires WellFormed(s.window) && p.header.packetType == Data && !s.finished
    requires !OnData(fs, s, p, io).state.finished
    ensures var o := OnData(fs, s, p, io);
            && o.state.tempPath == s.tempPath
            && (if o.state.window.stored == s.window.stored then o.fs == fs
                else FileAt(o.fs, s.tempPath) == Splice(FileAt(fs, s.tempPath), p.payload, p.header.byteOffset))
  {
    hide WellFormed, Classify, Mark, WriteAt, WriteCompletes, Splice, ToByte, StatusByte;
    MarkWellFormed(s.window, p.header.sequenceNumber);
    if Classify(s.window, p.header.sequenceNumber) == Accepted {
      AcceptedIsNew(s.window, p.header.sequenceNumber);
      if WriteCompletes(p.payload, p.header.byteOffset, io) {
        CompletedWrite(FileAt(fs, s.tempPath), p.payload, p.header.byteOffset, io);
      }
    }
  }

  lemma FinSettles(cfg: Config, fs: FileSystem, s: State, p: Packet, io: Io)
    ensures OnFin(cfg, fs, s, p, io).state.finished
  {
    hide ToByte, StatusByte, ReadsComplete, RenameCompletes, Rename;
  }

  lemma NothingReached(cfg: Config, fs: FileSystem, inputs: seq<Input>)
    requires Decodable(inputs) && RunOf(cfg, fs, inputs).state.window.stored == {}
    ensures LongestReach(cfg, fs, inputs, 0)
  {
    hide RunOf, StoredAt;
    forall j | 0 <= j < |inputs| ensures !Reaches(cfg, fs, inputs, j) {
      if StoredAt(cfg, fs, inputs, j) {
        StaysStored(cfg, fs, inputs, j);
      }
    }
  }

  lemma StaysStored(cfg: Config, fs: FileSystem, inputs: seq<Input>, j: nat)
    requires Decodable(inputs) && j < |inputs| && StoredAt(cfg, fs, inputs, j)
    ensures SequenceOf(inputs, j) in RunOf(cfg, fs, inputs).state.window.stored
  {
    hide RunOf, StoredAt;
    BytesCountedOnce(cfg, fs, inputs);
  }

  lemma ReachGrows(cfg: Config, fs: FileSystem, inputs: seq<Input>, length: nat, now: nat)
    requires inputs != []
    requires var m := |inputs| - 1;
             LongestReach(cfg, fs, inputs[..m], length) &&
             now == (if Reaches(cfg, fs, inputs, m) && ReachOf(inputs, m) > length then ReachOf(inputs, m) else length)
    ensures LongestReach(cfg, fs, inputs, now)
  {
    hide StoredAt;
    var m := |inputs| - 1;
    var rest := inputs[..m];
    forall j | 0 <= j < m
      ensures Reaches(cfg, fs, inputs, j) == Reaches(cfg, fs, rest, j) && ReachOf(inputs, j) == ReachOf(rest, j)
    {
      StoredAtPrefix(cfg, fs, inputs, m, j);
    }
    if now == length && length > 0 {
      var j :| 0 <= j < |rest| && Reaches(cfg, fs, rest, j) && ReachOf(rest, j) == length;
      assert Reaches(cfg, fs, inputs, j);
    }
  }

  /** In any run the temporary file of a running session ends exactly where the stored bytes
      that reach furthest end. */
  lemma {:induction false} FileEndsAtReach(cfg: Config, fs: FileSystem, inputs: seq<Input>)
    requires Decodable(inputs)
    requires RunOf(cfg, fs, inputs).state.started && !RunOf(cfg, fs, inputs).state.finished
    ensures var r := RunOf(cfg, fs, inputs); LongestReach(cfg, fs, inputs, |FileAt(r.fs, r.state.tempPath)|)
    decreases |inputs|
  {
    hide HandlePacket, LongestReach, StoredAt, WellFormedState, FileAt, Splice;
    var m := |inputs| - 1;
    var rest := inputs[..m];
    var before := RunOf(cfg, fs, rest);
    var now := RunOf(cfg, fs, inputs);
    assert inputs[..m + 1] == inputs;
    RunStep(cfg, fs, inputs, m);
    RunWellFormed(cfg, fs, rest);
    var p := inputs[m].packet;
    RunningFile(cfg, before.fs, before.state, p, inputs[m].io);
    if !before.state.started {
      NothingReached(cfg, fs, inputs);
    } else {
      FileEndsAtReach(cfg, fs, rest);
      StoredAtLast(cfg, fs, inputs);
      ReachGrows(cfg, fs, inputs, |FileAt(before.fs, before.state.tempPath)|, |FileAt(now.fs, now.state.tempPath)|);
    }
  }

  lemma StoredAtLast(cfg: Config, fs: FileSystem, inputs: seq<Input>)
    requires inputs != []
    ensures var m := |inputs| - 1;
            StoredAt(cfg, fs, inputs, m) <==>
            RunOf(cfg, fs, inputs).state.window.stored != RunOf(cfg, fs, inputs[..m]).state.window.stored
  {
    hide RunOf;
    assert inputs[..|inputs| - 1 + 1] == inputs;
  }

  /** For every peer and every run: the first n bytes of a published file are the ones its FIN
      vouches for, n being the offset the FIN names; and they are the whole file if and only if
      nothing was stored beyond them before the FIN came. */
  lemma VerifiedWhole(cfg: Config, fs: FileSystem, inputs: seq<Input>, i: nat)
    requires Decodable(inputs) && i < |inputs| && PublishedAt(cfg, fs, inputs, i)
    ensures var fin := inputs[i].packet;
            var n := fin.header.byteOffset;
            var r := RunOf(cfg, fs, inputs);
            && r.state.published && r.state.outputPath in r.fs
            && var file := r.fs[r.state.outputPath];
               && n <= |file| && cfg.digest(file[..n]) == fin.payload
               && (|file| == n <==>
                     forall j :: 0 <= j < i && Reaches(cfg, fs, inputs, j) ==> ReachOf(inputs, j) <= n)
  {
    hide HandlePacket, RunOf, StoredAt;
    PublishedStays(cfg, fs, inputs, i);
    var before := RunOf(cfg, fs, inputs[..i]);
    PublishingFin(cfg, before, inputs[i]);
    FileEndsAtReach(cfg, fs, inputs[..i]);
    var rest := inputs[..i];
    forall j | 0 <= j < i
      ensures Reaches(cfg, fs, inputs, j) == Reaches(cfg, fs, rest, j) && ReachOf(inputs, j) == ReachOf(rest, j)
    {
      StoredAtPrefix(cfg, fs, inputs, i, j);
    }
    hide PublishedAt, FileAt;
    var length := |FileAt(before.fs, before.state.tempPath)|;
    if length > inputs[i].packet.header.byteOffset {
      var j :| 0 <= j < |rest| && Reaches(cfg, fs, rest, j) && ReachOf(rest, j) == length;
      assert Reaches(cfg, fs, inputs, j);
    }
  }

  lemma PublishingFin(cfg: Config, before: Run, input: Input)
    requires Publishes(cfg, before.fs, before.state, input.packet, input.io)
    ensures var content := FileAt(before.fs, before.state.tempPath);
            var n := input.packet.header.byteOffset;
            && before.state.started && !before.state.finished
            && n <= |content| && input.packet.payload == cfg.digest(content[..n])
  {
  }

  // ------------------------------------------------------------------------
  // When the published file is complete as well
  // ------------------------------------------------------------------------

  /** Step i of the run opened the session. */
  ghost predicate OpenedAt(cfg: Config, fs: FileSystem, inputs: seq<Input>, i: nat)
    requires i < |inputs|
  {
    !RunOf(cfg, fs, inputs[..i]).state.started && RunOf(cfg, fs, inputs[..i + 1]).state.started
  }

  /** How START and the declared size hang together in one step. */
  lemma HandleDeclares(cfg: Config, fs: FileSystem, s: State, p: Packet, io: Io)
    ensures var t := HandlePacket(cfg, fs, s, p, io).state;
            && (s.started ==> t.started && t.declaredSize == s.declaredSize)
            && (!s.started && t.started ==> p.header.packetType == Start && t.declaredSize == p.header.byteOffset)
  {
    hide Classify, Mark, WriteAt, WriteCompletes, ToByte, StatusByte, ReadsComplete, RenameCompletes, Rename,
      Sanitize, JoinPath, TempPath;
  }

  /** A session is opened by one START, and keeps for good the size that this START declared. */
  lemma {:induction false} DeclaredAtStart(cfg: Config, fs: FileSystem, inputs: seq<Input>, i: nat)
    requires i < |inputs| && OpenedAt(cfg, fs, inputs, i)
    ensures inputs[i].packet.header.packetType == Start
    ensures var s := RunOf(cfg, fs, inputs).state;
            s.started && s.declaredSize == inputs[i].packet.header.byteOffset
    decreases |inputs|
  {
    hide HandlePacket;
    var m := |inputs| - 1;
    var front := inputs[..m];
    assert inputs[..m + 1] == inputs;
    RunStep(cfg, fs, inputs, m);
    var before := RunOf(cfg, fs, front);
    HandleDeclares(cfg, before.fs, before.state, inputs[m].packet, inputs[m].io);
    if i < m {
      OpenedPrefix(cfg, fs, inputs, m, i);
      DeclaredAtStart(cfg, fs, front, i);
    }
  }

  lemma {:induction false} OpenedSomewhere(cfg: Config, fs: FileSystem, inputs: seq<Input>) returns (i: nat)
    requires RunOf(cfg, fs, inputs).state.started
    ensures i < |inputs| && OpenedAt(cfg, fs, inputs, i)
    decreases |inputs|
  {
    hide HandlePacket;
    var m := |inputs| - 1;
    var front := inputs[..m];
    assert inputs[..m + 1] == inputs;
    if RunOf(cfg, fs, front).state.started {
      i := OpenedSomewhere(cfg, fs, front);
      OpenedPrefix(cfg, fs, inputs, m, i);
    } else {
      i := m;
    }
  }

  /** It has the declared size, verified or not, if and only if some stored bytes end there. */
  lemma FullLength(cfg: Config, fs: FileSystem, inputs: seq<Input>, i: nat)
    requires Decodable(inputs) && i < |inputs| && PublishedAt(cfg, fs, inputs, i)
    ensures var r := RunOf(cfg, fs, inputs);
            && r.state.published && r.state.outputPath in r.fs
            && (|r.fs[r.state.outputPath]| == r.state.declaredSize <==>
                  r.state.declaredSize == 0 ||
                  exists j :: 0 <= j < i && Reaches(cfg, fs, inputs, j) && ReachOf(inputs, j) == r.state.declaredSize)
  {
    hide HandlePacket, RunOf, StoredAt, OpenedAt;
    CompleteAndVerified(cfg, fs, inputs, i);
    var k :| 0 <= k < i && OpenedAt(cfg, fs, inputs, k);
    DeclaredAtStart(cfg, fs, inputs, k);
    PublishedStays(cfg, fs, inputs, i);
    var before := RunOf(cfg, fs, inputs[..i]);
    PublishingFin(cfg, before, inputs[i]);
    FileEndsAtReach(cfg, fs, inputs[..i]);
    var rest := inputs[..i];
    forall j | 0 <= j < i
      ensures Reaches(cfg, fs, inputs, j) == Reaches(cfg, fs, rest, j) && ReachOf(inputs, j) == ReachOf(rest, j)
    {
      StoredAtPrefix(cfg, fs, inputs, i, j);
    }
    hide PublishedAt, FileAt;
  }

  lemma OpenedPrefix(cfg: Config, fs: FileSystem, inputs: seq<Input>, n: nat, i: nat)
    requires i < n <= |inputs|
    ensures OpenedAt(cfg, fs, inputs[..n], i) == OpenedAt(cfg, fs, inputs, i)
  {
    hide RunOf;
    assert inputs[..n][..i] == inputs[..i] && inputs[..n][..i + 1] == inputs[..i + 1];
  }

  /** For every peer and every run: a published file is never longer than its START declared,
      and it is complete and verified as a whole if and only if the FIN that published it named
      the declared size. The code compares the offset of FIN with the bytes it has counted, and
      with nothing else. */
  lemma CompleteAndVerified(cfg: Config, fs: FileSystem, inputs: seq<Input>, i: nat)
    requires Decodable(inputs) && i < |inputs| && PublishedAt(cfg, fs, inputs, i)
    ensures exists j :: 0 <= j < i && OpenedAt(cfg, fs, inputs, j)
    ensures forall j :: 0 <= j < |inputs| && OpenedAt(cfg, fs, inputs, j) ==>
              var declared := inputs[j].packet.header.byteOffset;
              var n := inputs[i].packet.header.byteOffset;
              var r := RunOf(cfg, fs, inputs);
              && r.state.published && r.state.outputPath in r.fs
              && var length := |r.fs[r.state.outputPath]|;
                 && n <= length <= declared
                 && (length == declared && length == n <==> n == declared)
  {
    hide HandlePacket, RunOf, OpenedAt;
    PublishedStays(cfg, fs, inputs, i);
    var before := RunOf(cfg, fs, inputs[..i]);
    PublishingFin(cfg, before, inputs[i]);
    RunWellFormed(cfg, fs, inputs[..i]);
    var k := OpenedSomewhere(cfg, fs, inputs[..i]);
    OpenedPrefix(cfg, fs, inputs, i, k);
    DeclaredAtStart(cfg, fs, inputs[..i], k);
    DeclaredAtStart(cfg, fs, inputs, k);
    hide PublishedAt;
    forall j | 0 <= j < |inputs| && OpenedAt(cfg, fs, inputs, j)
      ensures inputs[j].packet.header.byteOffset == inputs[k].packet.header.byteOffset
    {
      DeclaredAtStart(cfg, fs, inputs, j);
    }
  }

  /** A peer that declares two bytes, stores one and finishes with the digest of that one. */
  function ShortTransfer(cfg: Config, x: byte): seq<Input> {
    [Input(Packet(MakeHeader(Start, 0, 0, 0, 2), [0x61]), ALL_WORKS),
     Input(Packet(MakeHeader(Data, 0, 0, 0, 0), [x]), ALL_WORKS),
     Input(Packet(MakeHeader(Fin, 0, 1, 0, 1), cfg.digest([x])), ALL_WORKS)]
  }

  lemma FirstByte(cfg: Config, fs: FileSystem, s: State, p: Packet, x: byte)
    requires s.started && !s.finished && s.declaredSize == 2 && s.bytesWritten == 0
    requires p.header == MakeHeader(Data, s.sessionId, 0, 0, 0) && p.payload == [x]
    requires s.window == EmptyView(cfg.capacity) && s.tempPath in fs && fs[s.tempPath] == []
    ensures var o := HandlePacket(cfg, fs, s, p, ALL_WORKS);
            && o.fs == fs[s.tempPath := [x]] && o.state.tempPath == s.tempPath && o.state.outputPath == s.outputPath
            && o.state.started && !o.state.finished && o.state.sessionId == s.sessionId && o.state.bytesWritten == 1
  {
    hide Mark, WriteAt;
    assert WriteAt([], [x], 0, ALL_WORKS) == [x] by {
      CompletedWrite([], [x], 0, ALL_WORKS);
      SpliceBytes([], [x], 0, 0);
    }
  }

  /** Such a peer has a file of one byte published for the two it declared, although nothing is
      stored beyond what its FIN vouches for. */
  lemma ShortFile(cfg: Config, fs: FileSystem, x: byte)
    requires |cfg.digest([x])| == DIGEST_SIZE
    ensures var r := RunOf(cfg, fs, ShortTransfer(cfg, x));
            && r.state.published && r.state.declaredSize == 2
            && r.state.outputPath in r.fs && r.fs[r.state.outputPath] == [x]
  {
    var inputs := ShortTransfer(cfg, x);
    hide HandlePacket, TempPath, JoinPath;
    assert inputs[..3] == inputs && inputs[..0] == [];
    RunStep(cfg, fs, inputs, 0);
    RunStep(cfg, fs, inputs, 1);
    RunStep(cfg, fs, inputs, 2);
    HoledStart(cfg, fs, inputs[0].packet, 0);
    FirstByte(cfg, RunOf(cfg, fs, inputs[..1]).fs, RunOf(cfg, fs, inputs[..1]).state, inputs[1].packet, x);
    var before := RunOf(cfg, fs, inputs[..2]);
    RunWellFormed(cfg, fs, inputs[..2]);
    assert before.fs[before.state.tempPath][..1] == [x];
    PublishedByVerifiedFin(cfg, before.fs, before.state, inputs[2].packet, ALL_WORKS);
    DeclaredAtStart(cfg, fs, inputs, 0);
  }

  // ------------------------------------------------------------------------
  // An abandoned session leaves nothing behind
  // ------------------------------------------------------------------------

  /** Up to its temporary file, an unpublished session has not touched the disk. */
  ghost predicate Untouched(fs: FileSystem, now: FileSystem, s: State) {
    !s.published ==> if s.tempPath == [] then now == fs else now - {s.tempPath} == fs - {s.tempPath}
  }

  lemma TempPathNotEmpty(directory: Path, id: uint64)
    ensures TempPath(directory, id) != []
  {
    hide Hex;
    assert |TempName(id)| == 35;
  }

  lemma HandleUntouched(cfg: Config, fs: FileSystem, now: FileSystem, s: State, p: Packet, io: Io)
    requires WellFormedState(cfg, s) && Untouched(fs, now, s)
    requires !s.finished && !s.started ==> s.tempPath == []
    ensures var o := HandlePacket(cfg, now, s, p, io);
            && Untouched(fs, o.fs, o.state)
            && (!o.state.finished && !o.state.started ==> o.state.tempPath == [])
  {
    hide WellFormed, Classify, Mark, Sanitize, JoinPath, TempPath, ToByte, StatusByte, ReadsComplete,
      RenameCompletes, Rename, WriteAt, WriteCompletes;
    TempPathNotEmpty(cfg.directory, s.sessionId);
    TempPathNotEmpty(cfg.directory, p.header.sessionId);
  }

  lemma {:induction false} RunUntouched(cfg: Config, fs: FileSystem, inputs: seq<Input>)
    requires Decodable(inputs)
    ensures var r := RunOf(cfg, fs, inputs);
            && Untouched(fs, r.fs, r.state)
            && (!r.state.finished && !r.state.started ==> r.state.tempPath == [])
  {
    hide HandlePacket, Untouched;
    if inputs == [] {
      FreshUntouched(cfg, fs);
    } else {
      var m := |inputs| - 1;
      var before := RunOf(cfg, fs, inputs[..m]);
      RunUntouched(cfg, fs, inputs[..m]);
      RunWellFormed(cfg, fs, inputs[..m]);
      HandleUntouched(cfg, fs, before.fs, before.state, inputs[m].packet, inputs[m].io);
    }
  }

  lemma FreshUntouched(cfg: Config, fs: FileSystem)
    ensures Untouched(fs, fs, Fresh(cfg))
  {
  }

  /** Destroying a session after any run: if it did not publish, the disk is what it was
      before the session, without its temporary file; if it did, nothing more happens. */
  lemma AbandonedLeavesNothing(cfg: Config, fs: FileSystem, inputs: seq<Input>)
    requires Decodable(inputs)
    ensures var r := RunOf(cfg, fs, inputs);
            Destroy(r.fs, r.state) ==
            if r.state.published then r.fs
            else if r.state.tempPath == [] then fs
            else fs - {r.state.tempPath}
  {
    RunUntouched(cfg, fs, inputs);
  }
}
