/** A transfer whose disk works and that no other session breaks into never fails at the
    receiver: every packet is answered in kind, and no error is ever sent. */
module Progress {
  import opened Common
  import opened Packets
  import opened Files
  import opened Filenames
  import opened Chunking
  import opened ReceiverWindows
  import opened Sessions
  import opened Senders
  import opened Transfers
  import opened Exactness
  import opened CrossWindow

  /** What the transfer must be set up with: a name and chunks that fit a packet, sizes that do
      not wrap, one digest function of 32 bytes on both ends, a first try, and a timeout that
      lies ahead. */
  ghost predicate Workable(setup: Setup) {
    var c := setup.sender;
    && CanStart(c) && Sanitize(c.name).Ok? && |c.name| <= MAX_PAYLOAD_SIZE
    && c.chunkSize <= MAX_PAYLOAD_SIZE && |c.file| + c.chunkSize - 1 < TWO_64 && |c.file| <= TWO_63
    && c.digest(c.file) == setup.receiver.digest(c.file) && |c.digest(c.file)| == DIGEST_SIZE
    && c.maxRetries >= 0 && c.rto > 0
  }

  /** And windows that fit. */
  ghost predicate Sound(setup: Setup) {
    Workable(setup) && WindowsFit(setup)
  }

  lemma SoundStarts(setup: Setup)
    requires Workable(setup)
    ensures CanStart(setup.sender)
  {
  }

  lemma SoundWorks(setup: Setup)
    requires Sound(setup)
    ensures Workable(setup) && CanStart(setup.sender) && WindowsFit(setup)
  {
  }

  // ------------------------------------------------------------------------
  // The receiver does not fail
  // ------------------------------------------------------------------------

  ghost predicate Healthy(setup: Setup, w: World) {
    && w.session.error == NoError && SessionSafety.WithinDeclared(w.fs, w.session)
    && (w.session.started ==> w.session.sessionId == setup.sender.sessionId)
  }

  /** The session that a packet of this transfer meets in an undisturbed run. */
  ghost predicate Meets(setup: Setup, fs: FileSystem, s: State, p: Packet)
    requires CanStart(setup.sender)
  {
    var c := setup.sender;
    && WellFormedState(setup.receiver, s) && OurDisk(setup, fs, s) && SessionSafety.WithinDeclared(fs, s)
    && s.error == NoError && Ours(c, p)
    && (s.started ==> s.sessionId == c.sessionId)
    && (p.header.packetType == Packets.Start || s.started)
    && (p.header.packetType == Fin ==> s.bytesWritten == |c.file|)
    && (p.header.packetType == Data ==>
          Classify(s.window, p.header.sequenceNumber) ==
          (if p.header.sequenceNumber in s.window.stored then Duplicate else Accepted))
  }

  /** What a packet of this transfer is answered with while the session is running. */
  function Answer(p: Packet): Reply {
    match p.header.packetType
    case Start => Reply(StartAck, p.header.sequenceNumber, [])
    case Data => Reply(Ack, p.header.sequenceNumber, [])
    case Fin => Reply(FinAck, p.header.sequenceNumber, [])
    case _ => Silent
  }

  lemma DataAnswered(setup: Setup, fs: FileSystem, s: State, p: Packet)
    requires Workable(setup) && Meets(setup, fs, s, p) && !s.finished && p.header.packetType == Data
    ensures var o := OnData(fs, s, p, ALL_WORKS);
            o.state.error == NoError && o.reply == Answer(p) && p.header.sequenceNumber in o.state.window.stored
  {
    var c := setup.sender;
    var k := p.header.sequenceNumber;
    ChunkByte(c, k, 0);
    SizesFit(setup, p);
    MarkWellFormed(s.window, k);
    hide Classify, Mark, WellFormed, ChunkBytes, Offset, Total, WriteAt, Stored, DiskHolds, Sanitize,
      JoinPath, TempPath, FileAt, WindowsFit;
  }

  lemma SizesFit(setup: Setup, p: Packet)
    requires Workable(setup) && Ours(setup.sender, p) && p.header.packetType == Data
    ensures ChunkEnd(p) <= |setup.sender.file|
    ensures WriteCompletes(p.payload, p.header.byteOffset, ALL_WORKS)
  {
    hide ChunkBytes, Offset, Total, Sanitize, WindowsFit, InChunk;
    ChunkByte(setup.sender, p.header.sequenceNumber, 0);
  }

  lemma FinAnswered(setup: Setup, fs: FileSystem, s: State, p: Packet)
    requires Workable(setup) && Meets(setup, fs, s, p) && !s.finished && p.header.packetType == Fin
    ensures var o := OnFin(setup.receiver, fs, s, p, ALL_WORKS);
            o.state.error == NoError && o.reply == Answer(p)
  {
    var c := setup.sender;
    hide WellFormed, Total, Stored, DiskHolds, Sanitize, JoinPath, TempPath, Rename, WindowsFit;
    CompleteDisk(c, s.window.stored, FileAt(fs, s.tempPath));
    assert FileAt(fs, s.tempPath)[..s.bytesWritten] == c.file;
  }

  lemma DispatchAnswered(setup: Setup, fs: FileSystem, s: State, p: Packet)
    requires Workable(setup) && Meets(setup, fs, s, p) && !s.finished
    ensures var o := Dispatch(setup.receiver, fs, s, p, ALL_WORKS);
            o.state.error == NoError && o.reply == Answer(p)
  {
    if p.header.packetType == Data {
      DataAnswered(setup, fs, s, p);
    } else if p.header.packetType == Fin {
      FinAnswered(setup, fs, s, p);
    }
    hide OnData, OnFin, WellFormedState, OurDisk, JoinPath, TempPath, ToByte, StatusByte, Total,
      ChunkBytes, WindowsFit;
  }

  /** While the session has no verdict, every packet of the transfer is answered in kind,
      never with an error and never with silence; afterwards FIN still is. */
  lemma HandleAnswered(setup: Setup, fs: FileSystem, s: State, p: Packet)
    requires Workable(setup) && Meets(setup, fs, s, p)
    ensures var o := HandlePacket(setup.receiver, fs, s, p, ALL_WORKS);
            && o.state.error == NoError
            && (!s.finished ==> o.reply == Answer(p))
            && (s.finished && p.header.packetType == Fin ==> o.reply == s.finalReply)
  {
    if s.finished {
      SessionSafety.SettledIsFinal(setup.receiver, fs, s, p, ALL_WORKS);
      hide HandlePacket, OurDisk, Total, ChunkBytes, Sanitize, WindowsFit;
    } else {
      var counted := s.(stats := s.stats.(packetsReceived := s.stats.packetsReceived + 1));
      assert Meets(setup, fs, counted, p);
      hide HandlePacket, Dispatch, Meets, Workable;
      DispatchAnswered(setup, fs, counted, p);
      SessionRunning(setup.receiver, fs, s, p, ALL_WORKS);
    }
  }

  /** All acknowledged means all stored, and all stored means the byte count is the size. */
  lemma AllStoredCount(setup: Setup, w: World)
    requires Workable(setup) && Exact(setup, w) && Linked(setup, w)
    requires IsOurs(setup.sender, w.session) && AllAcknowledgedNow(setup.sender, w.sender)
    ensures w.session.bytesWritten == |setup.sender.file|
  {
    var c := setup.sender;
    hide Stored, SenderInv, WellFormedState, DiskHolds, Sanitize, WasSent, WasDone, WindowsFit, Intact,
      OursIfRead, ClaimsSuccess;
    AllChunksStored(|c.file|, c.chunkSize, w.session.window.stored);
  }

  lemma PacketMeets(setup: Setup, w: World, d: seq<byte>)
    requires Workable(setup) && Exact(setup, w) && Linked(setup, w) && Healthy(setup, w)
    requires Arrives(w.toReceiver, d) && Serializer.Decode(d).Ok?
    requires InWindow(w.session.window, Serializer.Decode(d).value)
    ensures Meets(setup, w.fs, w.session, Serializer.Decode(d).value)
  {
    ArrivedPacket(setup, w, d);
    var p := Serializer.Decode(d).value;
    if p.header.packetType == Fin {
      AllStoredCount(setup, w);
    }
    hide Serializer.Decode, Arrives, SenderInv, WellFormedState, OurDisk, Ours,
      SessionSafety.WithinDeclared, Workable, Classify, SenderLinked;
  }

  lemma ReceiverStaysHealthy(setup: Setup, w: World, d: seq<byte>)
    requires Workable(setup) && Exact(setup, w) && Linked(setup, w) && Healthy(setup, w)
    requires Arrives(w.toReceiver, d)
    requires Serializer.Decode(d).Ok? ==> InWindow(w.session.window, Serializer.Decode(d).value)
    ensures Healthy(setup, After(setup, w, ReceiverHears(d, ALL_WORKS)))
  {
    hide *;
    SoundStarts(setup);
    if Serializer.Decode(d).Ok? {
      var p := Serializer.Decode(d).value;
      Unfold(setup, w);
      PacketMeets(setup, w, d);
      MeetsUnfolds(setup, w.fs, w.session, p);
      HandleAnswered(setup, w.fs, w.session, p);
      Serializer.EncodeDecode(d);
      AfterReading(setup, w, d, p, ALL_WORKS);
      SessionSafety.HandleWithinDeclared(setup.receiver, w.fs, w.session, p, ALL_WORKS);
      HandleAdvances(setup.receiver, w.fs, w.session, p, ALL_WORKS);
      OursStayOurs(setup.sender, w.session, p, HandlePacket(setup.receiver, w.fs, w.session, p, ALL_WORKS));
      Fold(setup, After(setup, w, ReceiverHears(d, ALL_WORKS)));
    } else {
      NothingRead(setup, w, d, ALL_WORKS);
    }
  }

  lemma Unfold(setup: Setup, w: World)
    requires CanStart(setup.sender) && Exact(setup, w) && Healthy(setup, w)
    ensures WellFormedState(setup.receiver, w.session) && SessionSafety.WithinDeclared(w.fs, w.session)
    ensures w.session.started ==> w.session.sessionId == setup.sender.sessionId
  {
  }

  lemma Fold(setup: Setup, w: World)
    requires w.session.error == NoError && SessionSafety.WithinDeclared(w.fs, w.session)
    requires w.session.started ==> w.session.sessionId == setup.sender.sessionId
    ensures Healthy(setup, w)
  {
  }

  lemma MeetsUnfolds(setup: Setup, fs: FileSystem, s: State, p: Packet)
    requires CanStart(setup.sender) && Meets(setup, fs, s, p)
    ensures p.header.sessionId == setup.sender.sessionId
  {
  }

  lemma AfterReading(setup: Setup, w: World, d: seq<byte>, p: Packet, io: Io)
    requires CanStart(setup.sender) && Serializer.Decode(d) == Ok(p)
    ensures var v := After(setup, w, ReceiverHears(d, io));
            var o := HandlePacket(setup.receiver, w.fs, w.session, p, io);
            && v.sender == w.sender && v.session == o.state && v.fs == o.fs
            && v.toSender == w.toSender + Replied(p.header, o.reply)
  {
    hide Serializer.Decode, HandlePacket, Replied;
  }

  lemma NothingRead(setup: Setup, w: World, d: seq<byte>, io: Io)
    requires CanStart(setup.sender) && Serializer.Decode(d).Err?
    ensures After(setup, w, ReceiverHears(d, io)) == w
  {
    hide Serializer.Decode;
  }

  lemma OursStayOurs(c: SenderConfig, s: State, p: Packet, o: Outcome)
    requires Advances(s, p, o) && (s.started ==> s.sessionId == c.sessionId)
    requires p.header.sessionId == c.sessionId
    ensures o.state.started ==> o.state.sessionId == c.sessionId
  {
  }

  /** Packets of other sessions do nothing to a settled session. */
  lemma SettledIgnores(setup: Setup, w: World, d: seq<byte>)
    requires CanStart(setup.sender) && Healthy(setup, w) && w.session.finished
    requires CanHappen(setup, w, ReceiverHears(d, ALL_WORKS)) && !Arrives(w.toReceiver, d)
    ensures Healthy(setup, After(setup, w, ReceiverHears(d, ALL_WORKS)))
  {
    hide Serializer.Decode, Arrives, HandlePacket, Replied;
    if Serializer.Decode(d).Ok? {
      var p := Serializer.Decode(d).value;
      SessionSafety.SettledIsFinal(setup.receiver, w.fs, w.session, p, ALL_WORKS);
    }
  }

  /** To a session that is running they are the end: this is why an undisturbed run has none. */
  lemma OthersEndRunning(cfg: Config, fs: FileSystem, s: State, p: Packet, io: Io)
    requires s.started && !s.finished && p.header.sessionId != s.sessionId
    ensures var o := HandlePacket(cfg, fs, s, p, io);
            o.state.finished && o.state.error == ProtocolViolation && o.state.published == s.published
  {
    hide ToByte, StatusByte, OnData, OnFin;
  }

  // ------------------------------------------------------------------------
  // Everything outstanding has been sent
  // ------------------------------------------------------------------------

  ghost predicate ChunkInNet(c: SenderConfig, k: nat, net: set<seq<byte>>)
    requires CanStart(c)
  {
    k < Total(c) && Wire(DataPacket(c, k)) in net
  }

  ghost predicate InNet(c: SenderConfig, s: SState, net: set<seq<byte>>)
    requires CanStart(c)
  {
    && (forall k: nat :: k < s.window.next ==> ChunkInNet(c, k, net))
    && (s.phase == Starting && s.tries > 0 ==> Wire(StartPacket(c)) in net)
    && (s.phase == Finishing && s.tries > 0 ==> Wire(FinPacket(c)) in net)
  }

  lemma MovesInNet(c: SenderConfig, s: SState, e: Event, net: set<seq<byte>>)
    requires CanStart(c) && Enabled(c, s, e) && SenderInv(c, s) && InNet(c, s, net) && !e.Receive?
    ensures InNet(c, Apply(c, s, e), net + (match Emitted(c, s, e) case Some(wire) => {wire} case None => {}))
  {
    hide Wire, StartPacket, FinPacket, DataPacket, Total;
    var t := Apply(c, s, e);
    var net' := net + (match Emitted(c, s, e) case Some(wire) => {wire} case None => {});
    forall k: nat | k < t.window.next ensures ChunkInNet(c, k, net') {
      if k < s.window.next {
        assert ChunkInNet(c, k, net);
      }
    }
  }

  lemma HearingShape(c: SenderConfig, s: SState, d: seq<byte>)
    requires CanStart(c)
    ensures var t := OnDatagram(c, s, d);
            && t.window.next == s.window.next
            && (t.phase == s.phase ==> t.tries == s.tries)
            && (t.phase == Starting || t.phase == Finishing ==> t.phase == s.phase)
  {
    hide Serializer.Decode, Total;
  }

  lemma HearsInNet(c: SenderConfig, s: SState, d: seq<byte>, net: set<seq<byte>>)
    requires CanStart(c) && InNet(c, s, net)
    ensures InNet(c, OnDatagram(c, s, d), net)
  {
    HearingShape(c, s, d);
    hide OnDatagram, ChunkInNet, Wire, StartPacket, FinPacket;
  }

  // ------------------------------------------------------------------------
  // Undisturbed runs
  // ------------------------------------------------------------------------

  ghost predicate Good(setup: Setup, w: World)
    requires CanStart(setup.sender)
  {
    && Exact(setup, w) && Linked(setup, w) && CapacityKept(setup, w.session) && Healthy(setup, w)
    && InNet(setup.sender, w.sender, w.toReceiver)
  }

  /** A datagram that the sender does not take amiss: it does not mislead, and it is not an
      error heard where errors are listened for. */
  ghost predicate Harmless(c: SenderConfig, w: World, d: seq<byte>) {
    && !Misleads(c, w.sender, w.session, d)
    && (Serializer.Decode(d).Ok? && Serializer.Decode(d).value.header.packetType == ErrorPacket ==>
          w.sender.phase != Starting && w.sender.phase != Finishing)
  }

  /** The receiver's calls succeed, no other session's packet reaches it while it is running,
      and the sender hears nothing that misleads it and no stray error. Everything else may
      still come from outside: garbage anywhere, and at the sender any other datagram. */
  ghost predicate Calm(setup: Setup, w: World, a: Action) {
    match a
    case SenderMoves(e) => true
    case SenderHears(d) => Arrives(w.toSender, d) || Harmless(setup.sender, w, d)
    case ReceiverHears(d, io) =>
      io == ALL_WORKS && (Arrives(w.toReceiver, d) || Serializer.Decode(d).Err? || w.session.finished)
  }

  lemma CalmNeverMisleads(setup: Setup, w: World, d: seq<byte>)
    requires CanStart(setup.sender) && Good(setup, w) && Calm(setup, w, SenderHears(d))
    ensures !Misleads(setup.sender, w.sender, w.session, d)
  {
    hide Good, Misleads, Arrives, Serializer.Decode;
    GoodUnfolds(setup, w);
    if Arrives(w.toSender, d) {
      ArrivedNeverMisleads(setup, w, d);
    }
  }

  /** The receiver is not handed a chunk outside its window. */
  ghost predicate Manageable(w: World, a: Action) {
    a.ReceiverHears? && Serializer.Decode(a.datagram).Ok? && Arrives(w.toReceiver, a.datagram) ==>
      InWindow(w.session.window, Serializer.Decode(a.datagram).value)
  }

  /** With windows that fit it never is. */
  lemma FitManages(setup: Setup, w: World, a: Action)
    requires Sound(setup) && Good(setup, w)
    ensures Manageable(w, a)
  {
    hide Good, Workable, Serializer.Decode, Arrives, InWindow, WindowsFit;
    if a.ReceiverHears? && Serializer.Decode(a.datagram).Ok? && Arrives(w.toReceiver, a.datagram) {
      SoundWorks(setup);
      GoodUnfolds(setup, w);
      InReach(setup, w, a.datagram);
    }
  }

  lemma CalmReceiver(setup: Setup, w: World, d: seq<byte>, io: Io)
    requires Workable(setup) && Good(setup, w) && CanHappen(setup, w, ReceiverHears(d, io))
    requires Calm(setup, w, ReceiverHears(d, io)) && Manageable(w, ReceiverHears(d, io))
    ensures Healthy(setup, After(setup, w, ReceiverHears(d, io)))
    ensures CapacityKept(setup, After(setup, w, ReceiverHears(d, io)).session)
  {
    hide Good, Healthy, Workable, HandlePacket, Arrives, Serializer.Decode, CapacityKept, CanHappen, Replied;
    SoundStarts(setup);
    GoodUnfolds(setup, w);
    if Serializer.Decode(d).Ok? {
      HandleKeepsCapacity(setup, w.fs, w.session, Serializer.Decode(d).value, io);
    }
    if Arrives(w.toReceiver, d) {
      ReceiverStaysHealthy(setup, w, d);
    } else if w.session.finished {
      SettledIgnores(setup, w, d);
    }
  }

  lemma CalmStaysGood(setup: Setup, w: World, a: Action)
    requires Workable(setup) && Good(setup, w) && CanHappen(setup, w, a) && Calm(setup, w, a) && Manageable(w, a)
    ensures Good(setup, After(setup, w, a))
  {
    var c := setup.sender;
    match a
    case SenderMoves(e) =>
      MovesInNet(c, w.sender, e, w.toReceiver);
      hide Exact, Linked, CapacityKept, Healthy, InNet, Workable, Emitted, Enabled, Apply;
      GoodUnfolds(setup, w);
      SenderMovesExact(setup, w, e);
      SenderMovesLinked(setup, w, e);
      SameSession(setup, w, After(setup, w, a));
    case SenderHears(d) =>
      HearsInNet(c, w.sender, d, w.toReceiver);
      hide Exact, Linked, CapacityKept, Healthy, InNet, Workable, OnDatagram, Enabled, Arrives, Misleads, Calm;
      GoodUnfolds(setup, w);
      CalmNeverMisleads(setup, w, d);
      SenderHearsExact(setup, w, d);
      HearsLinked(setup, w, d);
      SameSession(setup, w, After(setup, w, a));
    case ReceiverHears(d, io) =>
      hide Exact, Linked, Healthy, InNet, Workable, HandlePacket, Arrives, Serializer.Decode, CapacityKept, Calm;
      ReceiverHearsExact(setup, w, d, io);
      ReceiverLinked(setup, w, d, io);
      CalmReceiver(setup, w, d, io);
  }

  lemma GoodUnfolds(setup: Setup, w: World)
    requires CanStart(setup.sender) && Good(setup, w)
    ensures Exact(setup, w) && Linked(setup, w) && CapacityKept(setup, w.session) && Healthy(setup, w)
  {
  }

  lemma SameSession(setup: Setup, w: World, v: World)
    requires CapacityKept(setup, w.session) && Healthy(setup, w) && v.session == w.session && v.fs == w.fs
    ensures CapacityKept(setup, v.session) && Healthy(setup, v)
  {
  }

  ghost predicate CalmRun(setup: Setup, fs: FileSystem, actions: Schedule)
    requires CanStart(setup.sender)
  {
    actions == [] ||
    var front := actions[..|actions| - 1];
    CalmRun(setup, fs, front) && Calm(setup, WorldAfter(setup, fs, front), actions[|actions| - 1])
  }

  lemma StartGood(setup: Setup, fs: FileSystem)
    requires CanStart(setup.sender)
    ensures Good(setup, Transfers.Start(setup, fs))
  {
    StartExact(setup, fs);
    StartLinked(setup, fs);
    hide Exact, Linked;
  }

  lemma {:induction false} ReachableGood(setup: Setup, fs: FileSystem, actions: Schedule)
    requires Sound(setup) && Possible(setup, fs, actions) && CalmRun(setup, fs, actions)
    ensures Good(setup, WorldAfter(setup, fs, actions))
    decreases |actions|
  {
    if actions == [] {
      StartGood(setup, fs);
    } else {
      hide Good, CanHappen, Calm, After, Transfers.Start, Manageable, Workable;
      var front := actions[..|actions| - 1];
      ReachableGood(setup, fs, front);
      FitManages(setup, WorldAfter(setup, fs, front), actions[|actions| - 1]);
      CalmStaysGood(setup, WorldAfter(setup, fs, front), actions[|actions| - 1]);
    }
  }

  /** No spurious failure: in an undisturbed run the session never settles on an error, and
      nothing the sender can hear is one. */
  lemma NeverFails(setup: Setup, fs: FileSystem, actions: Schedule)
    requires Sound(setup) && Possible(setup, fs, actions) && CalmRun(setup, fs, actions)
    ensures var w := WorldAfter(setup, fs, actions);
            && (w.session.finished ==> w.session.published)
            && (forall d <- w.toSender :: Serializer.Decode(d).Ok? ==>
                  Serializer.Decode(d).value.header.packetType != ErrorPacket)
  {
    ReachableGood(setup, fs, actions);
    var w := WorldAfter(setup, fs, actions);
    hide WorldAfter, Possible, CalmRun, Sound, Serializer.Decode, SenderInv, OurDisk, SenderLinked;
    forall d <- w.toSender | Serializer.Decode(d).Ok?
      ensures Serializer.Decode(d).value.header.packetType != ErrorPacket
    {
      assert WasDone(setup.sender, w.session, d);
    }
  }

  /** In every undisturbed run, whatever packet of the transfer arrives is answered in kind: a
      running session never meets it with an error or with silence, and a published one answers
      every further FIN with the stored FIN_ACK. */
  lemma AlwaysAnswered(setup: Setup, fs: FileSystem, actions: Schedule, d: seq<byte>)
    requires Sound(setup) && Possible(setup, fs, actions) && CalmRun(setup, fs, actions)
    requires Arrives(WorldAfter(setup, fs, actions).toReceiver, d) && Serializer.Decode(d).Ok?
    ensures var w := WorldAfter(setup, fs, actions);
            var p := Serializer.Decode(d).value;
            var o := HandlePacket(setup.receiver, w.fs, w.session, p, ALL_WORKS);
            && o.state.error == NoError
            && (!w.session.finished ==> o.reply == Answer(p))
            && (w.session.finished && p.header.packetType == Fin ==> o.reply == Reply(FinAck, Total(setup.sender), []))
  {
    hide *;
    SoundWorks(setup);
    var w := WorldAfter(setup, fs, actions);
    ReachableGood(setup, fs, actions);
    GoodUnfolds(setup, w);
    InReach(setup, w, d);
    PacketMeets(setup, w, d);
    HandleAnswered(setup, w.fs, w.session, Serializer.Decode(d).value);
    FinalReply(setup, w);
    if w.session.finished {
      PublishedIsOurs(setup, w);
    }
  }

  lemma FinalReply(setup: Setup, w: World)
    requires CanStart(setup.sender) && Linked(setup, w)
    ensures IsOurs(setup.sender, w.session) && w.session.published ==>
              w.session.finalReply == Reply(FinAck, Total(setup.sender), [])
  {
    hide Total, WasSent, WasDone;
  }

  lemma PublishedIsOurs(setup: Setup, w: World)
    requires CanStart(setup.sender) && Exact(setup, w) && Healthy(setup, w) && w.session.finished
    ensures w.session.published && IsOurs(setup.sender, w.session)
  {
    hide SenderInv, OurDisk, Intact, OursIfRead, ClaimsSuccess, CountsAgree, SessionSafety.WithinDeclared;
  }
}
