/** How the two windows stay in step: as long as the sender hears nothing that runs ahead of the
    receiver, what it counts as acknowledged is on the receiver's disk, and no chunk, however
    late, falls outside the receiver's window. */
module CrossWindow {
  import opened Common
  import opened Packets
  import opened Files
  import opened Filenames
  import opened ReceiverWindows
  import opened Sessions
  import opened Senders
  import opened Transfers
  import opened Exactness
  import SenderWindows
  import SessionSafety
  import Serializer

  // ------------------------------------------------------------------------
  // The link between the two ends
  // ------------------------------------------------------------------------

  ghost predicate AllAcknowledgedNow(c: SenderConfig, s: SState)
    requires CanStart(c)
  {
    s.window.next == Total(c) && s.window.unacked == {}
  }

  /** Nothing waiting for the receiver runs ahead of the sender, or of the handshake. */
  ghost predicate WasSent(c: SenderConfig, s: SState, ours: bool, d: seq<byte>)
    requires CanStart(c)
  {
    Serializer.Decode(d).Ok? ==>
      var h := Serializer.Decode(d).value.header;
      && (h.packetType == Data ==> h.sequenceNumber < s.window.next)
      && (h.packetType == Fin ==> AllAcknowledgedNow(c, s) && s.controls == 2)
      && (h.packetType == Packets.Start || ours)
  }

  /** Nothing waiting for the sender runs ahead of the receiver. */
  ghost predicate WasDone(c: SenderConfig, s: State, d: seq<byte>) {
    Serializer.Decode(d).Ok? ==>
      var h := Serializer.Decode(d).value.header;
      && (h.packetType == Ack ==> h.acknowledgementNumber in s.window.stored)
      && (h.packetType == StartAck && h.sessionId == c.sessionId ==> IsOurs(c, s))
      && (h.packetType == ErrorPacket ==> s.error != NoError)
  }

  /** Everything acknowledged is stored. */
  ghost predicate AcknowledgedIsStored(s: SState, session: State) {
    forall k: nat :: k < s.window.next && k !in s.window.unacked ==> k in session.window.stored
  }

  /** Acknowledged means stored, and in a session of this transfer stored means sent. */
  ghost predicate SenderLinked(c: SenderConfig, s: SState, session: State, toReceiver: set<seq<byte>>)
    requires CanStart(c)
  {
    && (s.phase.Sending? || s.phase.Finishing? ==> IsOurs(c, session))
    && AcknowledgedIsStored(s, session)
    && (IsOurs(c, session) ==> forall k <- session.window.stored :: k < s.window.next)
    && (IsOurs(c, session) && session.published ==>
          s.controls == 2 && session.finalReply == Reply(FinAck, Total(c), []))
    && (forall d <- toReceiver :: WasSent(c, s, IsOurs(c, session), d))
  }

  ghost predicate Linked(setup: Setup, w: World)
    requires CanStart(setup.sender)
  {
    && SenderLinked(setup.sender, w.sender, w.session, w.toReceiver)
    && (forall d <- w.toSender :: WasDone(setup.sender, w.session, d))
  }

  // ------------------------------------------------------------------------
  // The receiver's side of one step
  // ------------------------------------------------------------------------

  /** How a session moves on a packet, of whatever session. */
  ghost predicate Advances(s: State, p: Packet, o: Outcome) {
    && (s.started ==> o.state.started && o.state.sessionId == s.sessionId)
    && (o.state.started && !s.started ==>
          p.header.packetType == Packets.Start && o.state.sessionId == p.header.sessionId &&
          o.state.window.stored == {} && !o.state.published)
    && s.window.stored <= o.state.window.stored
    && (forall k <- o.state.window.stored ::
          k in s.window.stored ||
          (p.header.packetType == Data && k == p.header.sequenceNumber && p.header.sessionId == s.sessionId))
    && (s.error != NoError ==> o.state.error != NoError)
    && (s.published ==> o.state.published && o.state.finalReply == s.finalReply)
    && (o.state.published && !s.published ==>
          p.header.packetType == Fin && p.header.sessionId == s.sessionId &&
          o.state.finalReply == Reply(FinAck, p.header.sequenceNumber, []))
    && Truthful(p, o)
  }

  /** What the answer claims is so. */
  ghost predicate Truthful(p: Packet, o: Outcome) {
    o.reply.Reply? ==>
      && (o.reply.packetType == Ack ==> o.reply.sequence in o.state.window.stored)
      && (o.reply.packetType == StartAck ==> o.state.started && o.state.sessionId == p.header.sessionId)
      && (o.reply.packetType == ErrorPacket ==> o.state.error != NoError)
  }

  lemma DataAdvances(fs: FileSystem, s: State, p: Packet, io: Io)
    requires WellFormed(s.window) && s.started && !s.published && s.error == NoError
    requires p.header.packetType == Data && s.sessionId == p.header.sessionId
    ensures Advances(s, p, OnData(fs, s, p, io))
  {
    hide WriteAt, WriteCompletes, FileAt, ToByte, StatusByte, Mark;
    MarkWellFormed(s.window, p.header.sequenceNumber);
    if Classify(s.window, p.header.sequenceNumber) == Duplicate {
      DuplicateIsStored(s.window, p.header.sequenceNumber);
    }
    hide Classify, WellFormed;
  }

  lemma DuplicateIsStored(v: RView, k: uint32)
    requires WellFormed(v) && Classify(v, k) == Duplicate
    ensures k in v.stored
  {
  }

  lemma StartAdvances(cfg: Config, fs: FileSystem, s: State, p: Packet, io: Io)
    requires WellFormedState(cfg, s) && !s.finished && p.header.packetType == Packets.Start
    ensures Advances(s, p, OnStart(cfg, fs, s, p, io))
  {
    hide WellFormed, ToByte, StatusByte, Sanitize, JoinPath, TempPath;
  }

  lemma FinAdvances(cfg: Config, fs: FileSystem, s: State, p: Packet, io: Io)
    requires !s.finished && s.started && s.error == NoError && !s.published
    requires p.header.packetType == Fin && p.header.sessionId == s.sessionId
    ensures Advances(s, p, OnFin(cfg, fs, s, p, io))
  {
    hide ToByte, StatusByte, ReadsComplete, RenameCompletes, Rename, FileAt;
  }

  lemma DispatchAdvances(cfg: Config, fs: FileSystem, s: State, p: Packet, io: Io)
    requires WellFormedState(cfg, s) && !s.finished
    ensures Advances(s, p, Dispatch(cfg, fs, s, p, io))
  {
    hide WellFormed, OnStart, OnData, OnFin, ToByte, StatusByte;
    if p.header.packetType == Packets.Start {
      StartAdvances(cfg, fs, s, p, io);
    } else if s.started && p.header.sessionId == s.sessionId {
      if p.header.packetType == Data {
        DataAdvances(fs, s, p, io);
      } else if p.header.packetType == Fin {
        FinAdvances(cfg, fs, s, p, io);
      }
    }
  }

  lemma SettledAdvances(cfg: Config, fs: FileSystem, s: State, p: Packet, io: Io)
    requires VerdictAgrees(s) && s.finished
    ensures Advances(s, p, HandlePacket(cfg, fs, s, p, io))
  {
    hide HandlePacket;
    SessionSafety.SettledIsFinal(cfg, fs, s, p, io);
  }

  lemma HandleAdvances(cfg: Config, fs: FileSystem, s: State, p: Packet, io: Io)
    requires WellFormedState(cfg, s)
    ensures Advances(s, p, HandlePacket(cfg, fs, s, p, io))
  {
    if s.finished {
      SettledAdvances(cfg, fs, s, p, io);
    } else {
      var counted := s.(stats := s.stats.(packetsReceived := s.stats.packetsReceived + 1));
      assert WellFormedState(cfg, counted);
      hide HandlePacket, Dispatch, WellFormedState;
      DispatchAdvances(cfg, fs, counted, p, io);
      SessionRunning(cfg, fs, s, p, io);
    }
  }

  // ------------------------------------------------------------------------
  // Every step of the sender keeps the link
  // ------------------------------------------------------------------------

  lemma PacketWasSent(c: SenderConfig, s: SState, ours: bool, p: Packet)
    requires CanStart(c) && Serializer.ValidHeader(p.header)
    requires p.header.packetType == Data ==> p.header.sequenceNumber < s.window.next
    requires p.header.packetType == Fin ==> AllAcknowledgedNow(c, s) && s.controls == 2
    requires p.header.packetType == Packets.Start || ours
    ensures WasSent(c, s, ours, Wire(p))
  {
    EmptyDoesNotRead();
    WireReads(p.header, p.payload);
    hide Serializer.Decode, Serializer.Encode, Total, AllAcknowledgedNow;
  }

  lemma EmittedReads(c: SenderConfig, s: SState, e: Event, ours: bool)
    requires CanStart(c) && Enabled(c, s, e) && SenderInv(c, s) && Emitted(c, s, e).Some?
    requires s.phase.Sending? || s.phase.Finishing? ==> ours
    ensures WasSent(c, Apply(c, s, e), ours, Emitted(c, s, e).value)
  {
    var t := Apply(c, s, e);
    match e {
      case SendControl =>
        SenderWindows.BaseIsLeast(s.window);
        PacketWasSent(c, t, ours, if s.phase == Starting then StartPacket(c) else FinPacket(c));
      case SendChunk(k, _) =>
        PacketWasSent(c, t, ours, DataPacket(c, k));
      case Resend(k, _) =>
        assert k in SenderWindows.Elements(s.due);
        PacketWasSent(c, t, ours, DataPacket(c, k));
    }
  }

  /** What a step of the sender may do to the numbers the link is about. */
  ghost predicate Proceeds(c: SenderConfig, s: SState, t: SState, session: State)
    requires CanStart(c)
  {
    && (t.phase.Sending? || t.phase.Finishing? ==> IsOurs(c, session))
    && (s.controls == 2 ==> t.controls == 2)
    && if t.window.next == s.window.next
       then t.window.unacked <= s.window.unacked &&
            forall k <- s.window.unacked :: k in t.window.unacked || k in session.window.stored
       else t.window.next == s.window.next + 1 <= Total(c) &&
            t.window.unacked == s.window.unacked + {s.window.next}
  }

  lemma ProceedsLinked(c: SenderConfig, s: SState, t: SState, session: State, net: set<seq<byte>>, sent: set<seq<byte>>)
    requires CanStart(c) && SenderLinked(c, s, session, net) && Proceeds(c, s, t, session)
    requires SenderWindows.WellFormed(s.window)
    requires forall d <- sent :: WasSent(c, t, IsOurs(c, session), d)
    ensures SenderLinked(c, t, session, net + sent)
  {
    hide Serializer.Decode, Total;
    forall d <- net ensures WasSent(c, t, IsOurs(c, session), d) {
      assert WasSent(c, s, IsOurs(c, session), d);
    }
  }

  lemma MovesProceed(c: SenderConfig, s: SState, e: Event, session: State)
    requires CanStart(c) && Enabled(c, s, e) && !e.Receive? && SenderInv(c, s)
    requires s.phase.Sending? || s.phase.Finishing? ==> IsOurs(c, session)
    ensures Proceeds(c, s, Apply(c, s, e), session)
  {
    hide Total;
  }

  lemma SenderMovesLinked(setup: Setup, w: World, e: Event)
    requires CanStart(setup.sender) && Exact(setup, w) && Linked(setup, w)
    requires CanHappen(setup, w, SenderMoves(e))
    ensures Linked(setup, After(setup, w, SenderMoves(e)))
  {
    var c := setup.sender;
    MovesProceed(c, w.sender, e, w.session);
    if Emitted(c, w.sender, e).Some? {
      EmittedReads(c, w.sender, e, IsOurs(c, w.session));
    }
    var sent := match Emitted(c, w.sender, e) case Some(wire) => {wire} case None => {};
    hide Apply, Emitted, Enabled, OurDisk, Serializer.Decode, WasDone, WasSent, Proceeds, SenderLinked, Total;
    ProceedsLinked(c, w.sender, Apply(c, w.sender, e), w.session, w.toReceiver, sent);
  }

  lemma HearingProceeds(c: SenderConfig, s: SState, d: seq<byte>, session: State)
    requires CanStart(c) && SenderWindows.WellFormed(s.window) && !Misleads(c, s, session, d)
    requires s.phase.Sending? || s.phase.Finishing? ==> IsOurs(c, session)
    ensures Proceeds(c, s, OnDatagram(c, s, d), session)
  {
    hide Serializer.Decode, Total, SenderWindows.Acked, SenderWindows.WellFormed;
    if Serializer.Decode(d).Ok? {
      SenderWindows.AckedWellFormed(s.window, Serializer.Decode(d).value.header.acknowledgementNumber);
    }
  }

  lemma HearsLinked(setup: Setup, w: World, d: seq<byte>)
    requires CanStart(setup.sender) && Exact(setup, w) && Linked(setup, w)
    requires !Misleads(setup.sender, w.sender, w.session, d)
    ensures Linked(setup, After(setup, w, SenderHears(d)))
  {
    var c := setup.sender;
    HearingProceeds(c, w.sender, d, w.session);
    hide OnDatagram, OurDisk, Serializer.Decode, WasDone, WasSent, Proceeds, Total, SenderLinked;
    ProceedsLinked(c, w.sender, OnDatagram(c, w.sender, d), w.session, w.toReceiver, {});
    assert w.toReceiver + {} == w.toReceiver;
  }

  /** Nothing the receiver sent misleads, however it was delayed or corrupted. */
  lemma ArrivedNeverMisleads(setup: Setup, w: World, d: seq<byte>)
    requires CanStart(setup.sender) && Exact(setup, w) && Linked(setup, w) && Arrives(w.toSender, d)
    ensures !Misleads(setup.sender, w.sender, w.session, d)
  {
    hide Serializer.Decode, OurDisk, SenderInv, Arrives, SenderLinked;
    if Serializer.Decode(d).Ok? {
      ArrivedWasSent(w.toSender, d);
      assert WasDone(setup.sender, w.session, d);
    }
  }

  // ------------------------------------------------------------------------
  // Every step of the receiver keeps the link
  // ------------------------------------------------------------------------

  lemma ReplyDone(c: SenderConfig, p: Packet, o: Outcome)
    requires Truthful(p, o)
    ensures forall d <- Replied(p.header, o.reply) :: WasDone(c, o.state, d)
  {
    var h := p.header;
    EmptyDoesNotRead();
    if o.reply.Reply? {
      var reply := o.reply;
      WireReads(MakeHeader(reply.packetType, h.sessionId, reply.sequence, reply.sequence, 0), reply.payload);
    }
    hide Serializer.Decode, Serializer.Encode;
  }

  /** What the sender's numbers say about a packet that can reach the receiver. */
  ghost predicate InTurn(c: SenderConfig, s: SState, p: Packet)
    requires CanStart(c)
  {
    p.header.sessionId == c.sessionId ==>
      && (p.header.packetType == Data ==> p.header.sequenceNumber < s.window.next)
      && (p.header.packetType == Fin ==> s.controls == 2 && p.header.sequenceNumber == Total(c))
  }

  lemma AdvancesLinked(c: SenderConfig, s: SState, session: State, p: Packet, o: Outcome, net: set<seq<byte>>)
    requires CanStart(c) && SenderLinked(c, s, session, net) && Advances(session, p, o) && InTurn(c, s, p)
    requires s.window.next <= Total(c)
    ensures SenderLinked(c, s, o.state, net)
  {
    hide Serializer.Decode, Total;
    assert IsOurs(c, session) ==> IsOurs(c, o.state);
    forall d <- net ensures WasSent(c, s, IsOurs(c, o.state), d) {
      assert WasSent(c, s, IsOurs(c, session), d);
    }
  }

  lemma AnswersStayDone(c: SenderConfig, session: State, p: Packet, o: Outcome, net: set<seq<byte>>)
    requires Advances(session, p, o)
    requires forall d <- net :: WasDone(c, session, d)
    ensures forall d <- net + Replied(p.header, o.reply) :: WasDone(c, o.state, d)
  {
    ReplyDone(c, p, o);
    hide Serializer.Decode, Replied;
    forall x <- net ensures WasDone(c, o.state, x) {
      assert WasDone(c, session, x);
    }
  }

  /** What arrives at the receiver and can be read. */
  lemma ArrivedPacket(setup: Setup, w: World, d: seq<byte>)
    requires CanStart(setup.sender) && Exact(setup, w) && Linked(setup, w)
    requires Arrives(w.toReceiver, d) && Serializer.Decode(d).Ok?
    ensures var p := Serializer.Decode(d).value;
            && Ours(setup.sender, p) && InTurn(setup.sender, w.sender, p)
            && (p.header.packetType == Fin ==> AllAcknowledgedNow(setup.sender, w.sender))
            && (p.header.packetType == Packets.Start || IsOurs(setup.sender, w.session))
  {
    ArrivedWasSent(w.toReceiver, d);
    assert OursIfRead(setup.sender, d) && WasSent(setup.sender, w.sender, IsOurs(setup.sender, w.session), d);
    hide Serializer.Decode, Arrives, SenderInv, WellFormedState, OurDisk, ChunkBytes;
  }

  lemma ReadInTurn(setup: Setup, w: World, d: seq<byte>, io: Io)
    requires CanStart(setup.sender) && Exact(setup, w) && Linked(setup, w)
    requires CanHappen(setup, w, ReceiverHears(d, io)) && Serializer.Decode(d).Ok?
    ensures InTurn(setup.sender, w.sender, Serializer.Decode(d).value)
  {
    hide Exact, Linked, Serializer.Decode, Arrives, Total, Ours;
    if Arrives(w.toReceiver, d) {
      ArrivedPacket(setup, w, d);
    }
  }

  lemma ReceiverLinked(setup: Setup, w: World, d: seq<byte>, io: Io)
    requires CanStart(setup.sender) && Exact(setup, w) && Linked(setup, w)
    requires CanHappen(setup, w, ReceiverHears(d, io))
    ensures Linked(setup, After(setup, w, ReceiverHears(d, io)))
  {
    hide HandlePacket, Total, Arrives, Serializer.Decode, Replied, SenderLinked, WasDone, OurDisk,
      WellFormedState, OursIfRead, ClaimsSuccess, CanHappen, InTurn, Advances;
    var c := setup.sender;
    if Serializer.Decode(d).Ok? {
      ReadInTurn(setup, w, d, io);
      var p := Serializer.Decode(d).value;
      HandleAdvances(setup.receiver, w.fs, w.session, p, io);
      var o := HandlePacket(setup.receiver, w.fs, w.session, p, io);
      AdvancesLinked(c, w.sender, w.session, p, o, w.toReceiver);
      AnswersStayDone(c, w.session, p, o, w.toSender);
    }
  }

  lemma StartLinked(setup: Setup, fs: FileSystem)
    requires CanStart(setup.sender)
    ensures Linked(setup, Transfers.Start(setup, fs))
  {
  }

  /** The link holds in every run in which the sender was not misled: garbage, other sessions'
      packets, and even stray acknowledgements and errors do not touch it. */
  lemma {:induction false} ReachableLinked(setup: Setup, fs: FileSystem, actions: Schedule)
    requires CanStart(setup.sender) && Possible(setup, fs, actions)
    requires !WorldAfter(setup, fs, actions).misled
    ensures Linked(setup, WorldAfter(setup, fs, actions))
    decreases |actions|
  {
    if actions == [] {
      StartLinked(setup, fs);
    } else {
      hide Linked, Exact, CanHappen, After, Transfers.Start;
      var front := actions[..|actions| - 1];
      var w := WorldAfter(setup, fs, front);
      var a := actions[|actions| - 1];
      StaysMisled(setup, w, a);
      ReachableExact(setup, fs, front);
      ReachableLinked(setup, fs, front);
      match a
      case SenderMoves(e) => SenderMovesLinked(setup, w, e);
      case SenderHears(d) => HearsLinked(setup, w, d);
      case ReceiverHears(d, io) => ReceiverLinked(setup, w, d, io);
    }
  }

  lemma StaysMisled(setup: Setup, w: World, a: Action)
    requires CanStart(setup.sender) && !After(setup, w, a).misled
    ensures !w.misled
    ensures a.SenderHears? ==> !Misleads(setup.sender, w.sender, w.session, a.datagram)
  {
    hide Serializer.Decode, HandlePacket, Apply, Emitted, OnDatagram, Misleads;
  }

  // ------------------------------------------------------------------------
  // Being misled
  // ------------------------------------------------------------------------

  /** An acknowledgement of an outstanding chunk that is not stored, whoever sent it. */
  ghost predicate PrematureAck(s: SState, session: State, d: seq<byte>) {
    Serializer.Decode(d).Ok? &&
    var h := Serializer.Decode(d).value.header;
    && h.packetType == Ack && h.acknowledgementNumber in s.window.unacked
    && h.acknowledgementNumber !in session.window.stored
  }

  /** Exactly such a datagram, heard in the data phase, makes the sender count a chunk as
      acknowledged that is not stored. */
  lemma OnlyPrematureAcksMislead(setup: Setup, w: World, d: seq<byte>)
    requires CanStart(setup.sender) && Exact(setup, w) && Linked(setup, w)
    requires w.sender.phase == Sending && CanHappen(setup, w, SenderHears(d))
    ensures var v := After(setup, w, SenderHears(d));
            AcknowledgedIsStored(v.sender, v.session) <==> !PrematureAck(w.sender, w.session, d)
  {
    hide Serializer.Decode, OurDisk, WellFormedState, WasSent, WasDone, Arrives, Total, SenderWindows.Acked,
      StrayForSender, TimersCover, AttemptsCounted, ControlsCounted, OursIfRead, ClaimsSuccess;
    if Serializer.Decode(d).Ok? {
      SenderWindows.AckedWellFormed(w.sender.window, Serializer.Decode(d).value.header.acknowledgementNumber);
    }
  }

  function StrayAck(session: uint64, k: uint32): seq<byte> {
    Serializer.Encode(MakeHeader(Ack, session, k, k, 0), [])
  }

  lemma StrayAckReads(session: uint64, k: uint32)
    ensures var r := Serializer.Decode(StrayAck(session, k));
            && r.Ok? && r.value.header.packetType == Ack && r.value.header.sessionId == session
            && r.value.header.acknowledgementNumber == k
  {
    Serializer.DecodeEncode(MakeHeader(Ack, session, k, k, 0), []);
    hide Serializer.Decode, Serializer.Encode, Serializer.ChecksumOf;
  }

  /** The data phase does not look at the session id of an acknowledgement, so whenever it
      waits with a chunk outstanding and not stored, an acknowledgement of any other session
      can be heard and retires that chunk for good. */
  lemma StrayAckRetires(setup: Setup, w: World, other: uint64, k: uint32)
    requires CanStart(setup.sender) && Exact(setup, w) && AtWait(setup.sender, w.sender)
    requires k in w.sender.window.unacked && k !in w.session.window.stored
    ensures var d := StrayAck(other, k);
            var v := After(setup, w, SenderHears(d));
            && CanHappen(setup, w, SenderHears(d)) && v.misled
            && v.sender.window.unacked == w.sender.window.unacked - {k} && k < v.sender.window.next
            && k !in v.session.window.stored && !AcknowledgedIsStored(v.sender, v.session)
  {
    hide Serializer.Decode, Serializer.Encode, OurDisk, WellFormedState, StrayAck, Arrives, Total, OursIfRead,
      ClaimsSuccess, SenderWindows.Acked;
    StrayAckReads(other, k);
    SenderWindows.AckedWellFormed(w.sender.window, k);
  }

  // ------------------------------------------------------------------------
  // What follows for the windows
  // ------------------------------------------------------------------------

  /** The receiver's ring is as large as the sender's window, or has room for the whole file;
      and no sequence number of this transfer comes close enough to 2^32 for the receiver's
      limit to wrap. */
  ghost predicate WindowsFit(setup: Setup)
    requires CanStart(setup.sender)
  {
    var capacity := EmptyView(setup.receiver.capacity).capacity;
    && (SenderWindows.NewView(setup.sender.windowSize).capacity <= capacity || Total(setup.sender) <= capacity)
    && Total(setup.sender) + capacity <= TWO_32
  }

  ghost predicate CapacityKept(setup: Setup, s: State) {
    s.window.capacity == EmptyView(setup.receiver.capacity).capacity
  }

  lemma HandleKeepsCapacity(setup: Setup, fs: FileSystem, s: State, p: Packet, io: Io)
    requires CapacityKept(setup, s)
    ensures CapacityKept(setup, HandlePacket(setup.receiver, fs, s, p, io).state)
  {
    hide Classify, WriteAt, WriteCompletes, FileAt, ToByte, StatusByte, Slide, ReadsComplete, Rename,
      RenameCompletes;
  }

  lemma {:induction false} CapacityFixed(setup: Setup, fs: FileSystem, actions: Schedule)
    requires CanStart(setup.sender)
    ensures CapacityKept(setup, WorldAfter(setup, fs, actions).session)
    decreases |actions|
  {
    if actions != [] {
      var front := actions[..|actions| - 1];
      CapacityFixed(setup, fs, front);
      var w := WorldAfter(setup, fs, front);
      match actions[|actions| - 1]
      case SenderMoves(e) =>
      case SenderHears(d) =>
      case ReceiverHears(d, io) =>
        if Serializer.Decode(d).Ok? {
          HandleKeepsCapacity(setup, w.fs, w.session, Serializer.Decode(d).value, io);
        }
    }
  }

  /** The two windows at any moment of a run in which the sender was not misled: every
      acknowledgement under way names a stored chunk, everything the sender counts as
      acknowledged is stored, and the sender's base never passes the receiver's. */
  lemma WindowsAgree(setup: Setup, fs: FileSystem, actions: Schedule)
    requires CanStart(setup.sender) && Possible(setup, fs, actions)
    requires !WorldAfter(setup, fs, actions).misled
    ensures var w := WorldAfter(setup, fs, actions);
            && (forall d <- w.toSender ::
                  Serializer.Decode(d).Ok? && Serializer.Decode(d).value.header.packetType == Ack ==>
                    Serializer.Decode(d).value.header.acknowledgementNumber in w.session.window.stored)
            && AcknowledgedIsStored(w.sender, w.session)
            && w.sender.window.base <= w.session.window.base
  {
    ReachableExact(setup, fs, actions);
    ReachableLinked(setup, fs, actions);
    var w := WorldAfter(setup, fs, actions);
    hide Serializer.Decode, OurDisk, SenderInv, WasSent, WorldAfter, Possible, Total;
    AcknowledgedBelowBase(setup.sender, w.sender);
    forall d <- w.toSender | Serializer.Decode(d).Ok? && Serializer.Decode(d).value.header.packetType == Ack
      ensures Serializer.Decode(d).value.header.acknowledgementNumber in w.session.window.stored
    {
      assert WasDone(setup.sender, w.session, d);
    }
  }

  lemma AcknowledgedBelowBase(c: SenderConfig, s: SState)
    requires CanStart(c) && SenderInv(c, s)
    ensures forall k: nat :: k < s.window.base ==> k < s.window.next && k !in s.window.unacked
    ensures s.window.base <= s.window.next <= s.window.base + s.window.capacity && s.window.next <= Total(c)
    ensures s.window.capacity == SenderWindows.NewView(c.windowSize).capacity
  {
  }

  /** A chunk is accepted if it is new, recognised if it is not, and not outside the window. */
  predicate InWindow(v: RView, p: Packet) {
    p.header.packetType == Data ==>
      var k := p.header.sequenceNumber;
      Classify(v, k) == (if k in v.stored then Duplicate else Accepted)
  }

  /** A chunk of this transfer that can arrive now is. */
  lemma InReach(setup: Setup, w: World, d: seq<byte>)
    requires CanStart(setup.sender) && Exact(setup, w) && Linked(setup, w)
    requires CapacityKept(setup, w.session) && WindowsFit(setup)
    requires Arrives(w.toReceiver, d) && Serializer.Decode(d).Ok?
    ensures InWindow(w.session.window, Serializer.Decode(d).value)
  {
    ArrivedPacket(setup, w, d);
    var k := Serializer.Decode(d).value.header.sequenceNumber;
    AcknowledgedBelowBase(setup.sender, w.sender);
    hide Serializer.Decode, OurDisk, SenderInv, WasSent, WasDone, Total, Arrives, Ours;
    if Serializer.Decode(d).value.header.packetType == Data {
      AlwaysInReach(w.session.window, k, w.sender.window.base, Total(setup.sender));
    }
  }

  lemma AlwaysInReach(v: RView, k: uint32, base: nat, total: nat)
    requires WellFormed(v) && forall s: nat :: s < base ==> s in v.stored
    requires (k < base + v.capacity || total <= v.capacity) && k < total && total + v.capacity <= TWO_32
    ensures Classify(v, k) == (if k in v.stored then Duplicate else Accepted)
  {
    assert base <= v.base;
  }

  /** In every run in which the sender was not misled, with windows that fit: whatever chunk of
      the transfer arrives, however late or often, it is accepted if it is new, recognised if it
      is not, and never outside the window. */
  lemma NeverOutside(setup: Setup, fs: FileSystem, actions: Schedule, d: seq<byte>)
    requires CanStart(setup.sender) && Possible(setup, fs, actions) && WindowsFit(setup)
    requires !WorldAfter(setup, fs, actions).misled
    requires Arrives(WorldAfter(setup, fs, actions).toReceiver, d) && Serializer.Decode(d).Ok?
    ensures InWindow(WorldAfter(setup, fs, actions).session.window, Serializer.Decode(d).value)
  {
    hide *;
    ReachableExact(setup, fs, actions);
    ReachableLinked(setup, fs, actions);
    CapacityFixed(setup, fs, actions);
    InReach(setup, WorldAfter(setup, fs, actions), d);
  }
}
