/** Windows that do not fit: if the receiver's ring is smaller than the sender's window, or its
    limit can wrap, then some undisturbed run has a new chunk arrive outside the window. */
module WindowLimits {
  import opened Common
  import opened Packets
  import opened Files
  import opened ReceiverWindows
  import opened Sessions
  import opened Senders
  import opened Transfers
  import opened Exactness
  import opened CrossWindow
  import opened Progress
  import opened Completion
  import opened RetriesAttained
  import SenderWindows
  import Serializer

  /** The actions are an undisturbed run that ends in this world. */
  ghost predicate Reached(setup: Setup, fs: FileSystem, actions: Schedule, w: World)
    requires CanStart(setup.sender)
  {
    Possible(setup, fs, actions) && CalmRun(setup, fs, actions) && WorldAfter(setup, fs, actions) == w
  }

  lemma Onward(setup: Setup, fs: FileSystem, actions: Schedule, w: World, a: Action)
    requires CanStart(setup.sender) && Reached(setup, fs, actions, w) && CanHappen(setup, w, a) && Calm(setup, w, a)
    ensures Reached(setup, fs, actions + [a], After(setup, w, a))
  {
    hide CanHappen, Calm, After, Transfers.Start;
    assert (actions + [a])[..|actions|] == actions;
  }

  lemma Outset(setup: Setup, fs: FileSystem)
    requires CanStart(setup.sender)
    ensures Reached(setup, fs, [], Transfers.Start(setup, fs))
  {
  }

  // ------------------------------------------------------------------------
  // Single steps
  // ------------------------------------------------------------------------

  /** A step of the sender's own. */
  lemma MovedOn(setup: Setup, fs: FileSystem, actions: Schedule, w: World, e: Event) returns (v: World)
    requires Workable(setup) && CanStart(setup.sender) && Reached(setup, fs, actions, w) && Good(setup, w)
    requires Enabled(setup.sender, w.sender, e) && !e.Receive?
    ensures Reached(setup, fs, actions + [SenderMoves(e)], v) && Good(setup, v)
    ensures v.sender == Apply(setup.sender, w.sender, e) && v.session == w.session && v.toSender == w.toSender
  {
    hide Reached, Good, Workable, Enabled, Apply, Emitted;
    var a := SenderMoves(e);
    assert CanHappen(setup, w, a) && Calm(setup, w, a) && Manageable(w, a);
    v := After(setup, w, a);
    CalmStaysGood(setup, w, a);
    Onward(setup, fs, actions, w, a);
  }

  /** The sender hears a datagram that is under way. */
  lemma HeardOn(setup: Setup, fs: FileSystem, actions: Schedule, w: World, d: seq<byte>) returns (v: World)
    requires Workable(setup) && CanStart(setup.sender) && Reached(setup, fs, actions, w) && Good(setup, w)
    requires Enabled(setup.sender, w.sender, Receive(d)) && d in w.toSender
    ensures Reached(setup, fs, actions + [SenderHears(d)], v) && Good(setup, v)
    ensures v.sender == Apply(setup.sender, w.sender, Receive(d)) && v.session == w.session && v.toSender == w.toSender
  {
    hide Reached, Good, Workable, Enabled, OnDatagram, CanHappen, Calm, Misleads;
    v := After(setup, w, SenderHears(d));
    Listened(setup, w, d);
    Onward(setup, fs, actions, w, SenderHears(d));
  }

  /** A packet of the transfer is delivered and answered. */
  lemma DeliveredOn(setup: Setup, fs: FileSystem, actions: Schedule, w: World, p: Packet) returns (v: World)
    requires Workable(setup) && CanStart(setup.sender) && Reached(setup, fs, actions, w) && Good(setup, w)
    requires Sendable(setup.sender, p, Answer(p)) && Wire(p) in w.toReceiver && !w.session.finished
    requires Manageable(w, ReceiverHears(Wire(p), ALL_WORKS))
    ensures Reached(setup, fs, actions + [ReceiverHears(Wire(p), ALL_WORKS)], v) && Good(setup, v)
    ensures v.sender == w.sender && w.toSender + Replied(p.header, Answer(p)) <= v.toSender
    ensures v == After(setup, w, ReceiverHears(Wire(p), ALL_WORKS))
  {
    hide *;
    SendableUnfolds(setup.sender, p, Answer(p));
    var a := ReceiverHears(Wire(p), ALL_WORKS);
    v := After(setup, w, a);
    Delivered(setup, w, p);
    CalmStaysGood(setup, w, a);
    Onward(setup, fs, actions, w, a);
    NetGrows(setup, w, a);
  }

  lemma SendableUnfolds(c: SenderConfig, p: Packet, answer: Reply)
    requires Sendable(c, p, answer)
    ensures Serializer.ValidHeader(p.header) && |p.payload| <= MAX_PAYLOAD_SIZE
    ensures p.header.sessionId == c.sessionId && Answer(p) == answer
  {
  }

  lemma NetGrows(setup: Setup, w: World, a: Action)
    requires CanStart(setup.sender)
    ensures w.toSender <= After(setup, w, a).toSender
  {
    hide Serializer.Decode, HandlePacket, Replied, Apply, Emitted, OnDatagram, Misleads;
  }

  // ------------------------------------------------------------------------
  // The handshake
  // ------------------------------------------------------------------------

  /** In the data phase, with no timer near. */
  ghost predicate Underway(setup: Setup, w: World)
    requires CanStart(setup.sender)
  {
    Good(setup, w) && Early(setup.sender, w.sender)
  }

  lemma Shaken(setup: Setup, fs: FileSystem) returns (actions: Schedule, w: World)
    requires Workable(setup) && CanStart(setup.sender)
    ensures Reached(setup, fs, actions, w) && Underway(setup, w)
    ensures w.sender.window == SenderWindows.NewView(setup.sender.windowSize)
  {
    hide Reached, Good, Workable, Sendable, ReplyWire, Wire, StartPacket, FinPacket, Replied, Total, OnDatagram,
      CanHappen, Calm, After, Manageable;
    var c := setup.sender;
    OursSendable(setup, 0);
    SendableUnfolds(c, StartPacket(c), Reply(StartAck, 0, []));
    Outset(setup, fs);
    StartGood(setup, fs);
    var w0 := Transfers.Start(setup, fs);
    FirstTry(setup, w0);
    var w1 := MovedOn(setup, fs, [], w0, SendControl);
    var s1 := w1.sender;
    PhaseFacts(setup, w1);
    StartWaits(setup, w1);
    NoChunk(setup, w1);
    var first := [] + [SenderMoves(SendControl)];
    var w2 := DeliveredOn(setup, fs, first, w1, StartPacket(c));
    var d := ReplyWire(c, StartAck, 0);
    ReplyWireReplied(c, StartPacket(c).header, StartAck, 0);
    ReplyWireReads(c, StartAck, 0);
    CanListen(c, w2.sender, d);
    var second := first + [ReceiverHears(Wire(StartPacket(c)), ALL_WORKS)];
    w := HeardOn(setup, fs, second, w2, d);
    StartHeard(c, w2.sender, d);
    actions := second + [SenderHears(d)];
  }

  /** START is no chunk. */
  lemma NoChunk(setup: Setup, w: World)
    requires Workable(setup) && CanStart(setup.sender)
    ensures Manageable(w, ReceiverHears(Wire(StartPacket(setup.sender)), ALL_WORKS))
  {
    var p := StartPacket(setup.sender);
    assert Serializer.ValidHeader(p.header) && |p.payload| <= MAX_PAYLOAD_SIZE;
    hide Arrives, Workable, Serializer.Decode, Classify, StartPacket, Wire;
    assert p.header.packetType == Packets.Start by { StartType(setup.sender); }
    WireReadsBack(p);
  }

  lemma StartType(c: SenderConfig)
    requires CanStart(c)
    ensures StartPacket(c).header.packetType == Packets.Start
  {
  }

  // ------------------------------------------------------------------------
  // Sending on
  // ------------------------------------------------------------------------

  /** One more chunk goes out. */
  lemma SentOn(setup: Setup, fs: FileSystem, actions: Schedule, w: World) returns (next: Schedule, v: World)
    requires Workable(setup) && CanStart(setup.sender) && Reached(setup, fs, actions, w) && Underway(setup, w)
    requires !Filled(setup.sender, w.sender)
    ensures Reached(setup, fs, next, v) && Underway(setup, v)
    ensures v.session == w.session && v.toSender == w.toSender
    ensures v.sender.window.next == w.sender.window.next + 1 && v.sender.window.base == w.sender.window.base
    ensures v.sender.window.unacked == w.sender.window.unacked + {w.sender.window.next}
  {
    hide Reached, Good, Workable, Enabled, Early, Total;
    var s := w.sender;
    InvOf(setup, w);
    SendEarly(setup.sender, s);
    v := MovedOn(setup, fs, actions, w, SendChunk(s.window.next, s.clock));
    next := actions + [SenderMoves(SendChunk(s.window.next, s.clock))];
  }

  /** One chunk is acknowledged, without time passing. */
  lemma AckedOn(setup: Setup, fs: FileSystem, actions: Schedule, w: World, j: nat) returns (next: Schedule, v: World)
    requires Workable(setup) && CanStart(setup.sender) && Reached(setup, fs, actions, w) && Underway(setup, w)
    requires AtWait(setup.sender, w.sender) && j in w.sender.window.unacked && j < TWO_32
    requires ReplyWire(setup.sender, Ack, j) in w.toSender
    ensures Reached(setup, fs, next, v) && Underway(setup, v)
    ensures v.session == w.session && v.toSender == w.toSender
    ensures v.sender.window.next == w.sender.window.next
    ensures v.sender.window.unacked == w.sender.window.unacked - {j}
  {
    hide Reached, Good, Workable, Enabled, Early, Total, Apply, ReplyWire, AtWait;
    PatientSetup(setup);
    InvOf(setup, w);
    AckEarly(setup.sender, w.sender, j);
    var d := ReplyWire(setup.sender, Ack, j);
    var u := HeardOn(setup, fs, actions, w, d);
    var e := Expire(w.sender.clock, [], u.sender.window);
    v := MovedOn(setup, fs, actions + [SenderHears(d)], u, e);
    next := actions + [SenderHears(d)] + [SenderMoves(e)];
  }

  /** A chunk that has gone out can arrive. */
  lemma ChunkArrives(setup: Setup, w: World, k: nat)
    requires Workable(setup) && CanStart(setup.sender) && Good(setup, w) && k < w.sender.window.next
    ensures k < Total(setup.sender)
    ensures var d := Wire(DataPacket(setup.sender, k));
            && d in w.toReceiver && Arrives(w.toReceiver, d) && Serializer.Decode(d).Ok?
            && Serializer.Decode(d).value.header.packetType == Data
            && Serializer.Decode(d).value.header.sequenceNumber == k
  {
    hide Good, Workable, Wire, DataPacket, Serializer.Decode, Total, Sendable;
    StartWaits(setup, w);
    assert ChunkInNet(setup.sender, k, w.toReceiver);
    OursSendable(setup, k);
    SendableUnfolds(setup.sender, DataPacket(setup.sender, k), Reply(Ack, k, []));
    var d := Wire(DataPacket(setup.sender, k));
    WireReadsBack(DataPacket(setup.sender, k));
    AnswerNames(Serializer.Decode(d).value, k);
  }

  lemma AnswerNames(p: Packet, k: uint32)
    requires Answer(p) == Reply(Ack, k, [])
    ensures p.header.packetType == Data && p.header.sequenceNumber == k
  {
  }

  // ------------------------------------------------------------------------
  // A ring that is too small
  // ------------------------------------------------------------------------

  /** The window filled with n chunks none of which has been delivered. */
  lemma {:induction false} FilledTo(setup: Setup, fs: FileSystem, actions: Schedule, w: World, n: nat)
      returns (next: Schedule, v: World)
    requires Workable(setup) && CanStart(setup.sender) && Reached(setup, fs, actions, w) && Underway(setup, w)
    requires w.sender.window.base == 0 && w.sender.window.next <= n <= Total(setup.sender)
    requires n <= SenderWindows.NewView(setup.sender.windowSize).capacity
    ensures Reached(setup, fs, next, v) && Underway(setup, v)
    ensures v.session == w.session && v.sender.window.next == n
    decreases n - w.sender.window.next
  {
    hide Reached, Underway, Workable, Total;
    if w.sender.window.next == n {
      next, v := actions, w;
    } else {
      WindowSize(setup, w);
      var more, u := SentOn(setup, fs, actions, w);
      next, v := FilledTo(setup, fs, more, u, n);
    }
  }

  lemma WindowSize(setup: Setup, w: World)
    requires CanStart(setup.sender) && Underway(setup, w)
    ensures w.sender.window.capacity == SenderWindows.NewView(setup.sender.windowSize).capacity
    ensures w.sender.window.next <= Total(setup.sender)
  {
    hide Good, Total;
    InvOf(setup, w);
    AcknowledgedBelowBase(setup.sender, w.sender);
  }

  /** The receiver's side of a world under way. */
  lemma RingFacts(setup: Setup, w: World)
    requires CanStart(setup.sender) && Underway(setup, w)
    ensures var v := w.session.window;
            && WellFormed(v) && v.capacity == EmptyView(setup.receiver.capacity).capacity
            && (forall k <- v.stored :: k < w.sender.window.next)
    ensures !w.session.finished || !Workable(setup)
  {
    hide SenderInv, OurDisk, WasSent, WasDone, InNet, Total, Workable, Healthy;
    if Workable(setup) {
      PhaseFacts(setup, w);
    }
  }

  /** A new chunk is under way that is outside the receiver's window now. */
  ghost predicate Stranded(setup: Setup, fs: FileSystem, actions: Schedule, d: seq<byte>)
    requires CanStart(setup.sender)
  {
    var w := WorldAfter(setup, fs, actions);
    && Possible(setup, fs, actions) && CalmRun(setup, fs, actions)
    && Arrives(w.toReceiver, d) && Serializer.Decode(d).Ok?
    && var p := Serializer.Decode(d).value;
       && p.header.packetType == Data && p.header.sequenceNumber !in w.session.window.stored
       && Classify(w.session.window, p.header.sequenceNumber) == OutsideWindow
  }

  lemma SmallRingStrands(setup: Setup, fs: FileSystem)
    requires Workable(setup) && CanStart(setup.sender)
    requires var ring := EmptyView(setup.receiver.capacity).capacity;
             ring < SenderWindows.NewView(setup.sender.windowSize).capacity && ring < Total(setup.sender)
    ensures exists actions, d :: Stranded(setup, fs, actions, d)
  {
    hide Good, Workable, Wire, DataPacket, Serializer.Decode, Total, Possible, CalmRun, Arrives, WorldAfter, Early;
    var ring := EmptyView(setup.receiver.capacity).capacity;
    var first, w := Shaken(setup, fs);
    RingFacts(setup, w);
    var actions, v := FilledTo(setup, fs, first, w, ring + 1);
    ChunkArrives(setup, v, ring);
    SmallRing(v.session.window, ring);
    assert Stranded(setup, fs, actions, Wire(DataPacket(setup.sender, ring)));
  }

  lemma SmallRing(v: RView, k: uint32)
    requires WellFormed(v) && v.stored == {} && k == v.capacity
    ensures Classify(v, k) == OutsideWindow
  {
    LockstepBase(v, 0);
  }

  // ------------------------------------------------------------------------
  // A limit that wraps
  // ------------------------------------------------------------------------

  /** Everything sent has been delivered, and its acknowledgement is under way. */
  ghost predicate Lockstep(setup: Setup, w: World)
    requires CanStart(setup.sender)
  {
    && Underway(setup, w) && w.sender.window.next < TWO_32
    && (forall k: nat :: k < w.sender.window.next <==> k in w.session.window.stored)
    && (forall k: nat :: k < w.sender.window.next && k < TWO_32 ==> ReplyWire(setup.sender, Ack, k) in w.toSender)
  }

  lemma LockstepBase(v: RView, n: nat)
    requires WellFormed(v) && forall k: nat :: k < n <==> k in v.stored
    ensures v.base == n
  {
    assert n < v.base ==> n in v.stored;
  }

  /** In order, and below the wrap, each chunk is accepted. */
  lemma NextIsAccepted(v: RView, p: Packet)
    requires WellFormed(v) && v.base == p.header.sequenceNumber && v.base !in v.stored && v.base + v.capacity < TWO_32
    ensures InWindow(v, p)
  {
  }

  lemma WrappedIsOutside(v: RView, k: uint32)
    requires v.base == k && v.base + v.capacity == TWO_32
    ensures Classify(v, k) == OutsideWindow
  {
  }

  /** Send the next chunk and deliver it. */
  lemma PassedOn(setup: Setup, fs: FileSystem, actions: Schedule, w: World) returns (next: Schedule, v: World)
    requires Workable(setup) && CanStart(setup.sender) && Reached(setup, fs, actions, w) && Lockstep(setup, w)
    requires !Filled(setup.sender, w.sender)
    requires w.sender.window.next + EmptyView(setup.receiver.capacity).capacity < TWO_32
    ensures Reached(setup, fs, next, v) && Lockstep(setup, v)
    ensures v.sender.window.next == w.sender.window.next + 1
    ensures v.sender.window.unacked == w.sender.window.unacked + {w.sender.window.next}
  {
    hide Reached, Good, Workable, Wire, DataPacket, Serializer.Decode, Total, Filled, Sendable, ReplyWire, Replied,
      Early, Classify, WellFormed, Arrives, HandlePacket, After;
    var c := setup.sender;
    var k := w.sender.window.next;
    var more, u := SentOn(setup, fs, actions, w);
    RingFacts(setup, u);
    ChunkArrives(setup, u, k);
    var p := DataPacket(c, k);
    OursSendable(setup, k);
    SendableUnfolds(c, p, Reply(Ack, k, []));
    LockstepBase(u.session.window, k);
    NextIsAccepted(u.session.window, Serializer.Decode(Wire(p)).value);
    v := DeliveredOn(setup, fs, more, u, p);
    next := more + [ReceiverHears(Wire(p), ALL_WORKS)];
    ReplyWireReplied(c, p.header, Ack, k);
    ChunkStored(setup, u, k);
  }

  /** What is delivered and accepted is stored. */
  lemma ChunkStored(setup: Setup, w: World, k: uint32)
    requires Workable(setup) && CanStart(setup.sender) && Good(setup, w) && !w.session.finished
    requires k < w.sender.window.next && k < Total(setup.sender)
    requires Manageable(w, ReceiverHears(Wire(DataPacket(setup.sender, k)), ALL_WORKS))
    ensures var v := After(setup, w, ReceiverHears(Wire(DataPacket(setup.sender, k)), ALL_WORKS));
            v.session.window.stored == w.session.window.stored + {k}
  {
    hide *;
    var d := Wire(DataPacket(setup.sender, k));
    ChunkArrives(setup, w, k);
    var q := Serializer.Decode(d).value;
    ManagesWire(w, d, ALL_WORKS);
    GoodUnfolds(setup, w);
    PacketMeets(setup, w, d);
    HandleAnswered(setup, w.fs, w.session, q);
    SessionInv(setup, w);
    HandleAdvances(setup.receiver, w.fs, w.session, q, ALL_WORKS);
    AfterReading(setup, w, d, q, ALL_WORKS);
    AnswerOf(q);
    OneMoreStored(w.session, q, HandlePacket(setup.receiver, w.fs, w.session, q, ALL_WORKS));
  }

  lemma AnswerOf(p: Packet)
    requires p.header.packetType == Data
    ensures Answer(p) == Reply(Ack, p.header.sequenceNumber, [])
  {
  }

  lemma SessionInv(setup: Setup, w: World)
    requires CanStart(setup.sender) && Exact(setup, w)
    ensures WellFormedState(setup.receiver, w.session)
  {
  }

  lemma OneMoreStored(s: State, p: Packet, o: Outcome)
    requires Advances(s, p, o) && p.header.packetType == Data && o.reply == Reply(Ack, p.header.sequenceNumber, [])
    ensures o.state.window.stored == s.window.stored + {p.header.sequenceNumber}
  {
  }

  /** Chunk after chunk, up to the one before which the limit would wrap. */
  lemma {:induction false} PassedTo(setup: Setup, fs: FileSystem, actions: Schedule, w: World, n: nat)
      returns (next: Schedule, v: World)
    requires Workable(setup) && CanStart(setup.sender) && Reached(setup, fs, actions, w) && Lockstep(setup, w)
    requires w.sender.window.next <= n < Total(setup.sender)
    requires n + EmptyView(setup.receiver.capacity).capacity == TWO_32
    ensures Reached(setup, fs, next, v) && Lockstep(setup, v)
    ensures v.sender.window.next == n && !Filled(setup.sender, v.sender)
    decreases 2 * (n - w.sender.window.next) + |w.sender.window.unacked|
  {
    hide Reached, Underway, Workable, Total, Filled, ReplyWire, AtWait;
    var s := w.sender;
    if Filled(setup.sender, s) {
      var j := OneWaiting(setup, w);
      var more, u := AckedOn(setup, fs, actions, w, j);
      assert s.window.unacked == u.sender.window.unacked + {j};
      next, v := PassedTo(setup, fs, more, u, n);
    } else if s.window.next < n {
      var more, u := PassedOn(setup, fs, actions, w);
      OneSentMore(s, u.sender);
      next, v := PassedTo(setup, fs, more, u, n);
    } else {
      next, v := actions, w;
    }
  }

  lemma OneWaiting(setup: Setup, w: World) returns (j: nat)
    requires CanStart(setup.sender) && Underway(setup, w) && Filled(setup.sender, w.sender)
    requires w.sender.window.next < Total(setup.sender)
    ensures AtWait(setup.sender, w.sender) && j in w.sender.window.unacked && j < w.sender.window.next
  {
    hide Good, Total, Filled;
    InvOf(setup, w);
    EarlyAtHead(setup.sender, w.sender);
    FilledCases(setup.sender, w.sender);
    j :| j in w.sender.window.unacked;
    UnackedSent(setup.sender, w.sender, j);
  }

  lemma WrapStrands(setup: Setup, fs: FileSystem)
    requires Workable(setup) && CanStart(setup.sender)
    requires Total(setup.sender) + EmptyView(setup.receiver.capacity).capacity > TWO_32
    ensures exists actions, d :: Stranded(setup, fs, actions, d)
  {
    hide Good, Workable, Wire, DataPacket, Serializer.Decode, Total, Possible, CalmRun, Arrives, WorldAfter, Early,
      Filled, Classify, WellFormed, ReplyWire;
    var n := TWO_32 - EmptyView(setup.receiver.capacity).capacity;
    var first, w := Shaken(setup, fs);
    RingFacts(setup, w);
    var second, u := PassedTo(setup, fs, first, w, n);
    var actions, v := SentOn(setup, fs, second, u);
    RingFacts(setup, v);
    ChunkArrives(setup, v, n);
    LockstepBase(v.session.window, n);
    WrappedIsOutside(v.session.window, n);
    assert Stranded(setup, fs, actions, Wire(DataPacket(setup.sender, n)));
  }

  /** The condition on the windows is exact: some undisturbed run of a workable transfer has a
      new chunk arrive outside the receiver's window if and only if the windows do not fit. */
  lemma FitIsExact(setup: Setup, fs: FileSystem)
    requires Workable(setup) && CanStart(setup.sender)
    ensures WindowsFit(setup) <==> !exists actions, d :: Stranded(setup, fs, actions, d)
  {
    hide Workable, Total, Stranded;
    if WindowsFit(setup) {
      forall actions, d ensures !Stranded(setup, fs, actions, d) {
        NeverStranded(setup, fs, actions, d);
      }
    } else if Total(setup.sender) + EmptyView(setup.receiver.capacity).capacity > TWO_32 {
      WrapStrands(setup, fs);
    } else {
      SmallRingStrands(setup, fs);
    }
  }

  lemma NeverStranded(setup: Setup, fs: FileSystem, actions: Schedule, d: seq<byte>)
    requires Sound(setup) && CanStart(setup.sender)
    ensures !Stranded(setup, fs, actions, d)
  {
    hide Possible, CalmRun, WorldAfter, Good, Arrives, Serializer.Decode, Workable, Sound;
    if Stranded(setup, fs, actions, d) {
      SoundWorks(setup);
      ReachableGood(setup, fs, actions);
      GoodUnfolds(setup, WorldAfter(setup, fs, actions));
      InReach(setup, WorldAfter(setup, fs, actions), d);
    }
  }
}
