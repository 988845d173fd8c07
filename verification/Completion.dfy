/** From every point of an undisturbed transfer there is a way to finish in success, unless a
    chunk has used up its transmissions. */
module Completion {
  import opened Common
  import opened Packets
  import opened Files
  import opened Filenames
  import opened Chunking
  import opened Sessions
  import opened Senders
  import opened Transfers
  import opened Exactness
  import opened CrossWindow
  import opened Progress
  import opened RetryLimits

  // ------------------------------------------------------------------------
  // A way to finish
  // ------------------------------------------------------------------------

  /** `more`, taken from w on, is an undisturbed run that ends in success. */
  ghost predicate Completes(setup: Setup, w: World, more: Schedule)
    requires CanStart(setup.sender)
    decreases |more|
  {
    if more == [] then w.sender.phase == Ended(NoError)
    else
      CanHappen(setup, w, more[0]) && Calm(setup, w, more[0]) &&
      Completes(setup, After(setup, w, more[0]), more[1..])
  }

  /** What the receiver is handed are packets of this transfer. */
  predicate OfTransfer(c: SenderConfig, a: Action) {
    a.ReceiverHears? ==>
      Serializer.Decode(a.datagram).Ok? && Serializer.Decode(a.datagram).value.header.sessionId == c.sessionId
  }

  ghost predicate OwnOnly(c: SenderConfig, more: Schedule) {
    forall a <- more :: OfTransfer(c, a)
  }

  lemma Prepend(setup: Setup, w: World, a: Action, more: Schedule)
    requires CanStart(setup.sender) && CanHappen(setup, w, a) && Calm(setup, w, a)
    requires Completes(setup, After(setup, w, a), more)
    ensures Completes(setup, w, [a] + more)
  {
    hide CanHappen, Calm, After;
    assert ([a] + more)[1..] == more;
  }

  /** Deliver a packet of the transfer to the receiver: its answer is then under way. */
  lemma Delivered(setup: Setup, w: World, p: Packet)
    requires Workable(setup) && Good(setup, w)
    requires Serializer.ValidHeader(p.header) && |p.payload| <= MAX_PAYLOAD_SIZE && Wire(p) in w.toReceiver
    requires p.header.sessionId == setup.sender.sessionId && Manageable(w, ReceiverHears(Wire(p), ALL_WORKS))
    requires w.session.finished ==> p.header.packetType == Fin
    ensures var a := ReceiverHears(Wire(p), ALL_WORKS);
            var v := After(setup, w, a);
            && CanHappen(setup, w, a) && Calm(setup, w, a) && v.sender == w.sender
            && Replied(p.header, if w.session.finished then w.session.finalReply else Answer(p)) <= v.toSender
  {
    hide *;
    SoundStarts(setup);
    GoodUnfolds(setup, w);
    WireArrives(setup, w, p);
    WireReadsBack(p);
    var d := Wire(p);
    var q := Serializer.Decode(d).value;
    ManagesWire(w, d, ALL_WORKS);
    PacketMeets(setup, w, d);
    AfterReading(setup, w, d, q, ALL_WORKS);
    HandleAnswered(setup, w.fs, w.session, q);
    RepliedById(p.header, q.header, Answer(p));
    RepliedById(p.header, q.header, w.session.finalReply);
  }

  lemma ManagesWire(w: World, d: seq<byte>, io: Io)
    requires Manageable(w, ReceiverHears(d, io)) && Arrives(w.toReceiver, d) && Serializer.Decode(d).Ok?
    ensures InWindow(w.session.window, Serializer.Decode(d).value)
  {
    hide Serializer.Decode, Arrives, InWindow;
  }

  lemma WireArrives(setup: Setup, w: World, p: Packet)
    requires CanStart(setup.sender) && Wire(p) in w.toReceiver
    ensures Arrives(w.toReceiver, Wire(p))
    ensures var a := ReceiverHears(Wire(p), ALL_WORKS); CanHappen(setup, w, a) && Calm(setup, w, a)
  {
    hide Wire, Serializer.Decode;
  }

  lemma WireReadsBack(p: Packet)
    requires Serializer.ValidHeader(p.header) && |p.payload| <= MAX_PAYLOAD_SIZE
    ensures var r := Serializer.Decode(Wire(p));
            && r.Ok? && Answer(r.value) == Answer(p) && r.value.header.sessionId == p.header.sessionId
            && r.value.header.packetType == p.header.packetType
  {
    hide *;
    WireIsEncode(p);
    Serializer.DecodeEncode(p.header, p.payload);
    SentKeeps(p);
  }

  lemma WireIsEncode(p: Packet)
    ensures Wire(p) == Serializer.Encode(p.header, p.payload)
  {
    hide Serializer.Encode;
  }

  lemma SentKeeps(p: Packet)
    requires |p.payload| <= MAX_PAYLOAD_SIZE
    ensures var q := Serializer.Sent(p.header, p.payload);
            && Answer(q) == Answer(p) && q.header.sessionId == p.header.sessionId
            && q.header.packetType == p.header.packetType
  {
    hide Serializer.Encode, Serializer.ChecksumOf;
  }

  lemma RepliedById(g: Header, h: Header, reply: Reply)
    requires g.sessionId == h.sessionId
    ensures Replied(g, reply) == Replied(h, reply)
  {
  }

  /** The sender hears a datagram that is under way. */
  lemma Listened(setup: Setup, w: World, d: seq<byte>)
    requires Workable(setup) && Good(setup, w) && d in w.toSender && Enabled(setup.sender, w.sender, Receive(d))
    ensures var a := SenderHears(d);
            && CanHappen(setup, w, a) && Calm(setup, w, a)
            && Good(setup, After(setup, w, a))
            && After(setup, w, a).sender == OnDatagram(setup.sender, w.sender, d)
  {
    CalmAction(setup, w, d);
    hide Good, Workable, CanHappen, Calm, Enabled, OnDatagram;
    CalmStaysGood(setup, w, SenderHears(d));
  }

  lemma CalmAction(setup: Setup, w: World, d: seq<byte>)
    requires CanStart(setup.sender) && d in w.toSender && Enabled(setup.sender, w.sender, Receive(d))
    ensures CanHappen(setup, w, SenderHears(d)) && Calm(setup, w, SenderHears(d))
    ensures After(setup, w, SenderHears(d)).sender == OnDatagram(setup.sender, w.sender, d)
  {
    hide Serializer.Decode, OnDatagram, Enabled;
  }

  /** One packet there and its answer back: two steps, after which the sender has heard it. */
  lemma Exchanged(setup: Setup, w: World, p: Packet, t: PacketType, sequence: uint32)
      returns (v: World, there: Action, back: Action)
    requires Sound(setup) && Good(setup, w)
    requires Serializer.ValidHeader(p.header) && |p.payload| <= MAX_PAYLOAD_SIZE && Wire(p) in w.toReceiver
    requires p.header.sessionId == setup.sender.sessionId
    requires w.session.finished ==> p.header.packetType == Fin
    requires (if w.session.finished then w.session.finalReply else Answer(p)) == Reply(t, sequence, [])
    requires Enabled(setup.sender, w.sender, Receive(ReplyWire(setup.sender, t, sequence)))
    ensures Good(setup, v) && v.sender == OnDatagram(setup.sender, w.sender, ReplyWire(setup.sender, t, sequence))
    ensures forall more :: Completes(setup, v, more) ==> Completes(setup, w, [there, back] + more)
    ensures OfTransfer(setup.sender, there) && OfTransfer(setup.sender, back)
  {
    hide *;
    ReadsAsOwn(setup.sender, p, ALL_WORKS);
    HearingIsOwn(setup.sender, ReplyWire(setup.sender, t, sequence));
    SoundWorks(setup);
    var r := ReplyWire(setup.sender, t, sequence);
    there := ReceiverHears(Wire(p), ALL_WORKS);
    back := SenderHears(r);
    FitManages(setup, w, there);
    Delivered(setup, w, p);
    ReplyWireReplied(setup.sender, p.header, t, sequence);
    CalmStaysGood(setup, w, there);
    var u := After(setup, w, there);
    Listened(setup, u, r);
    v := After(setup, u, back);
    PrependTwo(setup, w, there, back);
  }

  lemma ReadsAsOwn(c: SenderConfig, p: Packet, io: Io)
    requires Serializer.ValidHeader(p.header) && |p.payload| <= MAX_PAYLOAD_SIZE
    requires p.header.sessionId == c.sessionId
    ensures OfTransfer(c, ReceiverHears(Wire(p), io))
  {
    hide Wire, Serializer.Decode, Serializer.ValidHeader;
    WireReadsBack(p);
  }

  lemma HearingIsOwn(c: SenderConfig, d: seq<byte>)
    ensures OfTransfer(c, SenderHears(d))
  {
  }

  lemma PrependTwo(setup: Setup, w: World, a: Action, b: Action)
    requires CanStart(setup.sender) && CanHappen(setup, w, a) && Calm(setup, w, a)
    requires var u := After(setup, w, a); CanHappen(setup, u, b) && Calm(setup, u, b)
    ensures var v := After(setup, After(setup, w, a), b);
            forall more :: Completes(setup, v, more) ==> Completes(setup, w, [a, b] + more)
  {
    hide *;
    var u := After(setup, w, a);
    forall more | Completes(setup, After(setup, u, b), more) ensures Completes(setup, w, [a, b] + more) {
      Prepend(setup, u, b, more);
      Prepend(setup, w, a, [b] + more);
      assert [a] + ([b] + more) == [a, b] + more;
    }
  }

  lemma ReplyWireReplied(c: SenderConfig, h: Header, t: PacketType, sequence: uint32)
    requires h.sessionId == c.sessionId
    ensures ReplyWire(c, t, sequence) in Replied(h, Reply(t, sequence, []))
  {
    hide Serializer.Encode;
  }

  /** The sender takes a step of its own. */
  lemma Moved(setup: Setup, w: World, e: Event) returns (v: World)
    requires Workable(setup) && Good(setup, w) && Enabled(setup.sender, w.sender, e) && !e.Receive?
    ensures Good(setup, v) && v.sender == Apply(setup.sender, w.sender, e)
    ensures forall more :: Completes(setup, v, more) ==> Completes(setup, w, [SenderMoves(e)] + more)
  {
    var a := SenderMoves(e);
    v := After(setup, w, a);
    assert CanHappen(setup, w, a) && Calm(setup, w, a) && v.sender == Apply(setup.sender, w.sender, e);
    hide Good, Workable, CanHappen, Calm, Enabled, Apply, After;
    CalmStaysGood(setup, w, a);
    forall more | Completes(setup, v, more) ensures Completes(setup, w, [a] + more) {
      Prepend(setup, w, a, more);
    }
  }

  /** What the sender's own invariant says in each phase. */
  lemma PhaseFacts(setup: Setup, w: World)
    requires Workable(setup) && Good(setup, w)
    ensures w.sender.phase == Starting || w.sender.phase == Sending ==> !w.session.finished
    ensures w.session.finished ==> w.session.finalReply == Reply(FinAck, Total(setup.sender), [])
    ensures SenderWindows.WellFormed(w.sender.window) && w.sender.window.next <= Total(setup.sender)
    ensures w.sender.phase == Sending ==> w.sender.tries == 0
  {
    hide OurDisk, WasSent, WasDone, Serializer.Decode, Total, InNet, CountsAgree;
  }

  /** A packet that Exchanged can take there. */
  ghost predicate Sendable(c: SenderConfig, p: Packet, answer: Reply) {
    && Serializer.ValidHeader(p.header) && |p.payload| <= MAX_PAYLOAD_SIZE
    && p.header.sessionId == c.sessionId && Answer(p) == answer
  }

  lemma OursSendable(setup: Setup, k: nat)
    requires Workable(setup)
    ensures CanStart(setup.sender)
    ensures var c := setup.sender;
            && Sendable(c, StartPacket(c), Reply(StartAck, 0, []))
            && Sendable(c, FinPacket(c), Reply(FinAck, Total(c), []))
            && FinPacket(c).header.packetType == Fin
    ensures k < Total(setup.sender) ==> Sendable(setup.sender, DataPacket(setup.sender, k), Reply(Ack, k, []))
  {
    hide ChunkBytes, Total, WindowsFit, Sanitize, Offset;
  }

  lemma CanListen(c: SenderConfig, s: SState, d: seq<byte>)
    requires CanStart(c)
    requires if s.phase == Sending then AtWait(c, s) else (s.phase == Starting || s.phase == Finishing) && s.tries > 0
    ensures Enabled(c, s, Receive(d))
  {
  }

  lemma FinishStarting(setup: Setup, w: World) returns (v: World, prefix: Schedule)
    requires Sound(setup) && Good(setup, w) && w.sender.phase == Starting
    ensures Good(setup, v) && v.sender.phase == Sending
    ensures v.sender.due == w.sender.due && v.sender.window == w.sender.window
    ensures forall more :: Completes(setup, v, more) ==> Completes(setup, w, prefix + more)
    ensures OwnOnly(setup.sender, prefix)
    decreases if w.sender.tries == 0 then 1 else 0
  {
    hide Good, Sound, Completes, Apply, Enabled, OnDatagram, ReplyWire, Wire, Serializer.Decode, Total,
      StartPacket, FinPacket, Workable;
    SoundWorks(setup);
    OursSendable(setup, 0);
    var c := setup.sender;
    if w.sender.tries == 0 {
      FirstTry(setup, w);
      var u := Moved(setup, w, SendControl);
      SentControl(c, w.sender);
      var rest: Schedule;
      v, rest := FinishStarting(setup, u);
      prefix := [SenderMoves(SendControl)] + rest;
      forall more | Completes(setup, v, more) ensures Completes(setup, w, prefix + more) {
        assert prefix + more == [SenderMoves(SendControl)] + (rest + more);
      }
    } else {
      PhaseFacts(setup, w);
      StartWaits(setup, w);
      ReplyWireReads(c, StartAck, 0);
      StartHeard(c, w.sender, ReplyWire(c, StartAck, 0));
      CanListen(c, w.sender, ReplyWire(c, StartAck, 0));
      var there, back;
      v, there, back := Exchanged(setup, w, StartPacket(c), StartAck, 0);
      prefix := [there, back];
    }
  }

  lemma FirstTry(setup: Setup, w: World)
    requires Workable(setup) && w.sender.tries == 0 && (w.sender.phase == Starting || w.sender.phase == Finishing)
    ensures Enabled(setup.sender, w.sender, SendControl)
  {
    hide WindowsFit, Total;
  }

  lemma SentControl(c: SenderConfig, s: SState)
    requires CanStart(c)
    ensures var t := Apply(c, s, SendControl);
            t.phase == s.phase && t.tries == s.tries + 1 && t.due == s.due && t.window == s.window
  {
  }

  lemma StartWaits(setup: Setup, w: World)
    requires Workable(setup) && Good(setup, w)
    ensures w.sender.phase == Starting && w.sender.tries > 0 ==> Wire(StartPacket(setup.sender)) in w.toReceiver
    ensures w.sender.phase == Finishing && w.sender.tries > 0 ==> Wire(FinPacket(setup.sender)) in w.toReceiver
    ensures forall k: nat :: k < w.sender.window.next ==> ChunkInNet(setup.sender, k, w.toReceiver)
  {
    hide Exact, Linked, ChunkInNet, Wire;
  }

  lemma StartHeard(c: SenderConfig, s: SState, d: seq<byte>)
    requires CanStart(c) && s.phase == Starting && Serializer.Decode(d).Ok?
    requires var h := Serializer.Decode(d).value.header;
             h.packetType == StartAck && h.sessionId == c.sessionId && h.acknowledgementNumber == 0
    ensures OnDatagram(c, s, d) == s.(phase := Sending, tries := 0)
  {
    hide Serializer.Decode, Total;
  }

  lemma FinHeard(c: SenderConfig, s: SState, d: seq<byte>)
    requires CanStart(c) && s.phase == Finishing && Serializer.Decode(d).Ok?
    requires var h := Serializer.Decode(d).value.header;
             h.packetType == FinAck && h.sessionId == c.sessionId && h.acknowledgementNumber == Total(c)
    ensures OnDatagram(c, s, d).phase == Ended(NoError)
  {
    hide Serializer.Decode;
  }

  lemma AckHeard(c: SenderConfig, s: SState, d: seq<byte>, k: uint32)
    requires CanStart(c) && s.phase == Sending && Serializer.Decode(d).Ok?
    requires var h := Serializer.Decode(d).value.header;
             h.packetType == Ack && h.acknowledgementNumber == k
    ensures OnDatagram(c, s, d) == s.(window := SenderWindows.Acked(s.window, k), waited := true)
  {
    hide Serializer.Decode, Total;
  }

  lemma FinishFinishing(setup: Setup, w: World) returns (more: Schedule)
    requires Sound(setup) && Good(setup, w) && w.sender.phase == Finishing
    ensures Completes(setup, w, more) && OwnOnly(setup.sender, more)
    decreases if w.sender.tries == 0 then 1 else 0
  {
    hide Good, Sound, Apply, Enabled, OnDatagram, ReplyWire, Wire, Serializer.Decode, Total, StartPacket,
      FinPacket, CanHappen, Calm, After, Workable;
    SoundWorks(setup);
    OursSendable(setup, 0);
    var c := setup.sender;
    if w.sender.tries == 0 {
      FirstTry(setup, w);
      var u := Moved(setup, w, SendControl);
      SentControl(c, w.sender);
      var rest := FinishFinishing(setup, u);
      more := [SenderMoves(SendControl)] + rest;
    } else {
      PhaseFacts(setup, w);
      StartWaits(setup, w);
      ReplyWireReads(c, FinAck, Total(c));
      FinHeard(c, w.sender, ReplyWire(c, FinAck, Total(c)));
      CanListen(c, w.sender, ReplyWire(c, FinAck, Total(c)));
      var v, there, back := Exchanged(setup, w, FinPacket(c), FinAck, Total(c));
      assert Completes(setup, v, []);
      more := [there, back] + [];
    }
  }

  /** Whenever the sender waits, every outstanding chunk can be delivered and acknowledged, and
      each time that happens there is one chunk less to go. */
  lemma OneChunkLess(setup: Setup, w: World, k: nat) returns (v: World, there: Action, back: Action)
    requires Sound(setup) && Good(setup, w) && AtWait(setup.sender, w.sender)
    requires k in w.sender.window.unacked
    ensures Good(setup, v)
    ensures v.sender == w.sender.(window := SenderWindows.Acked(w.sender.window, k), waited := true)
    ensures v.sender.window.unacked == w.sender.window.unacked - {k} && v.sender.window.next == w.sender.window.next
    ensures forall more :: Completes(setup, v, more) ==> Completes(setup, w, [there, back] + more)
    ensures OfTransfer(setup.sender, there) && OfTransfer(setup.sender, back)
  {
    SoundWorks(setup);
    PhaseFacts(setup, w);
    hide Good, Sound, Workable, Completes, Enabled, OnDatagram, ReplyWire, Wire, Serializer.Decode, Total,
      SenderWindows.Acked, DataPacket, StartPacket, FinPacket;
    OursSendable(setup, k);
    var c := setup.sender;
    StartWaits(setup, w);
    assert ChunkInNet(c, k, w.toReceiver);
    ReplyWireReads(c, Ack, k);
    AckHeard(c, w.sender, ReplyWire(c, Ack, k), k);
    CanListen(c, w.sender, ReplyWire(c, Ack, k));
    SenderWindows.AckedWellFormed(w.sender.window, k);
    v, there, back := Exchanged(setup, w, DataPacket(c, k), Ack, k);
  }

  /** What is still to go, counting each chunk once for sending and once for acknowledging. */
  function ToGo(total: nat, v: SenderWindows.SView): nat {
    2 * (if v.next < total then total - v.next else 0) + |v.unacked|
  }

  function ToGoNow(c: SenderConfig, s: SState): nat {
    if CanStart(c) then ToGo(Total(c), s.window) else 0
  }

  lemma PatientSetup(setup: Setup)
    requires Workable(setup)
    ensures CanStart(setup.sender) && setup.sender.rto > 0
  {
  }

  lemma HopefulNow(setup: Setup, w: World)
    requires CanStart(setup.sender) && Good(setup, w) && w.sender.phase == Sending && !Doomed(setup.sender, w.sender)
    ensures Hopeful(setup.sender, w.sender)
  {
    hide Good, Doomed, SenderInv;
    InvOf(setup, w);
  }

  /** Round by round, as send_file goes about it: resend what is due, look at the timers once
      the wait is over, fill the window, and only then wait, for the most urgent chunk's
      acknowledgement. The clock stands still meanwhile. */
  lemma {:induction false} FinishSending(setup: Setup, w: World) returns (more: Schedule)
    requires Sound(setup) && Good(setup, w) && w.sender.phase == Sending && !Doomed(setup.sender, w.sender)
    ensures Completes(setup, w, more) && OwnOnly(setup.sender, more)
    decreases ToGoNow(setup.sender, w.sender), w.sender.waited, |w.sender.due|
  {
    hide Good, Sound, Workable, Completes, Apply, Enabled, Total, CanStart, Doomed, Hopeful, CanHappen, Calm, After;
    SoundWorks(setup);
    PatientSetup(setup);
    HopefulNow(setup, w);
    var c := setup.sender;
    var s := w.sender;
    if s.due != [] {
      ResendHopeful(c, s);
      SameToGo(c, s, Apply(c, s, Resend(s.due[0], s.clock)));
      var v := Moved(setup, w, Resend(s.due[0], s.clock));
      StaysHopeful(c, v.sender);
      var rest := FinishSending(setup, v);
      more := [SenderMoves(Resend(s.due[0], s.clock))] + rest;
    } else if s.waited {
      var e := ExpireHopeful(c, s);
      SameToGo(c, s, Apply(c, s, e));
      var v := Moved(setup, w, e);
      StaysHopeful(c, v.sender);
      var rest := FinishSending(setup, v);
      more := [SenderMoves(e)] + rest;
    } else if SenderWindows.CanSend(s.window) && s.window.next < Total(c) {
      SendHopeful(c, s);
      OneSent(c, s, Apply(c, s, SendChunk(s.window.next, s.clock)));
      var v := Moved(setup, w, SendChunk(s.window.next, s.clock));
      StaysHopeful(c, v.sender);
      var rest := FinishSending(setup, v);
      more := [SenderMoves(SendChunk(s.window.next, s.clock))] + rest;
    } else {
      FilledWaits(c, s);
      if s.window.unacked == {} {
        var v := Moved(setup, w, AllAcknowledged);
        AcknowledgedFinishes(c, s);
        var rest := FinishFinishing(setup, v);
        more := [SenderMoves(AllAcknowledged)] + rest;
      } else {
        var k := MostUrgent(c, s);
        var v, there, back := OneChunkLess(setup, w, k);
        AckedHopeful(c, s, k);
        OneAcknowledged(c, s, v.sender, k);
        var rest := FinishSending(setup, v);
        more := [there, back] + rest;
      }
    }
  }

  lemma StaysHopeful(c: SenderConfig, s: SState)
    requires CanStart(c) && Hopeful(c, s)
    ensures s.phase == Sending && !Doomed(c, s)
  {
  }

  lemma SameToGo(c: SenderConfig, s: SState, t: SState)
    requires SamePackets(s, t)
    ensures ToGoNow(c, t) == ToGoNow(c, s)
  {
    hide Total;
  }

  lemma OneSent(c: SenderConfig, s: SState, t: SState)
    requires CanStart(c) && s.window.next < Total(c)
    requires t.window.next == s.window.next + 1 && t.window.unacked == s.window.unacked + {s.window.next}
    ensures ToGoNow(c, t) < ToGoNow(c, s)
  {
    hide Total;
    OneLess(t.window.unacked, s.window.unacked, s.window.next);
  }

  lemma OneAcknowledged(c: SenderConfig, s: SState, t: SState, k: nat)
    requires k in s.window.unacked && t.window.unacked == s.window.unacked - {k} && t.window.next == s.window.next
    ensures ToGoNow(c, t) < ToGoNow(c, s) || !CanStart(c)
  {
    hide Total;
    assert s.window.unacked == t.window.unacked + {k};
  }

  lemma AcknowledgedFinishes(c: SenderConfig, s: SState)
    requires CanStart(c)
    ensures Apply(c, s, AllAcknowledged).phase == Finishing
  {
  }

  lemma InvOf(setup: Setup, w: World)
    requires CanStart(setup.sender) && Good(setup, w)
    ensures SenderInv(setup.sender, w.sender)
  {
    hide SenderInv, Linked, Healthy, InNet, OurDisk, WellFormedState, WasSent, WasDone;
  }

  lemma Finish(setup: Setup, w: World) returns (more: Schedule)
    requires Sound(setup) && Good(setup, w) && !Doomed(setup.sender, w.sender)
    ensures Completes(setup, w, more) && OwnOnly(setup.sender, more)
  {
    hide Good, Sound, CanStart, CanHappen, Calm, After;
    SoundWorks(setup);
    match w.sender.phase
    case Starting =>
      var v, prefix := FinishStarting(setup, w);
      StartedHopeful(setup, w, v);
      var rest := FinishSending(setup, v);
      more := prefix + rest;
    case Sending => more := FinishSending(setup, w);
    case Finishing => more := FinishFinishing(setup, w);
    case Ended(_) => more := [];
  }

  /** A transfer that has just been accepted has no timers yet. */
  lemma StartedHopeful(setup: Setup, w: World, v: World)
    requires CanStart(setup.sender) && Good(setup, w) && w.sender.phase == Starting
    requires v.sender.phase == Sending && v.sender.due == w.sender.due && v.sender.window == w.sender.window
    ensures !Doomed(setup.sender, v.sender)
  {
    hide Good, Total;
    InvOf(setup, w);
    assert Overdue(setup.sender, v.sender) == {};
  }

  /** What an action is to the sender: an event of its own, a datagram, or nothing. */
  lemma SenderShare(setup: Setup, w: World, a: Action)
    requires CanStart(setup.sender) && CanHappen(setup, w, a)
    ensures var v := After(setup, w, a);
            match a
            case SenderMoves(e) => Enabled(setup.sender, w.sender, e) && v.sender == Apply(setup.sender, w.sender, e)
            case SenderHears(d) =>
              Enabled(setup.sender, w.sender, Receive(d)) && v.sender == Apply(setup.sender, w.sender, Receive(d))
            case ReceiverHears(_, _) => v.sender == w.sender
  {
    hide Enabled, OnDatagram, HandlePacket, Serializer.Decode, Arrives, StrayForSender, StrayForReceiver;
  }

  lemma DoomedStays(setup: Setup, w: World, a: Action)
    requires CanStart(setup.sender) && SenderInv(setup.sender, w.sender) && CanHappen(setup, w, a)
    requires Doomed(setup.sender, w.sender)
    ensures var v := After(setup, w, a); Doomed(setup.sender, v.sender) && SenderInv(setup.sender, v.sender)
  {
    hide *;
    SenderShare(setup, w, a);
    match a
    case ReceiverHears(_, _) =>
    case SenderHears(d) =>
      StepKeepsInv(setup.sender, w.sender, Receive(d));
      DoomedEvent(setup.sender, w.sender, Receive(d));
    case SenderMoves(e) =>
      StepKeepsInv(setup.sender, w.sender, e);
      DoomedEvent(setup.sender, w.sender, e);
  }

  lemma {:induction false} DoomedNeverCompletes(setup: Setup, w: World, more: Schedule)
    requires CanStart(setup.sender) && SenderInv(setup.sender, w.sender) && Doomed(setup.sender, w.sender)
    ensures !Completes(setup, w, more)
    decreases |more|
  {
    hide Doomed, SenderInv, CanHappen, Calm, After, CanStart;
    if more == [] {
      DoomedHasNotSucceeded(setup.sender, w.sender);
    } else if CanHappen(setup, w, more[0]) {
      DoomedStays(setup, w, more[0]);
      DoomedNeverCompletes(setup, After(setup, w, more[0]), more[1..]);
    }
  }

  /** Progress, exactly: after any undisturbed run some continuation, in which the sender goes
      round by round as send_file does, ends in success; unless the sender has failed, or a
      chunk that has used up its transmissions is due, or more of them are overdue than can
      still be acknowledged before the timers are looked at; and then none does. */
  lemma SuccessStaysPossible(setup: Setup, fs: FileSystem, actions: Schedule)
    requires Sound(setup) && Possible(setup, fs, actions) && CalmRun(setup, fs, actions)
    ensures var w := WorldAfter(setup, fs, actions);
            (exists more :: Completes(setup, w, more)) <==> !Doomed(setup.sender, w.sender)
  {
    hide *;
    SoundWorks(setup);
    var w := WorldAfter(setup, fs, actions);
    ReachableGood(setup, fs, actions);
    if Doomed(setup.sender, w.sender) {
      InvOf(setup, w);
      forall more ensures !Completes(setup, w, more) {
        DoomedNeverCompletes(setup, w, more);
      }
    } else {
      var more := Finish(setup, w);
    }
  }
}
