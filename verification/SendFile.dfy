/** send_file of src/transfer/sender.cpp: the loops, the in-flight ring, the counters and the
    sender's window, driven by whatever the socket and the clock deliver. Every execution is
    proved to be a run of the machine in Senders, so what holds of all runs holds of it.

    The locals of the one long function are the fields of this class. What the socket
    delivers is an arbitrary finite list; whether a call succeeds is chosen arbitrarily at each
    call, and so is each reading of the clock, except that it never goes back. */
module SendFile {
  import opened Common
  import opened Packets
  import opened Rings
  import opened SenderWindows
  import opened Sessions
  import opened Senders
  import opened SenderRuns
  import opened SenderVerdicts
  import opened Files
  import opened Chunking
  import opened FileHash
  import Serializer
  import Sha256

  /** One result of recv_from. */
  datatype Received = Datagram(bytes: seq<byte>) | TimedOut | Interrupted | Broken

  datatype InFlight = InFlight(wire: seq<byte>, attempts: int)

  function Datagrams(inbox: seq<Received>): seq<seq<byte>> {
    if inbox == [] then []
    else (if inbox[0].Datagram? then [inbox[0].bytes] else []) + Datagrams(inbox[1..])
  }

  class FileSender {
    const config: SenderConfig
    const window: SenderWindow
    const inFlight: array<InFlight>
    var inbox: seq<Received>
    var packetsSent: nat
    var retransmissions: nat
    var clock: Time
    ghost const arriving: seq<seq<byte>>
    ghost var log: Log
    ghost var now: SState
    ghost var sent: seq<seq<byte>>

    /** The log is a run that has reached `now`, and it is what was sent and received. */
    ghost predicate LogAgrees()
      requires CanStart(config)
      reads `log, `now, `sent, `inbox
    {
      && IsRun(config, log) && now == StateAfter(config, log)
      && sent == Outgoing(config, log)
      && Heard(log) + Datagrams(inbox) == arriving
    }

    /** The counters are the machine's. */
    ghost predicate Logged()
      reads this
    {
      && CanStart(config) && LogAgrees()
      && packetsSent == now.packetsSent && retransmissions == now.retransmissions && now.clock <= clock
    }

    ghost predicate InFlightMatches()
      requires CanStart(config)
      reads `now, inFlight, window
    {
      && inFlight.Length == window.capacity
      && RingMatches(config, now.attempts, inFlight[..], window.base, window.next)
    }

    /** The window object is the machine's window. */
    ghost predicate InSync()
      reads this, window, inFlight
    {
      && Logged() && window.Valid() && window.Tidy() && window.View() == now.window
      && NoneLater(window.timers, clock + config.rto) && InFlightMatches()
    }

    constructor (c: SenderConfig, input: seq<Received>)
      requires CanStart(c)
      ensures InSync() && config == c && inbox == input && arriving == Datagrams(input)
      ensures log == [] && sent == []
      ensures fresh(window) && fresh(inFlight)
    {
      config := c;
      window := new SenderWindow(c.windowSize);
      inFlight := new InFlight[if c.windowSize == 0 then 1 else c.windowSize](_ => InFlight([], 0));
      inbox := input;
      packetsSent, retransmissions, clock := 0, 0, 0;
      arriving := Datagrams(input);
      log := [];
      now := Initial(c);
      sent := [];
    }

    /** Clock::now(): any reading, but never an earlier one than before. */
    method ReadClock() returns (t: Time)
      requires Logged()
      modifies `clock
      ensures Logged() && t == clock && old(clock) <= t
    {
      hide LogAgrees;
      t :| clock <= t;
      clock := t;
    }

    /** Ghost: the machine takes a step that neither sends nor receives. */
    ghost method Note(e: Event)
      requires Logged() && Enabled(config, now, e)
      requires !e.SendControl? && !e.SendChunk? && !e.Resend? && !e.Receive?
      requires Apply(config, now, e).clock <= clock
      modifies `log, `now
      ensures Logged() && log == old(log) + [e] && now == Apply(config, old(now), e)
      ensures Heard(log) == old(Heard(log))
    {
      hide IsRun, StateAfter, Outgoing, Heard, Enabled, OnDatagram;
      Snoc(config, log, e);
      now := Apply(config, now, e);
      log := log + [e];
    }

    /** send_packet: counted whether or not it is lost, refused or delivered. */
    method SendPacket(wire: seq<byte>, ghost e: Event) returns (ok: bool)
      requires CanStart(config) && LogAgrees()
      requires Enabled(config, now, e) && Emitted(config, now, e) == Some(wire)
      requires packetsSent == now.packetsSent
      requires retransmissions == Apply(config, now, e).retransmissions
      requires Apply(config, now, e).clock <= clock
      modifies `packetsSent, `log, `now, `sent
      ensures Logged() && log == old(log) + [e] && now == Apply(config, old(now), e)
      ensures Heard(log) == old(Heard(log))
    {
      hide Enabled, IsRun, StateAfter, Outgoing, Heard, Datagrams, Apply, Emitted;
      Snoc(config, log, e);
      SendStep(config, now, e);
      now := Apply(config, now, e);
      log := log + [e];
      sent := sent + [wire];
      packetsSent := packetsSent + 1;
      ok := *;
    }

    /** recv_from returned a datagram. */
    method Hear() returns (datagram: seq<byte>)
      requires Logged() && inbox != [] && inbox[0].Datagram?
      requires Enabled(config, now, Receive(inbox[0].bytes))
      modifies `inbox, `log, `now
      ensures Logged() && datagram == old(inbox)[0].bytes
      ensures inbox == old(inbox)[1..] && log == old(log) + [Receive(datagram)]
      ensures now == OnDatagram(config, old(now), datagram) && Heard(log) == old(Heard(log)) + [datagram]
    {
      hide OnDatagram, Enabled, IsRun, StateAfter, Outgoing, Heard, Datagrams;
      datagram := inbox[0].bytes;
      Snoc(config, log, Receive(datagram));
      DatagramKeepsCounts(config, now, datagram);
      HeardNext(log, inbox, arriving);
      now := OnDatagram(config, now, datagram);
      log := log + [Receive(datagram)];
      inbox := inbox[1..];
    }

    /** recv_from returned without a datagram. */
    method Skip()
      requires Logged() && inbox != [] && !inbox[0].Datagram?
      modifies `inbox
      ensures Logged() && inbox == old(inbox)[1..]
    {
      hide IsRun, StateAfter, Outgoing, Heard;
      assert Datagrams(inbox) == [] + Datagrams(inbox[1..]);
      inbox := inbox[1..];
    }

    method Fails(error: TransferError) returns (e: TransferError)
      requires Logged() && !now.phase.Ended? && IsLocal(error)
      modifies `log, `now
      ensures Logged() && e == error && now.phase == Ended(error) && Heard(log) == old(Heard(log))
    {
      Note(Abort(error));
      e := error;
    }

    /** How a control exchange may end. */
    ghost predicate Settled(before: SState, error: TransferError)
      requires CanStart(config)
      reads this
    {
      if error == NoError then
        && SameTransfer(before, now) && now.tries == 0
        && now.phase == (if before.phase == Starting then Sending else Ended(NoError))
      else
        now.phase == Ended(if before.phase == Starting && error == PeerUnresponsive then HandshakeError else error)
    }

    /** exchange_control: one packet at a time, answered, refused or given up. */
    method ExchangeControl(wire: seq<byte>, expected: PacketType, expectedAck: uint32)
        returns (error: TransferError, ghost heard: seq<seq<byte>>)
      requires Logged() && now.tries == 0 && (now.phase == Starting || now.phase == Finishing)
      requires wire == Wire(if now.phase == Starting then StartPacket(config) else FinPacket(config))
      requires expected == (if now.phase == Starting then StartAck else FinAck)
      requires expectedAck == (if now.phase == Starting then 0 else Total(config))
      modifies `packetsSent, `retransmissions, `log, `now, `sent, `inbox
      ensures Logged() && Settled(old(now), error) && Heard(log) == old(Heard(log)) + heard
      ensures Heeded(heard, expected, expectedAck, error == NoError, error == RemoteError)
    {
      hide LogAgrees, Wire, StartPacket, FinPacket, Total, Serializer.Decode, Heard, NoneDecides, Heeded, IsReply,
        IsError, OnDatagram;
      ghost var before := now;
      heard := [];
      NothingHeard(expected, expectedAck);
      var attempt := 0;
      while attempt <= config.maxRetries
        invariant Logged() && SameTransfer(before, now) && now.phase == before.phase
        invariant now.tries == attempt && Heard(log) == old(Heard(log)) + heard
        invariant Heeded(heard, expected, expectedAck, false, false)
        decreases config.maxRetries - attempt
      {
        if attempt > 0 {
          retransmissions := retransmissions + 1;
        }
        var ok := SendPacket(wire, SendControl);
        attempt := attempt + 1;
        if !ok {
          error := Fails(SendError);
          return;
        }
        var replied: bool;
        ghost var more: seq<seq<byte>>;
        error, replied, more := AwaitReply(expected, expectedAck, before);
        HeededLater(heard, more, expected, expectedAck, replied, error == RemoteError);
        heard := heard + more;
        if replied || error != NoError {
          return;
        }
      }
      Note(ControlExhausted);
      error := PeerUnresponsive;
    }

    /** The datagram ends a control exchange. */
    predicate Decides(d: seq<byte>, expected: PacketType, expectedAck: nat) {
      IsError(d) || IsReply(config, d, expected, expectedAck)
    }

    predicate NoneDecides(heard: seq<seq<byte>>, expected: PacketType, expectedAck: nat) {
      forall d <- heard :: !Decides(d, expected, expectedAck)
    }

    /** The exchange was ended by the last datagram heard, if it was the reply or an ERROR; none
        before it was either. */
    predicate Heeded(heard: seq<seq<byte>>, expected: PacketType, expectedAck: nat, replied: bool, refused: bool) {
      if replied || refused then
        && heard != [] && NoneDecides(heard[..|heard| - 1], expected, expectedAck)
        && (replied <==> IsReply(config, heard[|heard| - 1], expected, expectedAck))
        && (refused <==> IsError(heard[|heard| - 1]))
      else NoneDecides(heard, expected, expectedAck)
    }

    lemma HeededLater(heard: seq<seq<byte>>, more: seq<seq<byte>>, expected: PacketType, expectedAck: nat,
                      replied: bool, refused: bool)
      requires Heeded(heard, expected, expectedAck, false, false)
      requires Heeded(more, expected, expectedAck, replied, refused)
      ensures Heeded(heard + more, expected, expectedAck, replied, refused)
    {
      hide Decides, IsReply, IsError;
      if replied || refused {
        assert (heard + more)[..|heard + more| - 1] == heard + more[..|more| - 1];
      }
    }

    lemma HeededNow(heard: seq<seq<byte>>, d: seq<byte>, expected: PacketType, expectedAck: nat)
      requires Heeded(heard, expected, expectedAck, false, false)
      ensures !Decides(d, expected, expectedAck) ==> Heeded(heard + [d], expected, expectedAck, false, false)
      ensures Decides(d, expected, expectedAck) ==>
                Heeded(heard + [d], expected, expectedAck, IsReply(config, d, expected, expectedAck), IsError(d))
    {
      hide IsReply, IsError;
      assert (heard + [d])[..|heard|] == heard;
    }

    lemma NothingHeard(expected: PacketType, expectedAck: nat)
      ensures Heeded([], expected, expectedAck, false, false)
    {
    }

    /** The inner loop: listen until the reply comes, an error comes, or this wait is over. */
    method AwaitReply(expected: PacketType, expectedAck: uint32, ghost before: SState)
      returns (error: TransferError, replied: bool, ghost heard: seq<seq<byte>>)
      requires Logged() && SameTransfer(before, now) && now.phase == before.phase && now.tries > 0
      requires before.phase == Starting || before.phase == Finishing
      requires expected == (if before.phase == Starting then StartAck else FinAck)
      requires expectedAck == (if before.phase == Starting then 0 else Total(config))
      modifies `log, `now, `inbox
      ensures Logged()
      ensures replied ==> error == NoError
      ensures !replied && error == NoError ==>
                SameTransfer(before, now) && now.phase == before.phase && now.tries == old(now.tries)
      ensures replied || error != NoError ==> error != PeerUnresponsive && Settled(before, error)
      ensures Heard(log) == old(Heard(log)) + heard
      ensures Heeded(heard, expected, expectedAck, replied, error == RemoteError)
    {
      hide LogAgrees, Total, Serializer.Decode, Heard, NoneDecides, Heeded;
      heard := [];
      NothingHeard(expected, expectedAck);
      while true
        invariant Logged() && SameTransfer(before, now) && now.phase == before.phase
        invariant now.tries == old(now.tries) && Heard(log) == old(Heard(log)) + heard
        invariant Heeded(heard, expected, expectedAck, false, false)
        decreases |inbox|
      {
        var late: bool := *;
        if late {
          return NoError, false, heard;
        }
        var timeoutSet: bool := *;
        if !timeoutSet {
          error := Fails(SocketError);
          return error, false, heard;
        }
        if inbox == [] || inbox[0].Broken? {
          error := Fails(ReceiveError);
          return error, false, heard;
        }
        if inbox[0].TimedOut? {
          Skip();
          return NoError, false, heard;
        }
        if inbox[0].Interrupted? {
          Skip();
          continue;
        }
        var datagram := Hear();
        HeededNow(heard, datagram, expected, expectedAck);
        heard := heard + [datagram];
        var result := Serializer.Decode(datagram);
        if result.Err? {
          continue;
        }
        var header := result.value.header;
        if header.packetType == ErrorPacket {
          return RemoteError, false, heard;
        }
        if header.sessionId != config.sessionId {
          continue;
        }
        if header.packetType == expected && header.acknowledgementNumber == expectedAck {
          return NoError, true, heard;
        }
      }
    }

    /** The state between two rounds of the data phase. */
    ghost predicate Transferring()
      reads this, window, inFlight
    {
      InSync() && AtHead(now)
    }

    /** The state after the wait and before the timers are looked at. */
    ghost predicate Waited()
      reads this, window, inFlight
    {
      InSync() && now.phase == Sending && now.waited
    }

    /** The fill loop: afterwards there is no room left, or nothing left to send. */
    method FillWindow() returns (error: TransferError)
      requires Transferring()
      modifies `packetsSent, `clock, `log, `now, `sent, window, inFlight
      ensures Logged()
      ensures error == NoError ==> Transferring() && window.base == old(window.base)
      ensures error == NoError ==> !CanSend(window.View()) || window.next >= Total(config)
      ensures error != NoError ==> now.phase == Ended(error)
    {
      error := NoError;
      while window.HasRoom() && window.next < Total(config)
        invariant Transferring() && error == NoError && window.base == old(window.base)
        decreases Total(config) - window.next
      {
        error := SendNextChunk();
        if error != NoError {
          return;
        }
      }
    }

    method SendNextChunk() returns (error: TransferError)
      requires Transferring() && CanSend(window.View()) && window.next < Total(config)
      modifies `packetsSent, `clock, `log, `now, `sent, window, inFlight
      ensures Logged()
      ensures error == NoError ==>
                Transferring() && window.next == old(window.next) + 1 && window.base == old(window.base)
      ensures error != NoError ==> now.phase == Ended(error)
    {
      hide LogAgrees, Slot, Wire, DataPacket, Total, Serializer.Encode, TimersMatch, SlotsMatch,
        OneEntryEach, EntriesNear;
      ghost var before := now;
      ghost var ring := inFlight[..];
      var k := window.next;
      var read: bool := *;
      if !read {
        error := Fails(FileReadError);
        return;
      }
      var wire := EncodeChunk(k);
      inFlight[Slot(k, inFlight.Length)] := InFlight(wire, 1);
      var time := ReadClock();
      var ok := SendPacket(wire, SendChunk(k, time));
      if !ok {
        error := Fails(SendError);
        return;
      }
      window.OnSent(time + config.rto);
      error := NoError;
      assert inFlight[..] == ring[Slot(k, |ring|) := InFlight(wire, 1)];
      RingUpdate(config, before.attempts, ring, old(window.base), old(window.next), k, InFlight(wire, 1));
    }

    method EncodeChunk(k: uint32) returns (wire: seq<byte>)
      requires CanStart(config) && k < Total(config)
      ensures wire == Wire(DataPacket(config, k))
    {
      var p := DataPacket(config, k);
      var buffer := Serializer.Serialize(p.header, p.payload);
      wire := buffer[..];
    }

    lemma NowInv()
      requires Logged()
      ensures SenderInv(config, now)
    {
      RunInv(config, log);
    }

    /** Between rounds every outstanding packet has exactly one entry in the heap, which is
        live; the other entries belong to acknowledged packets. */
    lemma HeapAtLoopHead(e: Entry)
      requires Transferring() && e in window.timers
      ensures IsLive(window.slots, e) <==> e.sequence in window.unacked
      ensures window.armed.Keys == window.unacked
      ensures window.timers[e] == 1 && forall f <- window.timers :: f.sequence == e.sequence ==> f == e
    {
      hide LogAgrees, TimersMatch, RingMatches, Total, SenderInv, IsLive;
      NowInv();
      AllArmed(config, now);
      GhostsAreAcknowledged(window.View(), window.slots, window.timers, e);
    }

    /** A timer is running whenever the loop is about to wait. */
    lemma TimerRuns()
      requires Transferring() && window.base < Total(config)
      requires !CanSend(window.View()) || window.next >= Total(config)
      ensures window.base in window.armed
    {
      DeadlineExists(config, log);
    }

    /** One wait: a datagram is heard, or the wait ends without one. */
    method AwaitAck() returns (error: TransferError)
      requires Transferring() && window.base < Total(config)
      requires !CanSend(window.View()) || window.next >= Total(config)
      modifies `log, `now, `inbox, window
      ensures Logged()
      ensures error == NoError ==> Waited() && |inbox| < |old(inbox)|
      ensures error != NoError ==> now.phase == Ended(error)
    {
      hide LogAgrees, Total, WellFormed, TimersMatch, SlotsMatch, RingMatches, Serializer.Decode, OneEntryEach,
        EntriesNear, Tied;
      TimerRuns();
      var deadline := window.EarliestDeadline();
      // Without a deadline the code would leave the loop here; there always is one, and
      // with it the heap stays small.
      assert deadline.Some? && |window.timers| <= 2 * window.capacity - 2 + |Tied(window.timers, deadline.value)|;
      var timeoutSet: bool := *;
      if !timeoutSet {
        error := Fails(SocketError);
        return;
      }
      if inbox == [] || inbox[0].Broken? {
        error := Fails(ReceiveError);
        return;
      }
      error := NoError;
      if !inbox[0].Datagram? {
        Skip();
        Note(Event.TimedOut);
        return;
      }
      var datagram := Hear();
      var result := Serializer.Decode(datagram);
      if result.Ok? && result.value.header.packetType == Ack {
        var retired := window.OnAck(result.value.header.acknowledgementNumber);
        RingShrinks(config, now.attempts, inFlight[..], old(window.base), window.base, window.next);
      }
    }

    /** The expired packets go out again, in the order in which they expired. */
    method RetransmitDue() returns (error: TransferError)
      requires Waited()
      modifies `packetsSent, `retransmissions, `clock, `log, `now, `sent, window, inFlight
      ensures Logged()
      ensures error == NoError ==> Transferring()
      ensures error != NoError ==> now.phase == Ended(error)
    {
      hide LogAgrees, Total, TimersMatch, SlotsMatch, RingMatches,
        OneEntryEach, EntriesNear;
      var time := ReadClock();
      var expired := window.Expire(time);
      Note(Expire(time, expired, window.View()));
      var i := 0;
      error := NoError;
      while i < |expired|
        invariant i <= |expired| && error == NoError
        invariant InSync() && now.phase == Sending && now.due == expired[i..] && !now.waited
      {
        error := RetransmitOne(expired[i]);
        if error != NoError {
          return;
        }
        i := i + 1;
      }
    }

    method RetransmitOne(k: nat) returns (error: TransferError)
      requires InSync() && now.phase == Sending && now.due != [] && k == now.due[0]
      modifies `packetsSent, `retransmissions, `clock, `log, `now, `sent, window, inFlight
      ensures Logged()
      ensures error == NoError ==>
                InSync() && now.phase == Sending && now.due == old(now.due)[1..] && now.waited == old(now.waited)
      ensures error != NoError ==> now.phase == Ended(error)
    {
      DueInRing(k);
      hide LogAgrees, Slot, Wire, DataPacket, Total, TimersMatch, SlotsMatch, WellFormed,
        OneEntryEach, EntriesNear, NoneLater;
      var i := Slot(k, inFlight.Length);
      if inFlight[i].attempts >= config.maxRetries {
        Note(GiveUp(k));
        error := PeerUnresponsive;
        return;
      }
      error := ResendSlot(k, InFlight(inFlight[i].wire, inFlight[i].attempts + 1));
    }

    /** What has just expired is still outstanding, so its slot has not been reused. */
    lemma DueInRing(k: nat)
      requires InSync() && now.due != [] && k == now.due[0]
      ensures window.base <= k < window.next <= Total(config) && window.next <= window.base + window.capacity
      ensures RingHolds(config, now.attempts, inFlight[..], k)
      ensures k !in window.armed
    {
      NowInv();
      assert now.due[0] in Elements(now.due);
    }

    method ResendSlot(k: nat, item: InFlight) returns (error: TransferError)
      requires InSync() && now.phase == Sending && now.due != [] && k == now.due[0]
      requires window.base <= k < window.next <= Total(config) && window.next <= window.base + window.capacity
      requires k in now.attempts && now.attempts[k] < config.maxRetries && k !in window.armed
      requires item == InFlight(Wire(DataPacket(config, k)), now.attempts[k] + 1)
      modifies `packetsSent, `retransmissions, `clock, `log, `now, `sent, window, inFlight
      ensures Logged()
      ensures error == NoError ==>
                InSync() && now.phase == Sending && now.due == old(now.due)[1..] && now.waited == old(now.waited)
      ensures error != NoError ==> now.phase == Ended(error)
    {
      hide LogAgrees, Slot, Wire, DataPacket, Total, TimersMatch, SlotsMatch, WellFormed,
        OneEntryEach, EntriesNear;
      ghost var ring := inFlight[..];
      ghost var before := now;
      var time := ReadClock();
      inFlight[Slot(k, inFlight.Length)] := item;
      retransmissions := retransmissions + 1;
      var ok := SendPacket(item.wire, Resend(k, time));
      if !ok {
        error := Fails(SendError);
        return;
      }
      window.Reschedule(k, time + config.rto);
      error := NoError;
      assert inFlight[..] == ring[Slot(k, |ring|) := item];
      RingUpdate(config, before.attempts, ring, window.base, window.next, k, item);
    }

    /** The data phase: fill, wait, retransmit, until everything is acknowledged. */
    method TransferData() returns (error: TransferError)
      requires Transferring()
      modifies `packetsSent, `retransmissions, `clock, `log, `now, `sent, `inbox, window, inFlight
      ensures Logged()
      ensures error == NoError ==> now.phase == Finishing && now.tries == 0
      ensures error != NoError ==> now.phase == Ended(error)
    {
      hide LogAgrees, Total, WellFormed, TimersMatch, SlotsMatch, RingMatches,
        OneEntryEach, EntriesNear, NoneLater;
      while window.base < Total(config)
        invariant Transferring()
        decreases |inbox|
      {
        error := FillWindow();
        if error != NoError {
          return;
        }
        error := AwaitAck();
        if error != NoError {
          return;
        }
        error := RetransmitDue();
        if error != NoError {
          return;
        }
      }
      error := NoError;
      NoTriesYet();
      Note(AllAcknowledged);
    }

    lemma NoTriesYet()
      requires Logged() && now.phase == Sending
      ensures now.tries == 0
    {
      NowInv();
    }

    /** send_file, from START to the last reply. Whatever happens, the log it leaves is a run
        of the machine that ends with the value returned. */
    method Run() returns (result: TransferError)
      requires InSync() && log == []
      modifies `packetsSent, `retransmissions, `clock, `log, `now, `sent, `inbox, window, inFlight
      ensures IsRun(config, log) && StateAfter(config, log).phase == Ended(result)
      ensures sent == Outgoing(config, log) && Heard(log) + Datagrams(inbox) == arriving
      ensures packetsSent == |sent| && retransmissions == StateAfter(config, log).retransmissions
      ensures result == NoError ==> packetsSent == retransmissions + Total(config) + 2
    {
      assert now == Initial(config);
      result := RunPhases();
      PacketAccounting(config, log);
    }

    method RunPhases() returns (result: TransferError)
      requires InSync() && now == Initial(config)
      modifies `packetsSent, `retransmissions, `clock, `log, `now, `sent, `inbox, window, inFlight
      ensures Logged() && now.phase == Ended(result)
    {
      hide Heeded, Heard, LogAgrees, WellFormed, TimersMatch, SlotsMatch, RingMatches, Wire, StartPacket, FinPacket,
        Total;
      ghost var heard: seq<seq<byte>>;
      var wire := EncodeControl(StartPacket(config));
      result, heard := ExchangeControl(wire, StartAck, 0);
      if result == PeerUnresponsive {
        return HandshakeError;
      }
      if result != NoError {
        return;
      }
      result := TransferData();
      if result != NoError {
        return;
      }
      wire := EncodeControl(FinPacket(config));
      result, heard := ExchangeControl(wire, FinAck, Total(config));
    }

    method EncodeControl(p: Packet) returns (wire: seq<byte>)
      ensures wire == Wire(p)
    {
      var buffer := Serializer.Serialize(p.header, p.payload);
      wire := buffer[..];
    }
  }

  lemma AllArmed(c: SenderConfig, s: SState)
    requires CanStart(c) && SenderInv(c, s) && s.due == []
    ensures s.window.armed.Keys == s.window.unacked
  {
  }

  lemma RingShrinks(c: SenderConfig, attempts: map<nat, nat>, ring: seq<InFlight>, base: nat, base': nat, next: nat)
    requires CanStart(c) && RingMatches(c, attempts, ring, base, next) && base <= base'
    ensures RingMatches(c, attempts, ring, base', next)
  {
  }

  /** A slot of the in-flight ring holds the bytes and the attempts of its packet. */
  ghost predicate RingHolds(c: SenderConfig, attempts: map<nat, nat>, ring: seq<InFlight>, k: nat)
    requires CanStart(c)
  {
    && ring != [] && k < Total(c) && k in attempts
    && ring[Slot(k, |ring|)] == InFlight(Wire(DataPacket(c, k)), attempts[k])
  }

  ghost predicate RingMatches(c: SenderConfig, attempts: map<nat, nat>, ring: seq<InFlight>, base: nat, next: nat)
    requires CanStart(c)
  {
    ring != [] && forall k: nat :: base <= k < next ==> RingHolds(c, attempts, ring, k)
  }

  /** Storing one packet in its slot leaves every other outstanding packet in its own. */
  lemma RingUpdate(c: SenderConfig, attempts: map<nat, nat>, ring: seq<InFlight>, base: nat, next: nat, k: nat,
                   item: InFlight)
    requires CanStart(c) && RingMatches(c, attempts, ring, base, next)
    requires base <= k < base + |ring| && base <= next <= base + |ring| && k <= next && k < Total(c)
    requires item.attempts >= 0 && item.wire == Wire(DataPacket(c, k))
    ensures RingMatches(c, attempts[k := item.attempts], ring[Slot(k, |ring|) := item],
                        base, if k == next then next + 1 else next)
  {
    hide Slot, Wire, DataPacket, Total;
    SlotsApart(base, |ring|, k);
    var after := ring[Slot(k, |ring|) := item];
    var counted := attempts[k := item.attempts];
    var end := if k == next then next + 1 else next;
    forall j: nat | base <= j < end
      ensures RingHolds(c, counted, after, j)
    {
      if j != k {
        assert RingHolds(c, attempts, ring, j);
      }
    }
  }

  lemma HeardNext(log: Log, inbox: seq<Received>, arriving: seq<seq<byte>>)
    requires inbox != [] && inbox[0].Datagram? && Heard(log) + Datagrams(inbox) == arriving
    ensures Heard(log) + [inbox[0].bytes] + Datagrams(inbox[1..]) == arriving
  {
    hide Heard;
  }

  lemma SendStep(c: SenderConfig, s: SState, e: Event)
    requires CanStart(c) && Emitted(c, s, e).Some?
    ensures !e.Receive? && Apply(c, s, e).packetsSent == s.packetsSent + 1
  {
    hide Wire, StartPacket, FinPacket, DataPacket, OnDatagram, Sent, Rescheduled;
  }

  lemma DatagramKeepsCounts(c: SenderConfig, s: SState, datagram: seq<byte>)
    requires CanStart(c)
    ensures var t := OnDatagram(c, s, datagram);
            t.packetsSent == s.packetsSent && t.retransmissions == s.retransmissions && t.clock == s.clock
  {
    hide Serializer.Decode, Acked;
  }

  /** Nothing about the data phase has changed between two moments of a control exchange. */
  ghost predicate SameTransfer(s: SState, t: SState) {
    t.window == s.window && t.due == s.due && t.attempts == s.attempts && t.waited == s.waited && t.clock == s.clock
  }

  /** The whole of send_file: the refusals before anything is sent, the digest taken up front,
      and then the run, whose digest is the SHA-256 of the file. */
  method Send(sessionId: uint64, name: seq<byte>, file: seq<byte>, chunkSize: uint64, windowSize: uint32,
              maxRetries: int, rto: Time, opens: bool, readFaults: set<nat>, input: seq<Received>)
      returns (result: TransferError, packetsSent: nat, ghost c: SenderConfig, ghost log: Log)
    requires |file| < TWO_64
    ensures !opens ==> result == FileOpenError
    ensures opens && ChunkCount(|file|, chunkSize).None? ==> result == ProtocolViolation
    ensures opens && ChunkCount(|file|, chunkSize).Some? ==>
              if !ReadsComplete(file, |file|, readFaults) then result == FileReadError
              else
                && c == SenderConfig(sessionId, name, file, chunkSize, windowSize, maxRetries, rto, c.digest)
                && c.digest(file) == Sha256.Hash(file)
                && IsRun(c, log) && StateAfter(c, log).phase == Ended(result)
                && packetsSent == |Outgoing(c, log)| <= 2 * Exchange(c) + Total(c) * Budget(c)
                && Heard(log) <= Datagrams(input)
    ensures result == NoError ==>
              && opens && ChunkCount(|file|, chunkSize).Some? && ReadsComplete(file, |file|, readFaults)
              && packetsSent >= Total(c) + 2
  {
    hide Sha256.Hash, ChunkCount, IsRun, StateAfter, Outgoing, Heard, Exchange, Budget, ReadsComplete;
    packetsSent, log := 0, [];
    c := SenderConfig(sessionId, name, file, chunkSize, windowSize, maxRetries, rto, x => x);
    if !opens {
      result := FileOpenError;
      return;
    }
    if ChunkCount(|file|, chunkSize).None? {
      result := ProtocolViolation;
      return;
    }
    var hashed, digest := HashPrefix(file, |file|, readFaults);
    if !hashed {
      result := FileReadError;
      return;
    }
    assert file[..|file|] == file;
    var config := SenderConfig(sessionId, name, file, chunkSize, windowSize, maxRetries, rto, _ => digest);
    c := config;
    var sender := new FileSender(config, input);
    result := sender.Run();
    packetsSent, log := sender.packetsSent, sender.log;
    SendBound(c, log);
  }
}
