/** What ends a run of the sender, what acknowledges a chunk and when it is sent again: laws over
    whole logs, told on the events and on the headers of the datagrams heard. */
module SenderVerdicts {
  import opened Common
  import opened Packets
  import opened SenderWindows
  import opened Sessions
  import opened Senders
  import opened SenderRuns
  import Serializer

  predicate IsError(d: seq<byte>) {
    Serializer.Decode(d).Ok? && Serializer.Decode(d).value.header.packetType == ErrorPacket
  }

  /** The reply of this type and acknowledgement number, under the sender's own session id. */
  predicate IsReply(c: SenderConfig, d: seq<byte>, t: PacketType, ack: nat) {
    Serializer.Decode(d).Ok? &&
    var h := Serializer.Decode(d).value.header;
    h.packetType == t && h.sessionId == c.sessionId && h.acknowledgementNumber == ack
  }

  /** An acknowledgement of this chunk, under any session id. */
  predicate Acks(d: seq<byte>, k: nat) {
    Serializer.Decode(d).Ok? &&
    var h := Serializer.Decode(d).value.header;
    h.packetType == Ack && h.acknowledgementNumber == k
  }

  ghost function PhaseAt(c: SenderConfig, log: Log, i: nat): Phase
    requires CanStart(c) && i <= |log|
  {
    StateAfter(c, log[..i]).phase
  }

  lemma {:induction false} RunPrefix(c: SenderConfig, log: Log, n: nat)
    requires CanStart(c) && IsRun(c, log) && n <= |log|
    ensures IsRun(c, log[..n])
    decreases |log|
  {
    hide Enabled, StateAfter;
    if n == |log| {
      assert log[..n] == log;
    } else {
      var front := log[..|log| - 1];
      assert front[..n] == log[..n];
      RunPrefix(c, front, n);
    }
  }

  lemma RunStepAt(c: SenderConfig, log: Log, i: nat)
    requires CanStart(c) && IsRun(c, log) && i < |log|
    ensures IsRun(c, log[..i]) && Enabled(c, StateAfter(c, log[..i]), log[i])
    ensures StateAfter(c, log[..i + 1]) == Apply(c, StateAfter(c, log[..i]), log[i])
    ensures SenderInv(c, StateAfter(c, log[..i]))
  {
    hide Enabled, Apply, SenderInv;
    RunPrefix(c, log, i + 1);
    RunPrefix(c, log, i);
    assert log[..i + 1][..i] == log[..i] && log[..i + 1][i] == log[i];
    RunInv(c, log[..i]);
  }

  // ------------------------------------------------------------------------
  // How a run ends
  // ------------------------------------------------------------------------

  lemma NothingAfterEnd(c: SenderConfig, s: SState, e: Event)
    requires CanStart(c) && Enabled(c, s, e)
    ensures !s.phase.Ended?
  {
  }

  /** Once it has ended, a run takes no further step. */
  lemma EndIsLast(c: SenderConfig, log: Log, n: nat)
    requires CanStart(c) && IsRun(c, log) && n <= |log| && PhaseAt(c, log, n).Ended?
    ensures n == |log|
  {
    hide Enabled, Apply;
    if n < |log| {
      RunStepAt(c, log, n);
      NothingAfterEnd(c, StateAfter(c, log[..n]), log[n]);
    }
  }

  /** What hearing a datagram does in each phase. */
  lemma HeardIn(c: SenderConfig, s: SState, d: seq<byte>)
    requires CanStart(c)
    ensures var t := OnDatagram(c, s, d);
            && (s.phase == Starting ==>
                  t.phase == (if IsError(d) then Ended(RemoteError) else if IsReply(c, d, StartAck, 0) then Sending
                              else Starting))
            && (s.phase == Finishing ==>
                  t.phase == (if IsError(d) then Ended(RemoteError)
                              else if IsReply(c, d, FinAck, Total(c)) then Ended(NoError) else Finishing))
            && (s.phase == Sending ==> t.phase == Sending)
  {
    hide Serializer.Decode, Acked, Total;
  }

  lemma NotSentByHearing(c: SenderConfig, log: Log, i: nat)
    requires CanStart(c) && i < |log| && log[i].Receive?
    ensures Outgoing(c, log[..i + 1]) == Outgoing(c, log[..i])
  {
    hide StateAfter;
    assert log[..i + 1][..i] == log[..i];
  }

  /** An ERROR of any session, heard in a control exchange, ends the run there and then: nothing
      more is sent. */
  lemma ErrorEndsExchange(c: SenderConfig, log: Log, i: nat)
    requires CanStart(c) && IsRun(c, log) && i < |log| && log[i].Receive? && IsError(log[i].datagram)
    requires PhaseAt(c, log, i) == Starting || PhaseAt(c, log, i) == Finishing
    ensures i == |log| - 1 && StateAfter(c, log).phase == Ended(RemoteError)
    ensures Outgoing(c, log) == Outgoing(c, log[..i])
  {
    hide Enabled, OnDatagram, Outgoing, IsError, SenderInv, StateAfter;
    RunStepAt(c, log, i);
    HeardIn(c, StateAfter(c, log[..i]), log[i].datagram);
    EndIsLast(c, log, i + 1);
    assert log[..i + 1] == log;
    NotSentByHearing(c, log, i);
  }

  /** The event that ended the run, by the result: there is one for each, and no other. */
  ghost predicate EndsWith(c: SenderConfig, log: Log, e: Event, phase: Phase, result: TransferError)
    requires CanStart(c)
  {
    match result
    case NoError => phase == Finishing && e.Receive? && IsReply(c, e.datagram, FinAck, Total(c)) && !IsError(e.datagram)
    case RemoteError => (phase == Starting || phase == Finishing) && e.Receive? && IsError(e.datagram)
    case HandshakeError => phase == Starting && e.ControlExhausted? && ControlSends(c, log, Starting) == Exchange(c)
    case PeerUnresponsive =>
      || (phase == Finishing && e.ControlExhausted? && ControlSends(c, log, Finishing) == Exchange(c))
      || (phase == Sending && e.GiveUp? && TransmissionsOf(log, e.k) == Budget(c))
    case _ => e == Abort(result) && result in {FileReadError, SocketError, SendError, ReceiveError}
  }

  lemma EndingStep(c: SenderConfig, s: SState, e: Event)
    requires CanStart(c) && SenderInv(c, s) && Enabled(c, s, e) && Apply(c, s, e).phase.Ended?
    ensures var r := Apply(c, s, e).phase.result;
            || (e.Receive? && s.phase == Finishing && r == NoError &&
                IsReply(c, e.datagram, FinAck, Total(c)) && !IsError(e.datagram))
            || (e.Receive? && (s.phase == Starting || s.phase == Finishing) && IsError(e.datagram) && r == RemoteError)
            || (e.ControlExhausted? && s.phase == Starting && s.tries == Exchange(c) && r == HandshakeError)
            || (e.ControlExhausted? && s.phase == Finishing && s.tries == Exchange(c) && r == PeerUnresponsive)
            || (e.GiveUp? && s.phase == Sending && AttemptsOf(s, e.k) == Budget(c) && r == PeerUnresponsive)
            || (e == Abort(r) && IsLocal(r))
  {
    hide Serializer.Decode, Total, SenderWindows.WellFormed, IsReply, IsError, OnDatagram, IsExpiry;
    if e.Receive? {
      HeardIn(c, s, e.datagram);
    }
  }

  /** Every run that has ended was ended by the event that goes with its result: success by the
      FIN_ACK of its own session, a remote error by an ERROR, the two failures for want of an
      answer only once the budget is used up, and any other by a call that failed. */
  lemma HowItEnds(c: SenderConfig, log: Log)
    requires CanStart(c) && IsRun(c, log) && StateAfter(c, log).phase.Ended?
    ensures log != []
    ensures var m := |log| - 1;
            EndsWith(c, log[..m], log[m], PhaseAt(c, log, m), StateAfter(c, log).phase.result)
  {
    hide Enabled, Apply, SenderInv, IsReply, IsError, Total, Exchange, Budget;
    NotEndedYet(c, log);
    var m := |log| - 1;
    assert log[..m + 1] == log;
    RunStepAt(c, log, m);
    EndingStep(c, StateAfter(c, log[..m]), log[m]);
    SendsAreBounded(c, log[..m]);
    if log[m].GiveUp? {
      AttemptsAreTransmissions(c, log[..m], log[m].k);
    }
  }

  lemma NotEndedYet(c: SenderConfig, log: Log)
    requires CanStart(c) && StateAfter(c, log).phase.Ended?
    ensures log != []
  {
  }

  /** And each of these events does end it so. */
  lemma WhatEndsIt(c: SenderConfig, log: Log, result: TransferError)
    requires CanStart(c) && IsRun(c, log) && log != []
    requires var m := |log| - 1; EndsWith(c, log[..m], log[m], PhaseAt(c, log, m), result)
    ensures StateAfter(c, log).phase == Ended(result)
  {
    hide Enabled, SenderInv, IsReply, IsError, Total, Exchange, Budget, OnDatagram, ControlSends, TransmissionsOf;
    var m := |log| - 1;
    RunStepAt(c, log, m);
    assert log[..m + 1] == log;
    if log[m].Receive? {
      HeardIn(c, StateAfter(c, log[..m]), log[m].datagram);
    }
  }

  // ------------------------------------------------------------------------
  // What acknowledges a chunk
  // ------------------------------------------------------------------------

  /** Event i of the run is an acknowledgement of chunk k, heard in the data phase when the chunk
      had been sent. */
  ghost predicate AcknowledgedBy(c: SenderConfig, log: Log, k: nat, i: nat)
    requires CanStart(c)
  {
    && i < |log| && log[i].Receive? && Acks(log[i].datagram, k)
    && PhaseAt(c, log, i) == Sending && k < StateAfter(c, log[..i]).window.next
  }

  ghost predicate Retired(s: SState, k: nat) {
    k < s.window.next && k !in s.window.unacked
  }

  lemma RetiredStep(c: SenderConfig, s: SState, e: Event, k: nat)
    requires CanStart(c) && SenderInv(c, s) && Enabled(c, s, e)
    ensures var t := Apply(c, s, e);
            Retired(t, k) <==>
            Retired(s, k) || (e.Receive? && s.phase == Sending && Acks(e.datagram, k) && k < s.window.next)
  {
    hide Serializer.Decode, Total, TimersCover, AttemptsCounted, ControlsCounted, Acked;
    if e.Receive? && s.phase == Sending && Serializer.Decode(e.datagram).Ok? {
      AckedWellFormed(s.window, Serializer.Decode(e.datagram).value.header.acknowledgementNumber);
    }
  }

  /** In every run the chunks that count as acknowledged are exactly those for which an ACK was
      heard in the data phase after they had been sent. */
  lemma {:induction false} AcknowledgedExactly(c: SenderConfig, log: Log, k: nat)
    requires CanStart(c) && IsRun(c, log)
    ensures Retired(StateAfter(c, log), k) <==> exists i: nat :: AcknowledgedBy(c, log, k, i)
    decreases |log|
  {
    hide Enabled, Apply, SenderInv, Initial, Retired, Acks, StateAfter;
    if log == [] {
      NothingRetired(c, k);
    } else {
      var m := |log| - 1;
      var front := log[..m];
      assert log[..m + 1] == log;
      RunStepAt(c, log, m);
      AcknowledgedExactly(c, front, k);
      RetiredStep(c, StateAfter(c, front), log[m], k);
      forall i: nat ensures AcknowledgedBy(c, front, k, i) <==> i < m && AcknowledgedBy(c, log, k, i) {
        if i < m {
          assert front[..i] == log[..i];
        }
      }
      if exists i: nat :: AcknowledgedBy(c, log, k, i) {
        var i: nat :| AcknowledgedBy(c, log, k, i);
        assert i < m ==> AcknowledgedBy(c, front, k, i);
      }
      if Retired(StateAfter(c, log), k) && !Retired(StateAfter(c, front), k) {
        assert AcknowledgedBy(c, log, k, m);
      }
    }
  }

  lemma NothingRetired(c: SenderConfig, k: nat)
    requires CanStart(c)
    ensures !Retired(StateAfter(c, []), k)
  {
  }

  // ------------------------------------------------------------------------
  // When a chunk is sent again
  // ------------------------------------------------------------------------

  /** Event i of the run is the last transmission of chunk k. */
  ghost predicate LastSent(log: Log, k: nat, i: nat) {
    i < |log| && Transmits(log[i], k) && forall j :: i < j < |log| ==> !Transmits(log[j], k)
  }

  lemma TimerStep(c: SenderConfig, s: SState, e: Event, k: nat)
    requires CanStart(c) && SenderInv(c, s) && Enabled(c, s, e) && k in Apply(c, s, e).window.armed
    ensures if Transmits(e, k) then Apply(c, s, e).window.armed[k] == e.now + c.rto
            else k in s.window.armed && Apply(c, s, e).window.armed[k] == s.window.armed[k]
  {
    hide Serializer.Decode, Total, AttemptsCounted, ControlsCounted, SenderWindows.WellFormed, Acked;
    assert e.Resend? ==> e.k in Elements(s.due);
    if e.Receive? && Serializer.Decode(e.datagram).Ok? {
      AckedFields(s.window, Serializer.Decode(e.datagram).value.header.acknowledgementNumber);
    }
  }

  /** A running timer ends one timeout after its chunk's last transmission. */
  lemma {:induction false} TimerIsTimeout(c: SenderConfig, log: Log, k: nat) returns (i: nat)
    requires CanStart(c) && IsRun(c, log) && k in StateAfter(c, log).window.armed
    ensures LastSent(log, k, i)
    ensures StateAfter(c, log).window.armed[k] == log[i].now + c.rto
    decreases |log|
  {
    hide Enabled, Apply, SenderInv, Transmits;
    var m := |log| - 1;
    var front := log[..m];
    assert log[..m + 1] == log;
    RunStepAt(c, log, m);
    TimerStep(c, StateAfter(c, front), log[m], k);
    if Transmits(log[m], k) {
      i := m;
    } else {
      i := TimerIsTimeout(c, front, k);
    }
  }

  function Stamp(e: Event): Time {
    if e.SendChunk? || e.Resend? then e.now else 0
  }

  /** The last transmission of chunk k was at this time. */
  ghost predicate LastSentAt(log: Log, k: nat, time: Time) {
    exists i: nat :: LastSent(log, k, i) && Stamp(log[i]) == time
  }

  ghost predicate Overdue(c: SenderConfig, log: Log, k: nat, now: Time) {
    exists time :: LastSentAt(log, k, time) && time + c.rto <= now
  }

  lemma OneLastSent(log: Log, k: nat, x: nat, y: nat)
    requires LastSent(log, k, x) && LastSent(log, k, y)
    ensures x == y
  {
    hide Transmits;
  }

  lemma LookStep(c: SenderConfig, s: SState, e: Event)
    requires CanStart(c) && SenderInv(c, s) && Enabled(c, s, e) && e.Expire?
    ensures s.window.armed.Keys == s.window.unacked
    ensures IsExpiry(s.window, e.now, e.expired, e.after)
  {
    hide Total, AttemptsCounted, ControlsCounted, SenderWindows.WellFormed, IsExpiry;
  }

  /** A look at the timers finds exactly the chunks not acknowledged that went out for the last
      time at least one timeout ago, those that went out first in front. */
  lemma LookExactly(c: SenderConfig, log: Log, i: nat)
    requires CanStart(c) && IsRun(c, log) && i < |log| && log[i].Expire?
    ensures forall k: nat :: k in log[i].expired <==>
              k in StateAfter(c, log[..i]).window.unacked && Overdue(c, log[..i], k, log[i].now)
    ensures forall a, b, x, y | 0 <= a < b < |log[i].expired| &&
                                LastSentAt(log[..i], log[i].expired[a], x) &&
                                LastSentAt(log[..i], log[i].expired[b], y) :: x <= y
  {
    hide Enabled, Apply, SenderInv, LastSentAt, StateAfter;
    RunStepAt(c, log, i);
    var front := log[..i];
    var s := StateAfter(c, front);
    LookStep(c, s, log[i]);
    forall k: nat | k in s.window.unacked
      ensures Overdue(c, front, k, log[i].now) <==> s.window.armed[k] <= log[i].now
      ensures forall time :: LastSentAt(front, k, time) <==> time + c.rto == s.window.armed[k]
    {
      SentIsTimer(c, front, k);
      assert LastSentAt(front, k, s.window.armed[k] - c.rto);
    }
  }

  lemma SentIsTimer(c: SenderConfig, log: Log, k: nat)
    requires CanStart(c) && IsRun(c, log) && k in StateAfter(c, log).window.armed
    ensures forall time :: LastSentAt(log, k, time) <==> time + c.rto == StateAfter(c, log).window.armed[k]
  {
    hide IsRun, StateAfter, LastSent;
    var y := TimerIsTimeout(c, log, k);
    SentIsStamped(log, k, y);
    forall x: nat | LastSent(log, k, x) ensures x == y {
      OneLastSent(log, k, x, y);
    }
  }

  lemma SentIsStamped(log: Log, k: nat, x: nat)
    requires LastSent(log, k, x)
    ensures x < |log| && (log[x].SendChunk? || log[x].Resend?)
  {
  }

  /** The chunks resent since event i. */
  function ResentSince(log: Log, i: nat): seq<nat>
    requires i <= |log|
    decreases |log|
  {
    if i == |log| then []
    else
      var m := |log| - 1;
      ResentSince(log[..m], i) + (if log[m].Resend? then [log[m].k] else [])
  }

  /** The last look at the timers. */
  predicate LastLook(log: Log, i: nat) {
    i < |log| && log[i].Expire? && forall j :: i < j < |log| ==> !log[j].Expire?
  }

  lemma DueStep(c: SenderConfig, s: SState, e: Event)
    requires CanStart(c) && Enabled(c, s, e) && !e.Expire?
    ensures s.due == (if e.Resend? then [e.k] else []) + Apply(c, s, e).due
  {
    hide Serializer.Decode, Total;
  }

  /** What a look at the timers finds expired is resent from the first to the last, in the order
      of the deadlines, and nothing else is. */
  lemma {:induction false} ResentInOrder(c: SenderConfig, log: Log, i: nat)
    requires CanStart(c) && IsRun(c, log) && LastLook(log, i)
    ensures log[i].expired == ResentSince(log, i + 1) + StateAfter(c, log).due
    decreases |log|
  {
    hide Enabled, Apply, SenderInv;
    var m := |log| - 1;
    var front := log[..m];
    assert log[..m + 1] == log;
    RunStepAt(c, log, m);
    if i == m {
      LookFinds(c, StateAfter(c, front), log[m]);
    } else {
      ResentInOrder(c, front, i);
      DueStep(c, StateAfter(c, front), log[m]);
    }
  }

  lemma LookFinds(c: SenderConfig, s: SState, e: Event)
    requires CanStart(c) && e.Expire?
    ensures Apply(c, s, e).due == e.expired
  {
  }

  // ------------------------------------------------------------------------
  // The rounds of the data phase
  // ------------------------------------------------------------------------

  /** Event i is a wait of the data phase: a datagram heard there, or none. */
  ghost predicate Waits(c: SenderConfig, log: Log, i: nat)
    requires CanStart(c)
  {
    i < |log| && PhaseAt(c, log, i) == Sending && (log[i].Receive? || log[i].TimedOut?)
  }

  lemma WaitingStep(c: SenderConfig, s: SState, e: Event)
    requires CanStart(c) && SenderInv(c, s) && Enabled(c, s, e) && s.phase == Sending
    ensures e.Receive? || e.TimedOut? ==>
              && !s.waited && s.due == [] && Apply(c, s, e).waited && s.window.unacked != {}
              && s.window.next == (var end := s.window.base + (if c.windowSize == 0 then 1 else c.windowSize);
                                   if end < Total(c) then end else Total(c))
    ensures e.Expire? ==> s.waited
    ensures s.waited ==> e.Expire? || e.Abort?
    ensures !e.Receive? && !e.TimedOut? ==> !Apply(c, s, e).waited || e.Abort?
  {
    hide Serializer.Decode, Total, TimersCover, AttemptsCounted, ControlsCounted, Acked;
    BaseIsLeast(s.window);
  }

  /** The data phase waits only with the window filled to its size or with every chunk sent, and
      something unacknowledged; and the next thing it does is look at the timers. */
  lemma OneWaitPerRound(c: SenderConfig, log: Log, i: nat)
    requires CanStart(c) && IsRun(c, log) && Waits(c, log, i)
    ensures var s := StateAfter(c, log[..i]);
            && s.window.unacked != {}
            && s.window.next == (var end := s.window.base + (if c.windowSize == 0 then 1 else c.windowSize);
                                 if end < Total(c) then end else Total(c))
    ensures i + 1 < |log| ==> log[i + 1].Expire? || log[i + 1].Abort?
  {
    hide Enabled, Apply, SenderInv, StateAfter, Total;
    RunStepAt(c, log, i);
    WaitingStep(c, StateAfter(c, log[..i]), log[i]);
    if i + 1 < |log| {
      RunStepAt(c, log, i + 1);
      StillSending(c, StateAfter(c, log[..i]), log[i]);
      WaitingStep(c, StateAfter(c, log[..i + 1]), log[i + 1]);
    }
  }

  lemma StillSending(c: SenderConfig, s: SState, e: Event)
    requires CanStart(c) && s.phase == Sending && (e.Receive? || e.TimedOut?)
    ensures Apply(c, s, e).phase == Sending
  {
    hide Serializer.Decode, Acked;
  }

  ghost predicate Waiting(c: SenderConfig, log: Log)
    requires CanStart(c)
  {
    log != [] && Waits(c, log, |log| - 1)
  }

  lemma {:induction false} WaitedIsWait(c: SenderConfig, log: Log)
    requires CanStart(c) && IsRun(c, log) && StateAfter(c, log).phase == Sending && StateAfter(c, log).waited
    ensures Waiting(c, log)
  {
    hide Enabled, Apply, SenderInv;
    var m := |log| - 1;
    assert log[..m + 1] == log;
    RunStepAt(c, log, m);
    WaitedBy(c, StateAfter(c, log[..m]), log[m]);
  }

  lemma WaitedBy(c: SenderConfig, s: SState, e: Event)
    requires CanStart(c) && SenderInv(c, s) && Enabled(c, s, e)
    requires Apply(c, s, e).phase == Sending && Apply(c, s, e).waited
    ensures s.phase == Sending && (e.Receive? || e.TimedOut?)
  {
    hide Serializer.Decode, Total, TimersCover, AttemptsCounted, ControlsCounted, Acked, SenderWindows.WellFormed;
  }

  /** And it looks at the timers only after a wait. */
  lemma LookAfterWait(c: SenderConfig, log: Log, i: nat)
    requires CanStart(c) && IsRun(c, log) && i < |log| && log[i].Expire?
    ensures i > 0 && Waits(c, log, i - 1)
  {
    hide Apply, SenderInv, StateAfter;
    RunStepAt(c, log, i);
    WaitedIsWait(c, log[..i]);
    assert log[..i][..i - 1] == log[..i - 1];
  }
}
