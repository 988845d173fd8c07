/** Whole runs of the sending machine: retry budgets, packet accounting, and what has been
    acknowledged when FIN goes out. */
module SenderRuns {
  import opened Common
  import opened SenderWindows
  import opened Sessions
  import opened Senders

  type Log = seq<Event>

  function StateAfter(c: SenderConfig, log: Log): SState
    requires CanStart(c)
  {
    if log == [] then Initial(c)
    else Apply(c, StateAfter(c, log[..|log| - 1]), log[|log| - 1])
  }

  ghost predicate IsRun(c: SenderConfig, log: Log)
    requires CanStart(c)
  {
    log == [] ||
    (IsRun(c, log[..|log| - 1]) && Enabled(c, StateAfter(c, log[..|log| - 1]), log[|log| - 1]))
  }

  /** The datagrams handed to the socket, in order. */
  function Outgoing(c: SenderConfig, log: Log): seq<seq<byte>>
    requires CanStart(c)
  {
    if log == [] then []
    else
      var front := log[..|log| - 1];
      match Emitted(c, StateAfter(c, front), log[|log| - 1])
      case Some(wire) => Outgoing(c, front) + [wire]
      case None => Outgoing(c, front)
  }

  /** The datagrams taken from the socket, in order. */
  function Heard(log: Log): seq<seq<byte>> {
    if log == [] then []
    else
      var front := log[..|log| - 1];
      match log[|log| - 1]
      case Receive(d) => Heard(front) + [d]
      case _ => Heard(front)
  }

  lemma Snoc(c: SenderConfig, log: Log, e: Event)
    requires CanStart(c)
    ensures StateAfter(c, log + [e]) == Apply(c, StateAfter(c, log), e)
    ensures IsRun(c, log + [e]) <==> IsRun(c, log) && Enabled(c, StateAfter(c, log), e)
    ensures Outgoing(c, log + [e]) ==
            match Emitted(c, StateAfter(c, log), e)
            case Some(wire) => Outgoing(c, log) + [wire]
            case None => Outgoing(c, log)
    ensures Heard(log + [e]) == Heard(log) + (if e.Receive? then [e.datagram] else [])
  {
    hide Apply, Enabled, Emitted, Initial;
    assert (log + [e])[..|log|] == log;
  }

  lemma {:induction false} RunInv(c: SenderConfig, log: Log)
    requires CanStart(c) && IsRun(c, log)
    ensures SenderInv(c, StateAfter(c, log))
    decreases |log|
  {
    hide Apply, Enabled, SenderInv, Initial;
    if log == [] {
      InitialInv(c);
    } else {
      var front := log[..|log| - 1];
      RunInv(c, front);
      StepKeepsInv(c, StateAfter(c, front), log[|log| - 1]);
    }
  }

  // ------------------------------------------------------------------------
  // At the head of the main loop
  // ------------------------------------------------------------------------

  /** With the window filled and chunks still unacknowledged there is always a running timer:
      every outstanding packet has exactly one. */
  lemma DeadlineExists(c: SenderConfig, log: Log)
    requires CanStart(c) && IsRun(c, log)
    requires AtWait(c, StateAfter(c, log))
    ensures var s := StateAfter(c, log);
            && s.window.armed.Keys == s.window.unacked
            && s.window.base in s.window.armed
  {
    RunInv(c, log);
  }

  /** FIN is sent only after every chunk of the file has been sent and acknowledged. */
  lemma FinMeansAcknowledged(c: SenderConfig, log: Log)
    requires CanStart(c) && IsRun(c, log)
    requires StateAfter(c, log).phase in {Finishing, Ended(NoError)}
    ensures var s := StateAfter(c, log);
            && s.window.unacked == {}
            && forall k: nat :: k < Total(c) <==> k in s.attempts
  {
    RunInv(c, log);
    BaseIsLeast(StateAfter(c, log).window);
  }

  // ------------------------------------------------------------------------
  // Counting transmissions
  // ------------------------------------------------------------------------

  predicate Transmits(e: Event, k: nat) {
    (e.SendChunk? && e.k == k) || (e.Resend? && e.k == k)
  }

  function TransmissionsOf(log: Log, k: nat): nat {
    if log == [] then 0
    else TransmissionsOf(log[..|log| - 1], k) + (if Transmits(log[|log| - 1], k) then 1 else 0)
  }

  function AttemptsOf(s: SState, k: nat): nat {
    if k in s.attempts then s.attempts[k] else 0
  }

  lemma AttemptStep(c: SenderConfig, s: SState, e: Event, k: nat)
    requires CanStart(c) && SenderInv(c, s) && Enabled(c, s, e)
    ensures AttemptsOf(Apply(c, s, e), k) == AttemptsOf(s, k) + (if Transmits(e, k) then 1 else 0)
  {
    hide SenderWindows.WellFormed, TimersCover, ControlsCounted, Total, Sent, Acked, Rescheduled;
  }

  lemma {:induction false} AttemptsAreTransmissions(c: SenderConfig, log: Log, k: nat)
    requires CanStart(c) && IsRun(c, log)
    ensures AttemptsOf(StateAfter(c, log), k) == TransmissionsOf(log, k)
    decreases |log|
  {
    hide Apply, Enabled, SenderInv, Transmits;
    if log != [] {
      var front := log[..|log| - 1];
      AttemptsAreTransmissions(c, front, k);
      RunInv(c, front);
      AttemptStep(c, StateAfter(c, front), log[|log| - 1], k);
    }
  }

  /** No chunk is transmitted more often than its budget allows, in any run. */
  lemma RetryBudget(c: SenderConfig, log: Log, k: nat)
    requires CanStart(c) && IsRun(c, log)
    ensures TransmissionsOf(log, k) <= Budget(c)
  {
    RunInv(c, log);
    AttemptsAreTransmissions(c, log, k);
  }

  /** Every datagram is counted: those sent equal the retransmissions plus the distinct
      packets, which on success are all chunks, START and FIN. */
  lemma PacketAccounting(c: SenderConfig, log: Log)
    requires CanStart(c) && IsRun(c, log)
    ensures var s := StateAfter(c, log);
            && s.packetsSent == |Outgoing(c, log)|
            && s.packetsSent == s.retransmissions + s.controls + s.window.next
            && (s.phase == Ended(NoError) ==> s.packetsSent == s.retransmissions + Total(c) + 2)
  {
    RunInv(c, log);
    OutgoingCounted(c, log);
  }

  lemma EmittedCounted(c: SenderConfig, s: SState, e: Event)
    requires CanStart(c) && SenderInv(c, s) && Enabled(c, s, e)
    ensures Apply(c, s, e).packetsSent == s.packetsSent + (if Emitted(c, s, e).Some? then 1 else 0)
  {
    EmittedKind(c, s, e);
    hide SenderInv, Sent, Acked, Rescheduled, Emitted;
  }

  lemma {:induction false} OutgoingCounted(c: SenderConfig, log: Log)
    requires CanStart(c) && IsRun(c, log)
    ensures StateAfter(c, log).packetsSent == |Outgoing(c, log)|
    decreases |log|
  {
    hide Apply, Enabled, SenderInv, Emitted;
    if log != [] {
      var front := log[..|log| - 1];
      OutgoingCounted(c, front);
      RunInv(c, front);
      EmittedCounted(c, StateAfter(c, front), log[|log| - 1]);
    }
  }

  // ------------------------------------------------------------------------
  // A transfer cannot send for ever
  // ------------------------------------------------------------------------

  function ChunkSends(log: Log, n: nat): nat {
    if n == 0 then 0 else ChunkSends(log, n - 1) + TransmissionsOf(log, n - 1)
  }

  /** The step sends the control packet of this phase: START while starting, FIN while
      finishing. */
  predicate SendsControl(s: SState, e: Event, phase: Phase) {
    e.SendControl? && s.phase == phase
  }

  /** How often the control packet of this phase has been sent. */
  function ControlSends(c: SenderConfig, log: Log, phase: Phase): nat
    requires CanStart(c)
  {
    if log == [] then 0
    else
      var front := log[..|log| - 1];
      ControlSends(c, front, phase) + (if SendsControl(StateAfter(c, front), log[|log| - 1], phase) then 1 else 0)
  }

  lemma {:induction false} ChunkSendsStep(log: Log, e: Event, n: nat)
    ensures ChunkSends(log + [e], n) ==
            ChunkSends(log, n) + (if (e.SendChunk? || e.Resend?) && e.k < n then 1 else 0)
    decreases n
  {
    assert (log + [e])[..|log|] == log;
    if n > 0 {
      ChunkSendsStep(log, e, n - 1);
    }
  }

  /** START and FIN packets sent so far: each within one exchange, and in the exchange itself
      as many as there were tries. */
  ghost predicate ControlBound(c: SenderConfig, s: SState, starts: nat, fins: nat) {
    && starts <= Exchange(c) && fins <= Exchange(c)
    && (s.phase == Starting ==> starts == s.tries && fins == 0)
    && (s.phase == Sending ==> fins == 0)
    && (s.phase == Finishing ==> fins == s.tries)
  }

  /** How often one control packet may be sent. */
  function Exchange(c: SenderConfig): nat {
    if c.maxRetries < 0 then 0 else c.maxRetries + 1
  }

  lemma ControlBoundStep(c: SenderConfig, s: SState, e: Event, starts: nat, fins: nat)
    requires CanStart(c) && Enabled(c, s, e) && ControlsCounted(c, s) && ControlBound(c, s, starts, fins)
    ensures ControlBound(c, Apply(c, s, e), starts + (if SendsControl(s, e, Starting) then 1 else 0),
                         fins + (if SendsControl(s, e, Finishing) then 1 else 0))
  {
    hide Serializer.Decode, Total;
  }

  /** A run of any length sends at most two exchanges of control packets and one budget for
      each chunk. */
  lemma SendBound(c: SenderConfig, log: Log)
    requires CanStart(c) && IsRun(c, log)
    ensures |Outgoing(c, log)| <= 2 * Exchange(c) + Total(c) * Budget(c)
  {
    SendsAreBounded(c, log);
    hide Total, Exchange, Budget, Outgoing, StateAfter;
  }

  /** Every transmission is of a chunk, of START or of FIN, and START and FIN each go out no
      more than `Exchange` times. */
  lemma {:induction false} SendsAreBounded(c: SenderConfig, log: Log)
    requires CanStart(c) && IsRun(c, log)
    ensures |Outgoing(c, log)| ==
            ControlSends(c, log, Starting) + ControlSends(c, log, Finishing) + ChunkSends(log, Total(c))
    ensures ControlBound(c, StateAfter(c, log), ControlSends(c, log, Starting), ControlSends(c, log, Finishing))
    ensures ChunkSends(log, Total(c)) <= Total(c) * Budget(c)
    decreases |log|
  {
    hide Apply, Enabled, SenderInv, Emitted, Total, ControlBound, Budget;
    ChunkSendsBounded(c, log, Total(c));
    if log == [] {
      NothingSent(Total(c));
      StartBound(c);
    } else {
      var front := log[..|log| - 1];
      var e := log[|log| - 1];
      var s := StateAfter(c, front);
      SendsAreBounded(c, front);
      RunInv(c, front);
      InvControls(c, s);
      ControlBoundStep(c, s, e, ControlSends(c, front, Starting), ControlSends(c, front, Finishing));
      if e.SendControl? {
        ControlInPhase(c, s, e);
      }
      assert log == front + [e];
      ChunkSendsStep(front, e, Total(c));
      EmittedKind(c, s, e);
    }
  }

  lemma InvControls(c: SenderConfig, s: SState)
    requires CanStart(c) && SenderInv(c, s)
    ensures ControlsCounted(c, s)
  {
  }

  lemma StartBound(c: SenderConfig)
    ensures ControlBound(c, Initial(c), 0, 0)
  {
  }

  lemma ControlInPhase(c: SenderConfig, s: SState, e: Event)
    requires CanStart(c) && Enabled(c, s, e) && e.SendControl?
    ensures s.phase == Starting || s.phase == Finishing
  {
  }

  lemma {:induction false} NothingSent(n: nat)
    ensures ChunkSends([], n) == 0
  {
    if n > 0 {
      NothingSent(n - 1);
    }
  }

  lemma EmittedKind(c: SenderConfig, s: SState, e: Event)
    requires CanStart(c) && SenderInv(c, s) && Enabled(c, s, e)
    ensures Emitted(c, s, e).Some? <==> e.SendControl? || e.SendChunk? || e.Resend?
    ensures e.SendChunk? || e.Resend? ==> e.k < Total(c)
  {
    if e.Resend? {
      assert e.k in Elements(s.due);
    }
  }

  lemma {:induction false} ChunkSendsBounded(c: SenderConfig, log: Log, n: nat)
    requires CanStart(c) && IsRun(c, log)
    ensures ChunkSends(log, n) <= n * Budget(c)
    decreases n
  {
    hide Budget, IsRun;
    if n > 0 {
      ChunkSendsBounded(c, log, n - 1);
      RetryBudget(c, log, n - 1);
      assert n * Budget(c) == (n - 1) * Budget(c) + Budget(c);
    }
  }

  // ------------------------------------------------------------------------
  // A transfer cannot be busy for ever
  // ------------------------------------------------------------------------

  /** The event sends a datagram, retires a packet, or finds a timer expired. */
  predicate Works(c: SenderConfig, s: SState, e: Event)
    requires CanStart(c)
  {
    Emitted(c, s, e).Some? || (e.Receive? && Apply(c, s, e).window != s.window) || (e.Expire? && e.expired != [])
  }

  function WorkOf(c: SenderConfig, log: Log): nat
    requires CanStart(c)
  {
    if log == [] then 0
    else
      var front := log[..|log| - 1];
      WorkOf(c, front) + (if Works(c, StateAfter(c, front), log[|log| - 1]) then 1 else 0)
  }

  /** Sends, retired packets and expired timers so far. */
  function Potential(s: SState): int {
    s.packetsSent + s.window.next - |s.window.unacked| + s.retransmissions + |s.due|
  }

  lemma AckedCounts(v: SView, k: nat)
    requires SenderWindows.WellFormed(v)
    ensures Acked(v, k).next == v.next
    ensures |Acked(v, k).unacked| == |v.unacked| - (if Acked(v, k) != v then 1 else 0)
  {
    hide Acked, SenderWindows.WellFormed;
    AckedWellFormed(v, k);
    if k in v.unacked {
      assert v.unacked == Acked(v, k).unacked + {k};
    }
  }

  lemma HearingWorks(c: SenderConfig, s: SState, d: seq<byte>)
    requires CanStart(c) && SenderInv(c, s)
    ensures var t := OnDatagram(c, s, d);
            Potential(t) == Potential(s) + (if t.window != s.window then 1 else 0)
  {
    hide Serializer.Decode, Total, SenderWindows.WellFormed, TimersCover, AttemptsCounted, ControlsCounted,
      Acked, NewView;
    if Serializer.Decode(d).Ok? {
      AckedCounts(s.window, Serializer.Decode(d).value.header.acknowledgementNumber);
    }
  }

  /** Whatever counts as work raises the potential, and nothing lowers it. */
  lemma WorkStep(c: SenderConfig, s: SState, e: Event)
    requires CanStart(c) && SenderInv(c, s) && Enabled(c, s, e)
    ensures Potential(Apply(c, s, e)) >= Potential(s) + (if Works(c, s, e) then 1 else 0)
  {
    hide Total, TimersCover, AttemptsCounted, ControlsCounted, OnDatagram, Wire, StartPacket, FinPacket,
      DataPacket;
    if e.Receive? {
      HearingWorks(c, s, e.datagram);
    }
  }

  lemma {:induction false} DistinctSize(xs: seq<nat>)
    requires Distinct(xs)
    ensures |Elements(xs)| == |xs|
    decreases |xs|
  {
    if xs != [] {
      var rest := xs[1..];
      DistinctSize(rest);
      assert Elements(xs) == Elements(rest) + {xs[0]};
    }
  }

  lemma PotentialBound(c: SenderConfig, s: SState)
    requires CanStart(c) && SenderInv(c, s)
    ensures Potential(s) <= 2 * s.packetsSent + Total(c)
  {
    hide Total, AttemptsCounted, ControlsCounted;
    DistinctSize(s.due);
    SubsetSize(Elements(s.due), s.window.unacked);
  }

  lemma {:induction false} WorkIsPotential(c: SenderConfig, log: Log)
    requires CanStart(c) && IsRun(c, log)
    ensures WorkOf(c, log) <= Potential(StateAfter(c, log))
    decreases |log|
  {
    hide Apply, Enabled, SenderInv, Emitted, Works, Potential, Initial;
    if log == [] {
      InitialPotential(c);
    } else {
      var front := log[..|log| - 1];
      WorkIsPotential(c, front);
      RunInv(c, front);
      WorkStep(c, StateAfter(c, front), log[|log| - 1]);
    }
  }

  lemma InitialPotential(c: SenderConfig)
    ensures Potential(Initial(c)) == 0
  {
  }

  /** However long a run is, only so many of its steps send, retire or expire anything; all
      others are waits that change nothing. */
  lemma WorkIsBounded(c: SenderConfig, log: Log)
    requires CanStart(c) && IsRun(c, log)
    ensures WorkOf(c, log) <= 2 * (2 * Exchange(c) + Total(c) * Budget(c)) + Total(c)
  {
    hide Total, Exchange, Budget, Outgoing, StateAfter, WorkOf, SenderInv, Potential, IsRun;
    RunInv(c, log);
    WorkIsPotential(c, log);
    PotentialBound(c, StateAfter(c, log));
    SendBound(c, log);
    PacketAccounting(c, log);
  }
}
