/** The retry budgets are exact: there are runs that use them up. */
module RetriesAttained {
  import opened Common
  import opened Packets
  import opened SenderWindows
  import opened Sessions
  import opened Senders
  import opened SenderRuns
  import opened RetryLimits
  import Serializer

  /** The log is a run that ends in this state. */
  ghost predicate LeadsTo(c: SenderConfig, log: Log, s: SState)
    requires CanStart(c)
  {
    IsRun(c, log) && StateAfter(c, log) == s
  }

  lemma OneStep(c: SenderConfig, log: Log, s: SState, e: Event)
    requires CanStart(c) && LeadsTo(c, log, s) && Enabled(c, s, e)
    ensures LeadsTo(c, log + [e], Apply(c, s, e))
  {
    hide IsRun, StateAfter, Enabled, Apply;
    Snoc(c, log, e);
  }

  lemma InvAt(c: SenderConfig, log: Log, s: SState)
    requires CanStart(c) && LeadsTo(c, log, s)
    ensures SenderInv(c, s)
  {
    hide IsRun, StateAfter, SenderInv;
    RunInv(c, log);
  }

  // ------------------------------------------------------------------------
  // Up to a chunk
  // ------------------------------------------------------------------------

  /** The handshake, answered at once. */
  lemma Opened(c: SenderConfig) returns (log: Log, s: SState)
    requires CanStart(c) && c.maxRetries >= 0
    ensures LeadsTo(c, log, s) && AtHead(s) && s.window == NewView(c.windowSize) && s.attempts == map[]
    ensures s.tries == 0
  {
    hide Serializer.Decode, Serializer.Encode, ReplyWire, Total, LeadsTo;
    var s0 := Initial(c);
    assert LeadsTo(c, [], s0) by { Nothing(c); }
    var s1 := Apply(c, s0, SendControl);
    OneStep(c, [], s0, SendControl);
    var d := ReplyWire(c, StartAck, 0);
    ReplyWireReads(c, StartAck, 0);
    s := Apply(c, s1, Receive(d));
    log := [] + [SendControl] + [Receive(d)];
    OneStep(c, [] + [SendControl], s1, Receive(d));
  }

  lemma Nothing(c: SenderConfig)
    requires CanStart(c)
    ensures LeadsTo(c, [], Initial(c))
  {
  }

  /** Every outstanding chunk has gone out `a` times, or once more if it is not waiting to be
      resent. */
  ghost predicate AllAt(s: SState, a: nat) {
    && s.phase == Sending && !s.waited
    && (forall k <- s.window.unacked :: k in s.attempts && s.attempts[k] == (if k in s.due then a else a + 1))
  }

  /** Between two rounds in which nothing has expired and nothing will before time passes. */
  ghost predicate Early(c: SenderConfig, s: SState) {
    && AllAt(s, 0) && s.due == [] && s.tries == 0
    && (c.rto > 0 ==> forall k <- s.window.armed :: s.window.armed[k] > s.clock)
  }

  predicate Filled(c: SenderConfig, s: SState)
    requires CanStart(c)
  {
    !(CanSend(s.window) && s.window.next < Total(c))
  }

  lemma SendEarly(c: SenderConfig, s: SState)
    requires CanStart(c) && SenderInv(c, s) && Early(c, s) && !Filled(c, s)
    ensures var e := SendChunk(s.window.next, s.clock);
            var t := Apply(c, s, e);
            && Enabled(c, s, e) && Early(c, t)
            && t.window.next == s.window.next + 1 && t.window.unacked == s.window.unacked + {s.window.next}
  {
    hide Total, ControlsCounted;
  }

  /** One chunk acknowledged, the clock standing still. */
  lemma AckEarly(c: SenderConfig, s: SState, j: nat)
    requires CanStart(c) && SenderInv(c, s) && Early(c, s) && AtWait(c, s) && j in s.window.unacked && c.rto > 0
    ensures j < TWO_32
    ensures var d := ReplyWire(c, Ack, j);
            var w := Apply(c, s, Receive(d));
            var e := Expire(s.clock, [], w.window);
            var t := Apply(c, w, e);
            && Enabled(c, s, Receive(d)) && Enabled(c, w, e) && Early(c, t)
            && t.window.next == s.window.next && t.window.unacked == s.window.unacked - {j}
  {
    hide Total, ControlsCounted, Serializer.Decode, Acked, ReplyWire;
    ReplyWireReads(c, Ack, j);
    AckedWellFormed(s.window, j);
    AckedFields(s.window, j);
    var w := Acked(s.window, j);
    assert w.(armed := w.armed - Elements([])) == w;
  }

  lemma FilledCases(c: SenderConfig, s: SState)
    requires CanStart(c) && SenderInv(c, s) && AtHead(s) && Filled(c, s)
    ensures s.window.next <= Total(c)
    ensures if s.window.unacked == {} then s.window.next == s.window.base == Total(c) else AtWait(c, s)
  {
    hide Total, ControlsCounted, AttemptsCounted;
    BaseIsLeast(s.window);
  }

  lemma SentInFile(c: SenderConfig, s: SState)
    requires CanStart(c) && SenderInv(c, s)
    ensures s.window.next <= Total(c)
  {
    hide Total;
  }

  lemma Retired(c: SenderConfig, log: Log, s: SState, j: nat) returns (log': Log, s': SState)
    requires CanStart(c) && LeadsTo(c, log, s) && Early(c, s) && AtWait(c, s) && j in s.window.unacked && c.rto > 0
    ensures LeadsTo(c, log', s') && Early(c, s')
    ensures s'.window.next == s.window.next && s'.window.unacked == s.window.unacked - {j}
  {
    hide LeadsTo, Total, SenderInv, Enabled, Apply, Early, AtWait, ReplyWire;
    InvAt(c, log, s);
    AckEarly(c, s, j);
    var d := ReplyWire(c, Ack, j);
    var w := Apply(c, s, Receive(d));
    var e := Expire(s.clock, [], w.window);
    OneStep(c, log, s, Receive(d));
    OneStep(c, log + [Receive(d)], w, e);
    log' := log + [Receive(d)] + [e];
    s' := Apply(c, w, e);
  }

  /** From an early state the sender can get to any chunk not yet sent, or to the end of the
      file, without a single timer running out. */
  lemma {:induction false} Advanced(c: SenderConfig, log: Log, s: SState, k: nat) returns (log': Log, s': SState)
    requires CanStart(c) && LeadsTo(c, log, s) && Early(c, s)
    requires k <= Total(c) && (k == 0 || c.rto > 0) && (k >= s.window.next || k in s.window.unacked)
    ensures LeadsTo(c, log', s') && Early(c, s') && Filled(c, s')
    ensures if k < Total(c) then k in s'.window.unacked else s'.window.unacked == {}
    decreases 2 * (Total(c) - s.window.next) + |s.window.unacked|
  {
    hide LeadsTo, Total, SenderInv, Enabled, Apply, Early, CanSend, AtWait;
    InvAt(c, log, s);
    SentInFile(c, s);
    EarlyAtHead(c, s);
    if !Filled(c, s) {
      var e := SendChunk(s.window.next, s.clock);
      SendEarly(c, s);
      OneStep(c, log, s, e);
      OneSentMore(s, Apply(c, s, e));
      log', s' := Advanced(c, log + [e], Apply(c, s, e), k);
    } else {
      FilledCases(c, s);
      if s.window.unacked == {} || (k < Total(c) && k in s.window.unacked) {
        log', s' := log, s;
      } else {
        var j :| j in s.window.unacked;
        assert k != 0 by { UnackedSent(c, s, j); }
        var log1, s1 := Retired(c, log, s, j);
        assert s.window.unacked == s1.window.unacked + {j};
        log', s' := Advanced(c, log1, s1, k);
      }
    }
  }

  lemma EarlyAtHead(c: SenderConfig, s: SState)
    requires Early(c, s)
    ensures AtHead(s)
  {
  }

  lemma OneSentMore(s: SState, t: SState)
    requires t.window.unacked == s.window.unacked + {s.window.next}
    ensures |t.window.unacked| <= |s.window.unacked| + 1
  {
    OneLess(t.window.unacked, s.window.unacked, s.window.next);
  }

  lemma UnackedSent(c: SenderConfig, s: SState, j: nat)
    requires CanStart(c) && SenderInv(c, s) && j in s.window.unacked
    ensures j < s.window.next
  {
    hide Total, ControlsCounted, AttemptsCounted, TimersCover;
  }

  // ------------------------------------------------------------------------
  // Rounds in which nothing is heard
  // ------------------------------------------------------------------------

  /** One by one, everything that is due goes out once more. */
  lemma {:induction false} AllResent(c: SenderConfig, log: Log, s: SState, a: nat) returns (log': Log, s': SState)
    requires CanStart(c) && LeadsTo(c, log, s) && AllAt(s, a) && a < c.maxRetries
    ensures LeadsTo(c, log', s') && AllAt(s', a) && s'.due == [] && SamePackets(s, s')
    ensures s'.window.base == s.window.base && s'.window.capacity == s.window.capacity
    decreases |s.due|
  {
    hide LeadsTo, Total;
    if s.due == [] {
      log', s' := log, s;
    } else {
      var e := Resend(s.due[0], s.clock);
      InvAt(c, log, s);
      ResendAllAt(c, s, a);
      OneStep(c, log, s, e);
      log', s' := AllResent(c, log + [e], Apply(c, s, e), a);
    }
  }

  lemma ResendAllAt(c: SenderConfig, s: SState, a: nat)
    requires CanStart(c) && SenderInv(c, s) && AllAt(s, a) && a < c.maxRetries && s.due != []
    ensures var e := Resend(s.due[0], s.clock);
            var t := Apply(c, s, e);
            && Enabled(c, s, e) && AllAt(t, a) && t.due == s.due[1..] && SamePackets(s, t)
            && t.window.base == s.window.base && t.window.capacity == s.window.capacity
  {
    hide Total, ControlsCounted, AttemptsCounted, SenderWindows.WellFormed;
    assert s.due[0] in Elements(s.due);
    assert s.due == [s.due[0]] + s.due[1..];
    assert forall k <- s.due[1..] :: k in s.due && k != s.due[0];
  }

  lemma {:induction false} LatestOfAll(armed: map<nat, Time>, clock: Time) returns (now: Time)
    ensures clock <= now && forall k <- armed :: armed[k] <= now
  {
    if armed == map[] {
      now := clock;
    } else {
      var m := Latest(armed, armed.Keys);
      now := if clock < armed[m] then armed[m] else clock;
    }
  }

  /** A wait in which nothing is heard and after which everything has expired. */
  lemma AllExpire(c: SenderConfig, s: SState, a: nat) returns (e: Event)
    requires CanStart(c) && SenderInv(c, s) && AllAt(s, a) && s.due == []
    ensures e.Expire?
    ensures var w := s.(waited := true);
            var t := Apply(c, w, e);
            && Enabled(c, w, e) && AllAt(t, a + 1) && SamePackets(s, t)
            && t.window.base == s.window.base && t.window.capacity == s.window.capacity
  {
    hide Total, ControlsCounted, AttemptsCounted, SenderWindows.WellFormed;
    var now := LatestOfAll(s.window.armed, s.clock);
    var expired := ExpiryExists(s.window, now);
    e := Expire(now, expired, s.window.(armed := s.window.armed - Elements(expired)));
    assert forall k: nat :: k in expired <==> k in Elements(expired);
    assert Elements([]) == {};
  }

  lemma {:induction false} Round(c: SenderConfig, log: Log, s: SState, a: nat) returns (log': Log, s': SState)
    requires CanStart(c) && LeadsTo(c, log, s) && AllAt(s, a) && s.due == [] && a + 1 < c.maxRetries
    requires s.window.unacked != {} && Filled(c, s)
    ensures LeadsTo(c, log', s') && AllAt(s', a + 1) && s'.due == []
    ensures s'.window.unacked == s.window.unacked && Filled(c, s')
  {
    hide LeadsTo, Total, SenderInv;
    InvAt(c, log, s);
    FilledCases(c, s);
    OneStep(c, log, s, Event.TimedOut);
    var w := s.(waited := true);
    var e := AllExpire(c, s, a);
    OneStep(c, log + [Event.TimedOut], w, e);
    log', s' := AllResent(c, log + [Event.TimedOut] + [e], Apply(c, w, e), a + 1);
  }

  lemma {:induction false} Rounds(c: SenderConfig, log: Log, s: SState, a: nat, k: nat) returns (log': Log, s': SState)
    requires CanStart(c) && LeadsTo(c, log, s) && AllAt(s, a) && s.due == [] && a + 1 <= Budget(c)
    requires k in s.window.unacked && Filled(c, s)
    ensures LeadsTo(c, log', s') && k in s'.attempts && s'.attempts[k] == Budget(c)
    decreases Budget(c) - a
  {
    hide LeadsTo, Total;
    if a + 1 == Budget(c) {
      log', s' := log, s;
    } else {
      var log1, s1 := Round(c, log, s, a);
      log', s' := Rounds(c, log1, s1, a + 1, k);
    }
  }

  /** Some run transmits this chunk as often as its budget allows: the bound on transmissions is
      exact for every chunk of every file, provided that timeouts lie ahead; without that it is
      for the first chunk. */
  lemma BudgetIsAttained(c: SenderConfig, k: nat)
    requires CanStart(c) && k < Total(c) && c.maxRetries >= 0 && (k == 0 || c.rto > 0)
    ensures exists log :: IsRun(c, log) && TransmissionsOf(log, k) == Budget(c)
  {
    hide Total, Budget;
    var log, s := Opened(c);
    var log1, s1 := Advanced(c, log, s, k);
    OneBudget(c);
    var log2, s2 := Rounds(c, log1, s1, 0, k);
    AttemptsAreTransmissions(c, log2, k);
  }

  lemma OneBudget(c: SenderConfig)
    ensures Budget(c) >= 1
  {
  }

  // ------------------------------------------------------------------------
  // Control packets
  // ------------------------------------------------------------------------

  /** An exchange that nobody answers. */
  lemma {:induction false} Unanswered(c: SenderConfig, log: Log, s: SState, n: nat) returns (log': Log)
    requires CanStart(c) && LeadsTo(c, log, s) && s.tries == 0 && n <= Exchange(c)
    requires s.phase == Starting || s.phase == Finishing
    ensures IsRun(c, log')
    ensures var t := StateAfter(c, log'); t.phase == s.phase && t.tries == n
    decreases n
  {
    if n == 0 {
      log' := log;
    } else {
      var before := Unanswered(c, log, s, n - 1);
      Snoc(c, before, SendControl);
      log' := before + [SendControl];
    }
  }

  /** Some run sends START as often as its exchange allows. */
  lemma StartExchangeIsAttained(c: SenderConfig)
    requires CanStart(c)
    ensures exists log :: IsRun(c, log) && ControlSends(c, log, Starting) == Exchange(c)
  {
    hide IsRun, ControlSends, Exchange, Total;
    Nothing(c);
    var log := Unanswered(c, [], Initial(c), Exchange(c));
    SendsAreBounded(c, log);
  }

  /** And some run sends FIN as often. */
  lemma FinExchangeIsAttained(c: SenderConfig)
    requires CanStart(c) && (Total(c) == 0 || c.rto > 0)
    ensures exists log :: IsRun(c, log) && ControlSends(c, log, Finishing) == Exchange(c)
  {
    hide IsRun, Total, LeadsTo;
    if c.maxRetries < 0 {
      assert IsRun(c, []) by { Nothing(c); NothingUnfolds(c); }
      assert ControlSends(c, [], Finishing) == Exchange(c);
    } else {
      var log, s := Opened(c);
      var log1, s1 := Advanced(c, log, s, Total(c));
      InvAt(c, log1, s1);
      FilledCases(c, s1);
      OneStep(c, log1, s1, AllAcknowledged);
      var log2 := Unanswered(c, log1 + [AllAcknowledged], Apply(c, s1, AllAcknowledged), Exchange(c));
      SendsAreBounded(c, log2);
    }
  }

  lemma NothingUnfolds(c: SenderConfig)
    requires CanStart(c)
    ensures IsRun(c, [])
  {
  }
}
