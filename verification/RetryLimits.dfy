/** When the sender can still succeed, as far as its own timers and budgets go, and the rounds
    that bring it forward while it can. */
module RetryLimits {
  import opened Common
  import opened SenderWindows
  import opened Sessions
  import opened Senders
  import Serializer

  // ------------------------------------------------------------------------
  // Timers in order
  // ------------------------------------------------------------------------

  function Due(v: SView, now: Time): set<nat> {
    set s | s in v.armed && v.armed[s] <= now
  }

  lemma {:induction false} Latest(armed: map<nat, Time>, xs: set<nat>) returns (m: nat)
    requires xs != {} && xs <= armed.Keys
    ensures m in xs && forall s <- xs :: armed[s] <= armed[m]
    decreases |xs|
  {
    var one :| one in xs;
    m := one;
    var rest := xs - {one};
    assert forall s <- xs :: s == one || s in rest;
    if rest != {} {
      var other := Latest(armed, rest);
      if armed[one] < armed[other] {
        m := other;
      }
    }
  }

  lemma {:induction false} InOrder(armed: map<nat, Time>, xs: set<nat>) returns (order: seq<nat>)
    requires xs <= armed.Keys
    ensures Elements(order) == xs && Distinct(order)
    ensures forall s <- order :: s in armed
    ensures forall i, j :: 0 <= i < j < |order| ==> armed[order[i]] <= armed[order[j]]
    decreases |xs|
  {
    if xs == {} {
      order := [];
    } else {
      var m := Latest(armed, xs);
      var rest := InOrder(armed, xs - {m});
      order := rest + [m];
      assert forall s <- rest :: s in Elements(rest);
      assert Elements(order) == Elements(rest) + {m};
    }
  }

  /** Whatever the clock says, the timers that are due can be listed. */
  lemma ExpiryExists(v: SView, now: Time) returns (expired: seq<nat>)
    ensures Elements(expired) == Due(v, now)
    ensures IsExpiry(v, now, expired, v.(armed := v.armed - Elements(expired)))
  {
    expired := InOrder(v.armed, Due(v, now));
    forall s: nat ensures s in expired <==> s in v.armed && v.armed[s] <= now {
      assert s in expired <==> s in Elements(expired);
    }
  }

  // ------------------------------------------------------------------------
  // When success is out of reach
  // ------------------------------------------------------------------------

  predicate Exhausted(c: SenderConfig, s: SState, k: nat) {
    k in s.attempts && s.attempts[k] >= c.maxRetries
  }

  /** Chunks whose timer has run out and whose transmissions are used up: nothing but their
      acknowledgement can save the transfer, and each round hears at most one datagram. */
  function Overdue(c: SenderConfig, s: SState): set<nat> {
    set k | k in Due(s.window, s.clock) && Exhausted(c, s, k)
  }

  function Chances(s: SState): nat {
    if s.waited then 0 else 1
  }

  /** The transfer has failed, or is bound to: an exhausted chunk is due, or more of them are
      overdue than can still be acknowledged before the timers are looked at. */
  predicate Doomed(c: SenderConfig, s: SState) {
    || (s.phase.Ended? && s.phase.result != NoError)
    || (s.phase == Sending && ((exists k <- s.due :: Exhausted(c, s, k)) || |Overdue(c, s)| > Chances(s)))
  }

  lemma DoomedHasNotSucceeded(c: SenderConfig, s: SState)
    requires Doomed(c, s)
    ensures s.phase != Ended(NoError)
  {
  }

  lemma OneLess(a: set<nat>, b: set<nat>, k: nat)
    requires a <= b + {k}
    ensures |a| <= |b| + 1
  {
    SubsetSize(a, b + {k});
    if k in b {
      assert b + {k} == b;
    }
  }

  /** Time passing, and packets being sent or resent, leave the overdue chunks overdue. */
  lemma OverdueStays(c: SenderConfig, s: SState, e: Event)
    requires CanStart(c) && SenderInv(c, s) && Enabled(c, s, e) && (e.SendChunk? || e.Resend?)
    ensures |Overdue(c, Apply(c, s, e))| >= |Overdue(c, s)|
  {
    hide SenderWindows.WellFormed, ControlsCounted, Total;
    var t := Apply(c, s, e);
    if e.Resend? {
      assert e.k in Elements(s.due);
    }
    forall k <- Overdue(c, s) ensures k in Overdue(c, t) {
      assert k in s.window.armed && k in s.window.unacked;
    }
    SubsetSize(Overdue(c, s), Overdue(c, t));
  }

  /** Hearing a datagram saves at most one. */
  lemma OverdueHeard(c: SenderConfig, s: SState, d: seq<byte>)
    requires CanStart(c) && s.phase == Sending
    ensures var t := OnDatagram(c, s, d);
            t.phase == Sending && t.waited && |Overdue(c, s)| <= |Overdue(c, t)| + 1
  {
    hide Serializer.Decode, Total, Acked;
    var t := OnDatagram(c, s, d);
    var k := if Serializer.Decode(d).Ok? then Serializer.Decode(d).value.header.acknowledgementNumber else 0;
    AckedFields(s.window, k);
    OneLess(Overdue(c, s), Overdue(c, t), k);
  }

  /** Looking at the timers makes an overdue chunk due. */
  lemma OverdueExpires(c: SenderConfig, s: SState, e: Event)
    requires CanStart(c) && Enabled(c, s, e) && e.Expire? && Overdue(c, s) != {}
    ensures exists k <- Apply(c, s, e).due :: Exhausted(c, Apply(c, s, e), k)
  {
    hide Total;
    var k :| k in Overdue(c, s);
    var t := Apply(c, s, e);
    assert k in e.expired;
    assert k in t.due && Exhausted(c, t, k);
  }

  lemma AcknowledgedLeavesNone(c: SenderConfig, s: SState)
    requires CanStart(c) && SenderInv(c, s) && s.window.base >= Total(c)
    ensures Overdue(c, s) == {}
  {
    hide Total, AttemptsCounted, ControlsCounted;
    BaseIsLeast(s.window);
  }

  lemma DueStaysExhausted(c: SenderConfig, s: SState, e: Event)
    requires CanStart(c) && SenderInv(c, s) && Enabled(c, s, e) && e.Resend?
    requires exists k <- s.due :: Exhausted(c, s, k)
    ensures exists k <- Apply(c, s, e).due :: Exhausted(c, Apply(c, s, e), k)
  {
    hide Total, SenderWindows.WellFormed, ControlsCounted, AttemptsCounted;
    var k :| k in s.due && Exhausted(c, s, k);
    var t := Apply(c, s, e);
    assert k in t.due && Exhausted(c, t, k);
  }

  /** No step of the sender leads out of it. */
  lemma DoomedEvent(c: SenderConfig, s: SState, e: Event)
    requires CanStart(c) && SenderInv(c, s) && Enabled(c, s, e) && Doomed(c, s)
    ensures Doomed(c, Apply(c, s, e))
  {
    hide Total, SenderWindows.WellFormed, ControlsCounted, AttemptsCounted, OnDatagram, Overdue, Exhausted, TimersCover,
      IsExpiry;
    match e
    case Receive(d) => OverdueHeard(c, s, d);
    case Expire(_, _, _) => OverdueExpires(c, s, e);
    case SendChunk(_, _) => OverdueStays(c, s, e);
    case Resend(_, _) =>
      OverdueStays(c, s, e);
      if exists k <- s.due :: Exhausted(c, s, k) {
        DueStaysExhausted(c, s, e);
      }
    case AllAcknowledged => AcknowledgedLeavesNone(c, s);
    case TimedOut => SameOverdue(c, s);
    case _ =>
  }

  lemma SameOverdue(c: SenderConfig, s: SState)
    ensures Overdue(c, s.(waited := true)) == Overdue(c, s)
  {
  }

  // ------------------------------------------------------------------------
  // Rounds that bring the sender forward while it is not
  // ------------------------------------------------------------------------

  ghost predicate Hopeful(c: SenderConfig, s: SState)
    requires CanStart(c)
  {
    SenderInv(c, s) && s.phase == Sending && !Doomed(c, s)
  }

  /** The same packets are outstanding. */
  predicate SamePackets(s: SState, t: SState) {
    t.window.unacked == s.window.unacked && t.window.next == s.window.next
  }

  lemma ResendHopeful(c: SenderConfig, s: SState)
    requires CanStart(c) && Hopeful(c, s) && s.due != [] && c.rto > 0
    ensures var e := Resend(s.due[0], s.clock);
            var t := Apply(c, s, e);
            && Enabled(c, s, e) && Hopeful(c, t)
            && t.due == s.due[1..] && !t.waited && SamePackets(s, t)
  {
    hide ControlsCounted, Total, Overdue;
    assert s.due[0] in Elements(s.due) && s.due[0] in s.attempts && !Exhausted(c, s, s.due[0]);
    var e := Resend(s.due[0], s.clock);
    var t := Apply(c, s, e);
    StepKeepsInv(c, s, e);
    assert forall k <- s.due[1..] :: k in s.due && k != s.due[0];
    ResendOverdue(c, s);
  }

  lemma ResendOverdue(c: SenderConfig, s: SState)
    requires CanStart(c) && SenderInv(c, s) && s.due != [] && c.rto > 0
    ensures Overdue(c, Apply(c, s, Resend(s.due[0], s.clock))) == Overdue(c, s)
  {
    hide SenderWindows.WellFormed, ControlsCounted, Total, AttemptsCounted;
    assert s.due[0] in Elements(s.due);
  }

  lemma ExpireHopeful(c: SenderConfig, s: SState) returns (e: Event)
    requires CanStart(c) && Hopeful(c, s) && s.waited
    ensures e.Expire? && Enabled(c, s, e)
    ensures var t := Apply(c, s, e); Hopeful(c, t) && !t.waited && SamePackets(s, t)
  {
    hide SenderInv, SenderWindows.WellFormed, Total;
    var expired := ExpiryExists(s.window, s.clock);
    e := Expire(s.clock, expired, s.window.(armed := s.window.armed - Elements(expired)));
    StepKeepsInv(c, s, e);
    var t := Apply(c, s, e);
    assert Overdue(c, s) == {};
    forall k <- t.due ensures !Exhausted(c, t, k) {
      assert k in Elements(expired);
      assert k !in Overdue(c, s);
    }
    assert Overdue(c, t) == {};
  }

  lemma SendHopeful(c: SenderConfig, s: SState)
    requires CanStart(c) && Hopeful(c, s) && c.rto > 0
    requires AtHead(s) && CanSend(s.window) && s.window.next < Total(c)
    ensures var e := SendChunk(s.window.next, s.clock);
            var t := Apply(c, s, e);
            && Enabled(c, s, e) && Hopeful(c, t) && AtHead(t)
            && t.window.next == s.window.next + 1 && t.window.unacked == s.window.unacked + {s.window.next}
  {
    hide ControlsCounted, Total;
    var e := SendChunk(s.window.next, s.clock);
    StepKeepsInv(c, s, e);
    assert Overdue(c, Apply(c, s, e)) == Overdue(c, s);
  }

  /** With the window filled, either everything is acknowledged or the sender waits. */
  lemma FilledWaits(c: SenderConfig, s: SState)
    requires CanStart(c) && Hopeful(c, s) && AtHead(s) && !(CanSend(s.window) && s.window.next < Total(c))
    ensures if s.window.unacked == {} then Enabled(c, s, AllAcknowledged) else AtWait(c, s)
  {
    hide Total, ControlsCounted, AttemptsCounted, Overdue;
    BaseIsLeast(s.window);
  }

  /** The chunk to acknowledge first: the one that is overdue and exhausted, if there is one. */
  lemma MostUrgent(c: SenderConfig, s: SState) returns (k: nat)
    requires CanStart(c) && Hopeful(c, s) && AtWait(c, s) && s.window.unacked != {}
    ensures k in s.window.unacked && Overdue(c, s) <= {k}
  {
    hide Total, ControlsCounted, AttemptsCounted;
    if Overdue(c, s) == {} {
      k :| k in s.window.unacked;
    } else {
      k :| k in Overdue(c, s);
      OneLess({k}, Overdue(c, s) - {k}, k);
      forall j <- Overdue(c, s) ensures j == k {
        SubsetSize({j, k}, Overdue(c, s));
      }
    }
  }

  lemma AckedHopeful(c: SenderConfig, s: SState, k: nat)
    requires CanStart(c) && Hopeful(c, s) && AtWait(c, s) && k in s.window.unacked && Overdue(c, s) <= {k}
    ensures !Doomed(c, s.(window := Acked(s.window, k), waited := true))
  {
    hide Total, ControlsCounted, AttemptsCounted, Acked;
    AckedFields(s.window, k);
    var t := s.(window := Acked(s.window, k), waited := true);
    assert Overdue(c, t) <= Overdue(c, s) - {k};
  }
}
