/** When the server takes on a session and when it lets go of one, told by the events that
    concerned it and not by the time stamps that the table keeps. */
module ServerTimes {
  import opened Common
  import opened Packets
  import opened Files
  import opened Sessions
  import opened Servers
  import opened ServerRuns
  import opened ServerProjection
  import opened WireFormat

  /** Event i of the run is the last one that carries a packet for this key. */
  ghost predicate LastFor(events: Events, key: Key, i: nat) {
    i < |events| && IsFor(events[i], key) && forall j :: i < j < |events| ==> !IsFor(events[j], key)
  }

  /** The session under this key has a verdict after n events. */
  ghost predicate Settled(cfg: ServerConfig, fs: FileSystem, events: Events, key: Key, n: nat)
    requires n <= |events|
  {
    var t := TableAfter(cfg, fs, events[..n]);
    key in t.sessions && t.sessions[key].session.finished
  }

  /** Event i of the run brought this key's session its verdict, and the session has been there
      since. */
  ghost predicate VerdictAt(cfg: ServerConfig, fs: FileSystem, events: Events, key: Key, i: nat) {
    && i < |events| && IsFor(events[i], key)
    && !Settled(cfg, fs, events, key, i)
    && forall n :: i < n <= |events| ==> Settled(cfg, fs, events, key, n)
  }

  // ------------------------------------------------------------------------
  // What one event does to one entry
  // ------------------------------------------------------------------------

  /** The entry that serving a packet leaves. */
  lemma ServedStamps(cfg: ServerConfig, t: Table, key: Key, p: Packet, now: Time, settledAt: Time, io: Io)
    requires key in t.sessions && EntriesKept(cfg, t.sessions) && |p.payload| <= MAX_PAYLOAD_SIZE
    ensures var x := t.sessions[key];
            var y := Serve(cfg, t, key, p, now, settledAt, io).table.sessions[key];
            && y.lastActivity == now
            && (x.session.finished ==> y.session.finished && y.completedAt == x.completedAt)
            && (!x.session.finished && y.session.finished ==> y.completedAt == settledAt)
    ensures forall k :: k != key && k in t.sessions ==>
              Serve(cfg, t, key, p, now, settledAt, io).table.sessions[k] == t.sessions[k]
  {
    hide HandlePacket, WellFormedState;
    assert EntryKept(cfg, t.sessions[key]);
    if t.sessions[key].session.finished {
      StaysFinished(cfg, t.fs, t.sessions[key].session, p, io);
    }
  }

  lemma ReadyStamps(cfg: ServerConfig, t: Table, key: Key, now: Time)
    ensures var u := Ready(cfg, t, key, now);
            && key in u.sessions
            && (if key in t.sessions then u == t else !u.sessions[key].session.finished)
            && forall k <- u.sessions :: k != key ==> k in t.sessions && u.sessions[k] == t.sessions[k]
  {
    hide Temps;
  }

  /** How the entry under this key comes out of an event. */
  lemma EntryStep(cfg: ServerConfig, t: Table, e: Event, key: Key)
    requires EntriesKept(cfg, t.sessions) && key in Step(cfg, t, e).table.sessions
    ensures var y := Step(cfg, t, e).table.sessions[key];
            if IsFor(e, key) then
              && e.Datagram? && y.lastActivity == e.now
              && (key in t.sessions && t.sessions[key].session.finished ==>
                    y.session.finished && y.completedAt == t.sessions[key].completedAt)
              && (!(key in t.sessions && t.sessions[key].session.finished) && y.session.finished ==>
                    y.completedAt == e.settledAt)
            else key in t.sessions && y == t.sessions[key]
  {
    hide Serve, Serializer.Decode, Swept, OnPacket, Opens, Ready, EntriesKept, Carried, Step;
    EventCases(cfg, t, e);
    match Carried(e)
    case None =>
      if e.Tick? {
        SweptShape(cfg, t, e.now);
        TickIsSweep(cfg, t, e);
      }
    case Some((k, p)) =>
      PacketCases(cfg, t, k, p, e.now, e.settledAt, e.io);
      if k in t.sessions || Opens(cfg, t, k, p) {
        ReadyStamps(cfg, t, k, e.now);
        ReadyKept(cfg, t, k, e.now);
        ServedKeys(cfg, Ready(cfg, t, k, e.now), k, p, e.now, e.settledAt, e.io);
        ServedStamps(cfg, Ready(cfg, t, k, e.now), k, p, e.now, e.settledAt, e.io);
      }
  }

  lemma TickIsSweep(cfg: ServerConfig, t: Table, e: Event)
    requires e.Tick?
    ensures Step(cfg, t, e).table == Swept(cfg, t, e.now)
  {
    hide Swept;
  }

  // ------------------------------------------------------------------------
  // What the time stamps mean
  // ------------------------------------------------------------------------

  /** `lastActivity` is the time of the last packet for this key. */
  lemma {:induction false} ActivityIsLastPacket(cfg: ServerConfig, fs: FileSystem, events: Events, key: Key)
      returns (i: nat)
    requires key in TableAfter(cfg, fs, events).sessions
    ensures LastFor(events, key, i) && events[i].Datagram?
    ensures TableAfter(cfg, fs, events).sessions[key].lastActivity == events[i].now
    decreases |events|
  {
    hide Step, IsFor;
    var m := |events| - 1;
    var front := events[..m];
    RunEntriesKept(cfg, fs, front);
    EntryStep(cfg, TableAfter(cfg, fs, front), events[m], key);
    if IsFor(events[m], key) {
      i := m;
    } else {
      i := ActivityIsLastPacket(cfg, fs, front, key);
    }
  }

  /** `completedAt` is the time at which the verdict was given, by the event that brought it. */
  lemma {:induction false} CompletionIsVerdict(cfg: ServerConfig, fs: FileSystem, events: Events, key: Key)
      returns (i: nat)
    requires key in TableAfter(cfg, fs, events).sessions
    requires TableAfter(cfg, fs, events).sessions[key].session.finished
    ensures VerdictAt(cfg, fs, events, key, i) && events[i].Datagram?
    ensures TableAfter(cfg, fs, events).sessions[key].completedAt == events[i].settledAt
    decreases |events|
  {
    hide Step, IsFor;
    var m := |events| - 1;
    var front := events[..m];
    var t := TableAfter(cfg, fs, front);
    RunEntriesKept(cfg, fs, front);
    EntryStep(cfg, t, events[m], key);
    assert events[..m + 1] == events;
    if key in t.sessions && t.sessions[key].session.finished {
      i := CompletionIsVerdict(cfg, fs, front, key);
      VerdictExtends(cfg, fs, events, key, i);
    } else {
      i := m;
    }
  }

  lemma VerdictExtends(cfg: ServerConfig, fs: FileSystem, events: Events, key: Key, i: nat)
    requires events != [] && VerdictAt(cfg, fs, events[..|events| - 1], key, i)
    requires Settled(cfg, fs, events, key, |events|)
    ensures VerdictAt(cfg, fs, events, key, i)
  {
    hide TableAfter, IsFor;
    var front := events[..|events| - 1];
    forall n | 0 <= n < |events| ensures Settled(cfg, fs, front, key, n) == Settled(cfg, fs, events, key, n) {
      assert front[..n] == events[..n];
    }
  }

  // ------------------------------------------------------------------------
  // When a tick lets go of a session
  // ------------------------------------------------------------------------

  /** More than `limit` whole milliseconds, of a duration in nanoseconds that is cast to
      milliseconds by dropping what is left over. */
  predicate Exceeds(d: int, limit: int) {
    if limit >= 0 then d >= (limit + 1) * 1_000_000 else d > limit * 1_000_000
  }

  lemma MillisExceeds(d: int, limit: int)
    ensures Millis(d) > limit <==> Exceeds(d, limit)
  {
  }

  /** After any run, a tick removes a running session if and only if the last packet for its key
      came longer than the idle timeout ago. */
  lemma IdleExactly(cfg: ServerConfig, fs: FileSystem, events: Events, key: Key, now: Time, i: nat)
    requires var t := TableAfter(cfg, fs, events); key in t.sessions && !t.sessions[key].session.finished
    requires LastFor(events, key, i) && events[i].Datagram?
    ensures key !in TableAfter(cfg, fs, events + [Tick(now)]).sessions <==>
            Exceeds(now - events[i].now, cfg.idleTimeout)
  {
    hide TableAfter, Millis, Exceeds, IsFor, Step;
    var t := TableAfter(cfg, fs, events);
    var j := ActivityIsLastPacket(cfg, fs, events, key);
    assert i == j;
    AfterTick(cfg, fs, events, now, key);
    MillisExceeds(now - events[i].now, cfg.idleTimeout);
  }

  /** And a session with a verdict if and only if the verdict was given longer than the linger
      time ago. */
  lemma RetiredExactly(cfg: ServerConfig, fs: FileSystem, events: Events, key: Key, now: Time, i: nat)
    requires VerdictAt(cfg, fs, events, key, i) && events[i].Datagram?
    ensures key in TableAfter(cfg, fs, events).sessions
    ensures key !in TableAfter(cfg, fs, events + [Tick(now)]).sessions <==>
            Exceeds(now - events[i].settledAt, cfg.linger)
  {
    hide TableAfter, Millis, Exceeds, IsFor, Step;
    assert events[..|events|] == events;
    assert Settled(cfg, fs, events, key, |events|);
    var j := CompletionIsVerdict(cfg, fs, events, key);
    OneVerdict(cfg, fs, events, key, i, j);
    AfterTick(cfg, fs, events, now, key);
    MillisExceeds(now - events[i].settledAt, cfg.linger);
  }

  lemma OneVerdict(cfg: ServerConfig, fs: FileSystem, events: Events, key: Key, i: nat, j: nat)
    requires VerdictAt(cfg, fs, events, key, i) && VerdictAt(cfg, fs, events, key, j)
    ensures i == j
  {
    hide Settled, IsFor;
  }

  lemma AfterTick(cfg: ServerConfig, fs: FileSystem, events: Events, now: Time, key: Key)
    requires key in TableAfter(cfg, fs, events).sessions
    ensures var x := TableAfter(cfg, fs, events).sessions[key];
            key !in TableAfter(cfg, fs, events + [Tick(now)]).sessions <==>
            if x.session.finished then Millis(now - x.completedAt) > cfg.linger
            else Millis(now - x.lastActivity) > cfg.idleTimeout
  {
    hide Millis, WellFormedState, Swept;
    var t := TableAfter(cfg, fs, events);
    RunEntriesKept(cfg, fs, events);
    assert EntryKept(cfg, t.sessions[key]);
    assert (events + [Tick(now)])[..|events|] == events;
    SweptShape(cfg, t, now);
  }

  // ------------------------------------------------------------------------
  // Packets for nobody in the table
  // ------------------------------------------------------------------------

  /** Sessions without a verdict. */
  ghost function Running(t: Table): set<Key> {
    set k | k in t.sessions && !t.sessions[k].session.finished
  }

  lemma RunningIsActive(cfg: ServerConfig, t: Table)
    requires EntriesKept(cfg, t.sessions)
    ensures Running(t) == Active(t.sessions)
  {
    hide WellFormedState;
    forall k ensures k in Running(t) <==> k in Active(t.sessions) {
      if k in t.sessions {
        assert EntryKept(cfg, t.sessions[k]);
      }
    }
  }

  /** What cannot be read is met with silence, and so is a tick. */
  lemma UnreadableIgnored(cfg: ServerConfig, t: Table, e: Event)
    ensures e.Datagram? && FirstFault(e.bytes).Some? ==> Step(cfg, t, e) == Turn(t, Silent)
    ensures e.Tick? ==> Step(cfg, t, e).reply == Silent
  {
    hide Serializer.Decode, FirstFault, OnPacket, Swept;
    if e.Datagram? {
      DecodeErrors(e.bytes);
    }
  }

  /** After any run, a packet for a key that is not in the table is ignored unless it is START;
      START is turned down with status byte 8 if and only if as many sessions are running as the
      server may have, and opens a session otherwise. */
  lemma StrangersExactly(cfg: ServerConfig, fs: FileSystem, events: Events, e: Event, key: Key)
    requires key !in TableAfter(cfg, fs, events).sessions && IsFor(e, key)
    ensures var t := TableAfter(cfg, fs, events);
            var h := Carried(e).value.1.header;
            var turn := Step(cfg, t, e);
            if h.packetType != Start then turn == Turn(t, Silent)
            else if |Running(t)| >= cfg.maxSessions then
              && turn.table == t.(refused := t.refused + 1)
              && turn.reply == Reply(ErrorPacket, h.sequenceNumber, [8])
            else key in turn.table.sessions && turn.table.refused == t.refused
  {
    hide TableAfter, Serve, Admit, Running, Active, Serializer.Decode, EntriesKept;
    var t := TableAfter(cfg, fs, events);
    var p := Carried(e).value.1;
    RunEntriesKept(cfg, fs, events);
    RunningIsActive(cfg, t);
    Admitted(cfg, t, key, e.now);
    if p.header.packetType == Start && !Refuses(cfg, t) {
      var u := Admit(cfg, t, key, e.now);
      ServedKeys(cfg, u, key, p, e.now, e.settledAt, e.io);
      ServeFields(cfg, u, key, p, e.now, e.settledAt, e.io);
      AdmitRefuses(cfg, t, key, e.now);
    }
  }

  lemma AdmitRefuses(cfg: ServerConfig, t: Table, key: Key, now: Time)
    ensures Admit(cfg, t, key, now).refused == t.refused
  {
    hide Temps;
  }

  /** Opening a session drops another if and only if that one has its verdict and the table holds
      twice as many sessions as may be running, a product taken in 64 bits. */
  lemma PressureExactly(cfg: ServerConfig, fs: FileSystem, events: Events, e: Event, key: Key, other: Key)
    requires var t := TableAfter(cfg, fs, events);
             key in t.sessions && other !in t.sessions && IsFor(e, other) &&
             Carried(e).value.1.header.packetType == Start && |Running(t)| < cfg.maxSessions
    ensures var t := TableAfter(cfg, fs, events);
            key !in Step(cfg, t, e).table.sessions <==>
            t.sessions[key].session.finished && |t.sessions| >= cfg.maxSessions * 2 % 0x1_0000_0000_0000_0000
  {
    hide TableAfter, Serve, Running, Active, Serializer.Decode, WellFormedState, Temps;
    var t := TableAfter(cfg, fs, events);
    var p := Carried(e).value.1;
    RunEntriesKept(cfg, fs, events);
    RunningIsActive(cfg, t);
    assert EntryKept(cfg, t.sessions[key]);
    Admitted(cfg, t, other, e.now);
    ServedKeys(cfg, Admit(cfg, t, other, e.now), other, p, e.now, e.settledAt, e.io);
  }
}
