/** The server's event loop over its own objects: src/server/epoll_server.cpp with the session
    map, the counters and the sessions updated in place. Every method is proved to do exactly
    what the machine in Servers says; epoll, the timer and the signals are left to the caller,
    who delivers datagrams and ticks in any order. */
module EpollServers {
  import opened Common
  import opened Packets
  import opened Files
  import opened Sessions
  import opened ReceiverSessions
  import opened Servers
  import opened ServerRuns
  import opened ServerShutdown

  class ServerSession {
    const receiver: ReceiverSession
    var lastActivity: Time
    var lingering: bool
    var completedAt: Time

    ghost function View(): Entry
      reads this, receiver, receiver.window
    {
      Entry(receiver.View(), lastActivity, lingering, completedAt)
    }

    /** The objects that belong to this session alone. */
    ghost function Parts(): set<object> {
      {this, receiver, receiver.window, receiver.window.received}
    }

    /** A consistent session, which is what the table says of it. */
    ghost predicate Stands(cfg: Config, e: Entry)
      reads Parts()
    {
      receiver.Valid() && receiver.Settings() == cfg && View() == e
    }

    constructor (capacity: uint32, directory: Path, now: Time)
      ensures fresh(Parts())
      ensures var cfg := Config(directory, capacity, Sha256.Hash); Stands(cfg, Entry(Fresh(cfg), now, false, 0))
    {
      hide Fresh, WellFormedState, Sha256.Hash;
      receiver := new ReceiverSession(capacity, directory);
      lastActivity := now;
      lingering := false;
      completedAt := 0;
    }

    /** Handle one packet, and start lingering when that brought the verdict. */
    method Take(disk: Disk, p: Packet, now: Time, settledAt: Time, io: Io, ghost cfg: Config, ghost e: Entry)
        returns (reply: Reply, settled: bool)
      requires Stands(cfg, e) && |p.payload| <= MAX_PAYLOAD_SIZE
      modifies Parts(), disk
      ensures var o := HandlePacket(cfg, old(disk.files), e.session, p, io);
              && disk.files == o.fs && reply == o.reply
              && Stands(cfg, Updated(e, o.state, now, settledAt))
              && (settled <==> o.state.finished && !e.lingering)
              && receiver.error == o.state.error
    {
      hide HandlePacket, WellFormedState, Sha256.Hash;
      lastActivity := now;
      reply := receiver.Handle(disk, p, io);
      settled := receiver.finished && !lingering;
      if settled {
        lingering := true;
        completedAt := settledAt;
      }
    }
  }

  // ------------------------------------------------------------------------
  // Many sessions
  // ------------------------------------------------------------------------

  /** No two sessions share an object. */
  ghost predicate Apart(sessions: map<Key, ServerSession>) {
    forall j <- sessions, k <- sessions :: j != k ==> sessions[j].Parts() !! sessions[k].Parts()
  }

  lemma FewerApart(sessions: map<Key, ServerSession>, key: Key)
    requires Apart(sessions)
    ensures Apart(sessions - {key})
  {
    hide ServerSession.Parts;
  }

  /** All these sessions are consistent, and the entries say what they are. */
  ghost predicate AllStand(sessions: map<Key, ServerSession>, cfg: Config, entries: map<Key, Entry>)
    reads set k, o | k in sessions && o in sessions[k].Parts() :: o
  {
    forall k <- sessions :: k in entries && sessions[k].Stands(cfg, entries[k])
  }

  /** Whatever else happens, a session none of whose objects is touched still stands. */
  twostate lemma Unmoved(s: ServerSession, new cfg: Config, new e: Entry)
    ensures old(s.Stands(cfg, e)) && unchanged(s.Parts()) ==> s.Stands(cfg, e)
  {
    hide WellFormedState;
    if old(s.Stands(cfg, e)) && unchanged(s.Parts()) {
      var r := s.receiver;
      assert unchanged(s) && unchanged(r) && unchanged(r.window) && unchanged(r.window.received);
      assert r.window.View() == old(r.window.View());
      assert r.View() == old(r.View());
      assert r.window.Valid();
    }
  }

  twostate lemma AllUnmoved(sessions: map<Key, ServerSession>, new cfg: Config, new entries: map<Key, Entry>)
    requires old(AllStand(sessions, cfg, entries))
    requires forall k <- sessions :: unchanged(sessions[k].Parts())
    ensures AllStand(sessions, cfg, entries)
    decreases |sessions|
  {
    hide ServerSession.Stands;
    if sessions != map[] {
      var k :| k in sessions;
      Unmoved(sessions[k], cfg, entries[k]);
      AllUnmoved(sessions - {k}, cfg, entries);
    }
  }

  /** In a scan over the table, `done` are those of `all` that have been passed. */
  ghost predicate Scanned(all: set<Key>, done: set<Key>, rest: set<Key>) {
    done !! rest && done <= all <= done + rest
  }

  lemma ScanStart(all: set<Key>, rest: set<Key>)
    requires all <= rest
    ensures Scanned(all, {}, rest)
  {
  }

  lemma ScanStep(all: set<Key>, done: set<Key>, rest: set<Key>, key: Key)
    requires Scanned(all, done, rest) && key in rest
    ensures key !in done && Scanned(all, done + (if key in all then {key} else {}), rest - {key})
  {
  }

  lemma ScanEnd(all: set<Key>, done: set<Key>)
    requires Scanned(all, done, {})
    ensures done == all
  {
  }

  class EpollServer {
    const directory: Path
    const windowSize: uint32
    const maxSessions: uint64
    const idleTimeout: int
    const linger: int
    const disk: Disk
    var sessions: map<Key, ServerSession>
    var completed: nat
    var failed: nat
    var expired: nat
    var refused: nat
    /** The machine's table, which the fields above stand for. */
    ghost var table: Table

    ghost function Settings(): ServerConfig {
      ServerConfig(Config(directory, windowSize, Sha256.Hash), maxSessions, idleTimeout, linger)
    }

    ghost function Footprint(): set<object>
      reads `sessions
    {
      set k, o | k in sessions && o in sessions[k].Parts() :: o
    }

    ghost predicate Counted()
      reads `table, `completed, `failed, `expired, `refused, disk
    {
      && table.fs == disk.files && table.completed == completed && table.failed == failed
      && table.expired == expired && table.refused == refused
    }

    ghost predicate InSync()
      reads this, disk, Footprint()
    {
      && Apart(sessions) && Counted() && sessions.Keys == table.sessions.Keys
      && AllStand(sessions, Settings().session, table.sessions)
    }

    ghost predicate Valid()
      reads this, disk, Footprint()
    {
      InSync() && TableKept(Settings(), table)
    }

    constructor (outputDirectory: Path, window: uint32, limit: uint64, idle: int, keep: int, files: Disk)
      ensures Valid() && table == Servers.Empty(files.files) && disk == files
      ensures Settings() == ServerConfig(Config(outputDirectory, window, Sha256.Hash), limit, idle, keep)
    {
      directory, windowSize, maxSessions, idleTimeout, linger := outputDirectory, window, limit, idle, keep;
      disk := files;
      sessions := map[];
      completed, failed, expired, refused := 0, 0, 0, 0;
      table := Servers.Empty(files.files);
    }

    // ----------------------------------------------------------------------
    // Looking and removing
    // ----------------------------------------------------------------------

    /** The server and its disk are no session's own. */
    lemma Elsewhere(session: ServerSession)
      ensures this !in session.Parts() && disk !in session.Parts()
    {
    }

    lemma EntryOf(key: Key)
      requires InSync() && key in sessions
      ensures key in table.sessions
      ensures var e := table.sessions[key];
              var s := sessions[key];
              && s.receiver.View() == e.session && s.lingering == e.lingering
              && s.lastActivity == e.lastActivity && s.completedAt == e.completedAt
    {
      hide ReceiverSession.View, ReceiverSession.Valid, Apart, Counted, Settings;
      assert sessions[key].Stands(Settings().session, table.sessions[key]);
    }

    /** How many sessions are still in progress. */
    method CountActive() returns (active: nat)
      requires InSync()
      ensures InSync() && active == |Active(table.sessions)|
    {
      hide Active, ServerSession.Stands, Apart, AllStand;
      active := 0;
      var rest := sessions.Keys;
      ghost var seen: set<Key> := {};
      forall key <- sessions ensures sessions[key].lingering == table.sessions[key].lingering {
        EntryOf(key);
      }
      while rest != {}
        invariant forall key <- sessions ::
                    key in table.sessions && sessions[key].lingering == table.sessions[key].lingering
        invariant rest !! seen && rest + seen == sessions.Keys
        invariant active == |Active(table.sessions) * seen|
        decreases |rest|
      {
        var key :| key in rest;
        CountOne(table.sessions, seen, key);
        OneScanned(rest, seen, key);
        if !sessions[key].lingering {
          active := active + 1;
        }
        rest, seen := rest - {key}, seen + {key};
      }
      CountAll(table.sessions, seen);
      AllUnmoved(sessions, Settings().session, table.sessions);
    }

    /** Erase one entry; the destructor removes an unpublished temporary file. */
    method EraseOne(key: Key)
      requires InSync() && key in sessions
      modifies `sessions, `table, disk
      ensures sessions == old(sessions) - {key} && InSync()
      ensures table == Erase(old(table), {key})
    {
      hide Destroy, Erase, Apart, ServerSession.Stands;
      var session := sessions[key];
      EntryOf(key);
      session.receiver.Close(disk);
      EraseOneFile(table, key);
      FewerApart(sessions, key);
      sessions := sessions - {key};
      table := Erase(table, {key});
      AllUnmoved(sessions, Settings().session, table.sessions);
    }

    /** One step of the loop below. */
    method PurgeOne(key: Key, ghost before: Table, ghost gone: set<Key>) returns (ghost now: set<Key>)
      requires InSync() && table == Erase(before, gone) && key in before.sessions && key !in gone
      modifies `sessions, `table, disk
      ensures InSync() && table == Erase(before, now)
      ensures now == gone + (if key in Lingering(before.sessions) then {key} else {})
      ensures forall k <- sessions :: k in old(sessions) && sessions[k] == old(sessions)[k]
    {
      hide Erase, ServerSession.Stands, Apart, AllStand, Counted;
      EraseMore(before, gone, key);
      EntryOf(key);
      now := gone;
      if sessions[key].lingering {
        EraseOne(key);
        now := gone + {key};
      }
    }

    /** Retire every lingering session early. */
    method PurgeLingering()
      requires InSync()
      modifies `sessions, `table, disk
      ensures InSync() && table == Erase(old(table), Lingering(old(table).sessions))
      ensures forall k <- sessions :: k in old(sessions) && sessions[k] == old(sessions)[k]
    {
      hide Erase, InSync, Lingering, Scanned;
      ghost var before := table;
      KeysOf();
      var rest := sessions.Keys;
      ghost var gone: set<Key> := {};
      EraseNone(before);
      LingeringKeys(before.sessions);
      ScanStart(Lingering(before.sessions), rest);
      while rest != {}
        invariant InSync() && table == Erase(before, gone) && rest <= before.sessions.Keys
        invariant Scanned(Lingering(before.sessions), gone, rest)
        invariant forall k <- sessions :: k in old(sessions) && sessions[k] == old(sessions)[k]
        decreases |rest|
      {
        var key :| key in rest;
        ScanStep(Lingering(before.sessions), gone, rest, key);
        gone := PurgeOne(key, before, gone);
        rest := rest - {key};
      }
      ScanEnd(Lingering(before.sessions), gone);
    }

    lemma KeysOf()
      requires InSync()
      ensures sessions.Keys == table.sessions.Keys
    {
    }

    /** Let one session handle a packet; every other stays as it is. */
    method HandOver(key: Key, p: Packet, now: Time, settledAt: Time, io: Io,
                    ghost cfg: Config, ghost entries: map<Key, Entry>)
        returns (reply: Reply, verdict: Option<TransferError>)
      requires AllStand(sessions, cfg, entries) && Apart(sessions) && key in sessions && key in entries
      requires |p.payload| <= MAX_PAYLOAD_SIZE
      modifies disk, sessions[key].Parts()
      ensures var o := HandlePacket(cfg, old(disk.files), entries[key].session, p, io);
              && disk.files == o.fs && reply == o.reply
              && AllStand(sessions, cfg, entries[key := Updated(entries[key], o.state, now, settledAt)])
              && verdict == (if o.state.finished && !entries[key].lingering then Some(o.state.error) else None)
    {
      hide HandlePacket, ServerSession.Stands, Updated, AllStand;
      StandsAlone(sessions, cfg, entries, key);
      var settled: bool;
      reply, settled := sessions[key].Take(disk, p, now, settledAt, io, cfg, entries[key]);
      verdict := if settled then Some(sessions[key].receiver.error) else None;
      AllUnmoved(sessions - {key}, cfg, entries);
      ghost var o := HandlePacket(cfg, old(disk.files), entries[key].session, p, io);
      StandTogether(sessions, cfg, entries, key, Updated(entries[key], o.state, now, settledAt));
    }

    /** A session that has just finished is completed or failed. */
    method CountVerdict(verdict: Option<TransferError>)
      modifies `completed, `failed
      ensures completed == old(completed) + (if verdict == Some(NoError) then 1 else 0)
      ensures failed == old(failed) + (if verdict.Some? && verdict.value != NoError then 1 else 0)
    {
      if verdict.Some? {
        if verdict.value == NoError {
          completed := completed + 1;
        } else {
          failed := failed + 1;
        }
      }
    }

    /** Hand a packet to the session under its key, and count its verdict. */
    method ServePacket(key: Key, p: Packet, now: Time, settledAt: Time, io: Io) returns (reply: Reply)
      requires InSync() && key in sessions && |p.payload| <= MAX_PAYLOAD_SIZE
      modifies `completed, `failed, `table, disk, sessions[key].Parts()
      ensures InSync() && sessions == old(sessions)
      ensures Turn(table, reply) == Serve(Settings(), old(table), key, p, now, settledAt, io)
    {
      hide HandlePacket, ServerSession.Stands, Updated, Apart, AllStand, Serve;
      ServeFields(Settings(), table, key, p, now, settledAt, io);
      Elsewhere(sessions[key]);
      ServedKeys(Settings(), table, key, p, now, settledAt, io);
      var verdict: Option<TransferError>;
      reply, verdict := HandOver(key, p, now, settledAt, io, Settings().session, table.sessions);
      label Handed:
      CountVerdict(verdict);
      table := Serve(Settings(), table, key, p, now, settledAt, io).table;
      assert Counted() && Apart(sessions) && sessions.Keys == table.sessions.Keys;
      AllUnmoved@Handed(sessions, Settings().session, table.sessions);
    }

    // ----------------------------------------------------------------------
    // Datagrams
    // ----------------------------------------------------------------------

    method OpenSession(key: Key, now: Time)
      requires InSync() && key !in sessions
      modifies `sessions, `table
      ensures InSync() && key in sessions && fresh(sessions[key].Parts()) && sessions - {key} == old(sessions)
      ensures table == old(table).(sessions := old(table).sessions[key := Opened(Settings(), now)],
                                   created := old(table).created + 1)
    {
      hide ServerSession.Stands, AllStand, Fresh, Apart;
      var session := new ServerSession(windowSize, directory, now);
      AllUnmoved(sessions, Settings().session, table.sessions);
      Insert(key, session, Opened(Settings(), now));
    }

    method Insert(key: Key, session: ServerSession, ghost e: Entry)
      requires InSync() && key !in sessions && session.Stands(Settings().session, e)
      requires forall k <- sessions :: sessions[k].Parts() !! session.Parts()
      modifies `sessions, `table
      ensures InSync() && sessions == old(sessions)[key := session]
      ensures table == old(table).(sessions := old(table).sessions[key := e], created := old(table).created + 1)
    {
      hide ServerSession.Stands, AllStand, Apart;
      PutTogether(sessions, Settings().session, table.sessions, key, session, e);
      PutApart(sessions, key, session);
      ghost var entries := table.sessions[key := e];
      sessions := sessions[key := session];
      table := table.(sessions := entries, created := table.created + 1);
      AllUnmoved(sessions, Settings().session, entries);
    }

    /** Room is made by retiring lingering sessions, and only under pressure. */
    method MakeRoom()
      requires InSync()
      modifies `sessions, `table, disk
      ensures InSync() && table == Room(Settings(), old(table))
      ensures forall k <- sessions :: k in old(sessions) && sessions[k] == old(sessions)[k]
    {
      hide Erase, InSync, Lingering;
      KeysOf();
      SameSize(sessions, table.sessions);
      if |sessions| >= maxSessions * 2 % TWO_64 {
        PurgeLingering();
      }
    }

    method AdmitSession(key: Key, now: Time)
      requires InSync() && key !in sessions
      modifies `sessions, `table, disk
      ensures InSync() && key in sessions && fresh(sessions[key].Parts())
      ensures table == Admit(Settings(), old(table), key, now)
      ensures forall k <- sessions ::
                fresh(sessions[k].Parts()) || (k in old(sessions) && sessions[k] == old(sessions)[k])
    {
      hide Room, Opened, InSync, ServerSession.Parts;
      MakeRoom();
      OpenSession(key, now);
    }

    /** One packet: found, admitted, refused or ignored. */
    method Arrive(key: Key, p: Packet, now: Time, settledAt: Time, io: Io) returns (reply: Reply)
      requires InSync() && |p.payload| <= MAX_PAYLOAD_SIZE
      modifies `sessions, `completed, `failed, `refused, `table, disk,
        if key in sessions then sessions[key].Parts() else {}
      ensures InSync()
      ensures Turn(table, reply) == OnPacket(Settings(), old(table), key, p, now, settledAt, io)
      ensures forall k <- sessions ::
                fresh(sessions[k].Parts()) || (k in old(sessions) && sessions[k] == old(sessions)[k])
    {
      hide Serve, Admit, StatusByte, ToByte, AllStand, Apart, Counted, ServerSession.Parts, Active;
      if key !in sessions {
        if p.header.packetType != Start {
          return Silent;
        }
        var active := CountActive();
        if active >= maxSessions {
          CountRefused();
          return Busy(p.header);
        }
        AdmitSession(key, now);
      }
      reply := ServePacket(key, p, now, settledAt, io);
    }

    /** One datagram; what does not decode is dropped. */
    method Receive(address: seq<byte>, port: uint16, bytes: seq<byte>, now: Time, settledAt: Time, io: Io)
        returns (reply: Reply)
      requires Valid()
      modifies `sessions, `completed, `failed, `refused, `table, disk, Footprint()
      ensures Valid()
      ensures Turn(table, reply) == Step(Settings(), old(table), Datagram(address, port, bytes, now, settledAt, io))
      ensures forall k <- sessions ::
                fresh(sessions[k].Parts()) || (k in old(sessions) && sessions[k] == old(sessions)[k])
    {
      hide Serializer.Decode, OnPacket, TableKept, InSync;
      StepKept(Settings(), table, Datagram(address, port, bytes, now, settledAt, io));
      var result := Serializer.Decode(bytes);
      if result.Err? {
        return Silent;
      }
      Serializer.EncodeDecode(bytes);
      var p := result.value;
      reply := Arrive(Key(address, port, p.header.sessionId), p, now, settledAt, io);
    }

    // ----------------------------------------------------------------------
    // The timer
    // ----------------------------------------------------------------------

    /** One step of the sweep. */
    method SweepOne(key: Key, now: Time, ghost before: Table, ghost gone: set<Key>, ghost idle: set<Key>)
        returns (ghost goneNow: set<Key>, ghost idleNow: set<Key>)
      requires InSync() && table == SweptSoFar(before, gone, idle)
      requires key in before.sessions && key !in gone && key !in idle
      modifies `sessions, `table, `expired, disk
      ensures InSync() && table == SweptSoFar(before, goneNow, idleNow)
      ensures idleNow == idle + (if key in IdleKeys(Settings(), before.sessions, now) then {key} else {})
      ensures goneNow == gone + (if key in IdleKeys(Settings(), before.sessions, now) +
                                           RetiredKeys(Settings(), before.sessions, now) then {key} else {})
      ensures forall k <- sessions :: k in old(sessions) && sessions[k] == old(sessions)[k]
    {
      hide Erase, AllStand, Apart, Counted, Millis, SweptSoFar;
      goneNow, idleNow := gone, idle;
      SweptMore(before, gone, idle, key);
      EntryOf(key);
      var session := sessions[key];
      if session.lingering {
        var held := Millis(now - session.completedAt);
        if held > linger {
          EraseOne(key);
          goneNow := gone + {key};
        }
      } else {
        var unused := Millis(now - session.lastActivity);
        if unused > idleTimeout {
          EraseOne(key);
          CountExpired();
          goneNow, idleNow := gone + {key}, idle + {key};
        }
      }
    }

    /** Erase every session that has been idle, or has lingered, for too long. */
    method Sweep(now: Time)
      requires Valid()
      modifies `sessions, `table, `expired, disk
      ensures Valid() && table == Step(Settings(), old(table), Tick(now)).table
      ensures forall k <- sessions :: k in old(sessions) && sessions[k] == old(sessions)[k]
    {
      hide Erase, InSync, IdleKeys, RetiredKeys, SweptSoFar, TableKept, Settings, Scanned;
      ghost var before := table;
      KeysOf();
      ghost var idleAll := IdleKeys(Settings(), before.sessions, now);
      ghost var goneAll := idleAll + RetiredKeys(Settings(), before.sessions, now);
      var rest := sessions.Keys;
      ghost var gone: set<Key> := {};
      ghost var idle: set<Key> := {};
      NothingSwept(before);
      SweptKeys(Settings(), before.sessions, now);
      ScanStart(goneAll, rest);
      ScanStart(idleAll, rest);
      while rest != {}
        invariant InSync() && table == SweptSoFar(before, gone, idle) && rest <= before.sessions.Keys
        invariant Scanned(goneAll, gone, rest) && Scanned(idleAll, idle, rest)
        invariant forall k <- sessions :: k in old(sessions) && sessions[k] == old(sessions)[k]
        decreases |rest|
      {
        var key :| key in rest;
        ScanStep(goneAll, gone, rest, key);
        ScanStep(idleAll, idle, rest, key);
        gone, idle := SweepOne(key, now, before, gone, idle);
        rest := rest - {key};
      }
      ScanEnd(goneAll, gone);
      ScanEnd(idleAll, idle);
      AllSwept(Settings(), before, now);
      SweepKept(Settings(), before, now);
    }

    // ----------------------------------------------------------------------
    // The loop
    // ----------------------------------------------------------------------

    /** One turn of the event loop. */
    method Handle(e: Event)
      requires Valid()
      modifies this, disk, Footprint()
      ensures Valid() && table == Step(Settings(), old(table), e).table
      ensures forall o <- Footprint() :: o in old(Footprint()) || fresh(o)
    {
      hide Step, Valid, ServerSession.Parts;
      match e
      case Datagram(address, port, bytes, now, settledAt, io) =>
        var reply := Receive(address, port, bytes, now, settledAt, io);
      case Tick(now) =>
        Sweep(now);
    }

    /** run: any events in any order, the shutdown report, and the end of the sessions that
        are left. */
    method Run(events: Events) returns (abandoned: nat)
      requires Valid() && table == Servers.Empty(disk.files)
      modifies this, disk, Footprint()
      ensures InSync() && sessions == map[]
      ensures table == Closed(TableAfter(Settings(), old(disk.files), events))
      ensures table.created == completed + failed + expired + abandoned
    {
      hide Step, Valid, Footprint;
      ghost var fs := disk.files;
      for i := 0 to |events|
        invariant Valid() && table == TableAfter(Settings(), fs, events[..i])
        invariant forall o <- Footprint() :: o in old(Footprint()) || fresh(o)
      {
        Handle(events[i]);
        assert events[..i + 1][..i] == events[..i];
      }
      assert events[..|events|] == events;
      abandoned := Abandon();
      CloseAll();
    }

    /** The map is destroyed, and every session in it. */
    method CloseAll()
      requires Valid()
      modifies `sessions, `table, disk
      ensures InSync() && sessions == map[] && table == Closed(old(table))
      ensures table.created == old(table).created
    {
      hide InSync, ErasedBut, Closed;
      ghost var before := table;
      KeysOf();
      AllLeft(before);
      var rest := sessions.Keys;
      while rest != {}
        invariant InSync() && table == ErasedBut(before, rest) && sessions.Keys == rest && rest <= before.sessions.Keys
        decreases |rest|
      {
        var key :| key in rest;
        OneLeft(before, rest, key);
        OneClosed(sessions, rest, key);
        EraseOne(key);
        rest := rest - {key};
      }
      NoneLeft(before);
    }

    /** What is still in progress when the loop ends. */
    method Abandon() returns (abandoned: nat)
      requires Valid()
      ensures Valid() && table.created == completed + failed + expired + abandoned
    {
      hide Active, AllStand, EntriesKept;
      abandoned := CountActive();
    }

    // ----------------------------------------------------------------------
    // Counters
    // ----------------------------------------------------------------------

    method CountRefused()
      requires InSync()
      modifies `refused, `table
      ensures InSync() && table == old(table).(refused := old(table).refused + 1)
    {
      hide AllStand, Apart;
      refused := refused + 1;
      table := table.(refused := table.refused + 1);
      AllUnmoved(sessions, Settings().session, table.sessions);
    }

    method CountExpired()
      requires InSync()
      modifies `expired, `table
      ensures InSync() && table == old(table).(expired := old(table).expired + 1)
    {
      hide AllStand, Apart;
      expired := expired + 1;
      table := table.(expired := table.expired + 1);
      AllUnmoved(sessions, Settings().session, table.sessions);
    }
  }

  lemma StandsAlone(sessions: map<Key, ServerSession>, cfg: Config, entries: map<Key, Entry>, key: Key)
    requires AllStand(sessions, cfg, entries) && key in sessions
    ensures key in entries && sessions[key].Stands(cfg, entries[key]) && AllStand(sessions - {key}, cfg, entries)
  {
    hide ServerSession.Stands;
  }

  lemma StandTogether(sessions: map<Key, ServerSession>, cfg: Config, entries: map<Key, Entry>, key: Key, e: Entry)
    requires AllStand(sessions - {key}, cfg, entries)
    requires key in sessions && sessions[key].Stands(cfg, e)
    ensures AllStand(sessions, cfg, entries[key := e])
  {
    hide ServerSession.Stands;
  }

  lemma PutTogether(sessions: map<Key, ServerSession>, cfg: Config, entries: map<Key, Entry>,
                    key: Key, session: ServerSession, e: Entry)
    requires AllStand(sessions, cfg, entries) && session.Stands(cfg, e)
    ensures AllStand(sessions[key := session], cfg, entries[key := e])
  {
    hide ServerSession.Stands;
  }

  lemma SameSize(a: map<Key, ServerSession>, b: map<Key, Entry>)
    requires a.Keys == b.Keys
    ensures |a| == |b|
  {
    assert |a| == |a.Keys| && |b| == |b.Keys|;
  }

  /** The table after part of a sweep. */
  function SweptSoFar(t: Table, gone: set<Key>, idle: set<Key>): Table {
    Erase(t, gone).(expired := t.expired + |idle|)
  }

  lemma SweptMore(t: Table, gone: set<Key>, idle: set<Key>, key: Key)
    requires key in t.sessions && key !in gone && key !in idle
    ensures var so := SweptSoFar(t, gone, idle);
            var next := Erase(so, {key});
            && key in so.sessions && so.sessions[key] == t.sessions[key]
            && next == SweptSoFar(t, gone + {key}, idle)
            && next.(expired := next.expired + 1) == SweptSoFar(t, gone + {key}, idle + {key})
  {
    EraseMore(t, gone, key);
    ErasedCount(Erase(t, gone), key, t.expired + |idle|);
    hide Erase;
  }

  lemma ErasedCount(t: Table, key: Key, n: nat)
    ensures Erase(t.(expired := n), {key}) == Erase(t, {key}).(expired := n)
  {
    hide Temps;
  }

  lemma PutApart(sessions: map<Key, ServerSession>, key: Key, session: ServerSession)
    requires Apart(sessions) && forall k <- sessions :: sessions[k].Parts() !! session.Parts()
    ensures Apart(sessions[key := session])
  {
    hide ServerSession.Parts;
  }

  lemma NothingSwept(t: Table)
    ensures SweptSoFar(t, {}, {}) == t
  {
    EraseNone(t);
  }

  lemma AllSwept(cfg: ServerConfig, t: Table, now: Time)
    ensures var idle := IdleKeys(cfg, t.sessions, now);
            Swept(cfg, t, now) == SweptSoFar(t, idle + RetiredKeys(cfg, t.sessions, now), idle)
  {
    hide Erase, IdleKeys, RetiredKeys;
    EraseKeepsActive(t, IdleKeys(cfg, t.sessions, now) + RetiredKeys(cfg, t.sessions, now));
  }

  lemma SweptKeys(cfg: ServerConfig, sessions: map<Key, Entry>, now: Time)
    ensures IdleKeys(cfg, sessions, now) + RetiredKeys(cfg, sessions, now) <= sessions.Keys
  {
  }

  lemma LingeringKeys(sessions: map<Key, Entry>)
    ensures Lingering(sessions) <= sessions.Keys
  {
  }

  /** The table once all but these sessions have been erased. */
  function ErasedBut(t: Table, rest: set<Key>): Table {
    Erase(t, t.sessions.Keys - rest)
  }

  lemma AllLeft(t: Table)
    ensures ErasedBut(t, t.sessions.Keys) == t
  {
    EraseNone(t);
    assert t.sessions.Keys - t.sessions.Keys == {};
  }

  lemma OneLeft(t: Table, rest: set<Key>, key: Key)
    requires key in rest && rest <= t.sessions.Keys
    ensures Erase(ErasedBut(t, rest), {key}) == ErasedBut(t, rest - {key})
  {
    hide Erase;
    EraseMore(t, t.sessions.Keys - rest, key);
    assert t.sessions.Keys - rest + {key} == t.sessions.Keys - (rest - {key});
  }

  lemma OneClosed(sessions: map<Key, ServerSession>, rest: set<Key>, key: Key)
    requires key in rest && sessions.Keys == rest
    ensures (sessions - {key}).Keys == rest - {key} && |rest - {key}| < |rest|
  {
  }

  lemma NoneLeft(t: Table)
    ensures ErasedBut(t, {}) == Closed(t) && Closed(t).created == t.created
  {
    hide Temps;
    assert t.sessions.Keys - {} == t.sessions.Keys;
  }

  lemma EraseNone(t: Table)
    ensures Erase(t, {}) == t
  {
    assert Temps(t.sessions, {}) == {};
  }

  lemma EraseMore(t: Table, gone: set<Key>, key: Key)
    ensures Erase(Erase(t, gone), {key}) == Erase(t, gone + {key})
    ensures key in t.sessions && key !in gone ==>
              key in Erase(t, gone).sessions && Erase(t, gone).sessions[key] == t.sessions[key]
  {
    assert Temps(t.sessions, gone + {key}) == Temps(t.sessions, gone) + Temps(t.sessions - gone, {key});
    assert t.sessions - (gone + {key}) == t.sessions - gone - {key};
  }

  lemma OneScanned(rest: set<Key>, seen: set<Key>, key: Key)
    requires key in rest && rest !! seen
    ensures rest - {key} !! seen + {key} && (rest - {key}) + (seen + {key}) == rest + seen
  {
  }

  lemma CountOne(sessions: map<Key, Entry>, seen: set<Key>, key: Key)
    requires key in sessions && key !in seen
    ensures |Active(sessions) * (seen + {key})| ==
            |Active(sessions) * seen| + (if sessions[key].lingering then 0 else 1)
  {
    var now := Active(sessions) * (seen + {key});
    if sessions[key].lingering {
      assert now == Active(sessions) * seen;
    } else {
      assert now == Active(sessions) * seen + {key};
    }
  }

  lemma CountAll(sessions: map<Key, Entry>, seen: set<Key>)
    requires seen == sessions.Keys
    ensures Active(sessions) * seen == Active(sessions)
  {
  }

  lemma EraseOneFile(t: Table, key: Key)
    requires key in t.sessions
    ensures Erase(t, {key}).fs == Destroy(t.fs, t.sessions[key].session)
    ensures Erase(t, {key}) == t.(sessions := t.sessions - {key}, fs := Erase(t, {key}).fs)
  {
    assert Temps(t.sessions, {key}) ==
           (if !t.sessions[key].session.published && t.sessions[key].session.tempPath != []
            then {t.sessions[key].session.tempPath} else {});
  }
}
