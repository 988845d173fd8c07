/** What the server leaves in its directory: once it has shut down, no temporary file that was
    not there before. */
module ServerShutdown {
  import opened Common
  import opened Packets
  import opened Files
  import opened Filenames
  import opened Sessions
  import opened SessionSafety
  import opened Servers
  import opened ServerRuns
  import opened ServerProjection

  /** The destructors of everything that is left in the table. */
  function Closed(t: Table): Table {
    Erase(t, t.sessions.Keys)
  }

  ghost predicate OwnedBy(sessions: map<Key, Entry>, k: Key, path: Path) {
    k in sessions && !sessions[k].session.published && sessions[k].session.tempPath == path
  }

  /** Every temporary file that is new belongs to an unpublished session in the table. */
  ghost predicate TempsOwned(cfg: ServerConfig, fs: FileSystem, t: Table) {
    forall id: uint64 :: TempPath(cfg.session.directory, id) in t.fs ==>
      || TempPath(cfg.session.directory, id) in fs
      || exists k :: OwnedBy(t.sessions, k, TempPath(cfg.session.directory, id))
  }

  lemma EraseOwned(cfg: ServerConfig, fs: FileSystem, t: Table, gone: set<Key>)
    requires TempsOwned(cfg, fs, t)
    ensures TempsOwned(cfg, fs, Erase(t, gone))
  {
    hide TempPath;
    var u := Erase(t, gone);
    forall id: uint64 | TempPath(cfg.session.directory, id) in u.fs && TempPath(cfg.session.directory, id) !in fs
      ensures exists k :: OwnedBy(u.sessions, k, TempPath(cfg.session.directory, id))
    {
      var path := TempPath(cfg.session.directory, id);
      TempPathNotEmpty(cfg.session.directory, id);
      var k :| OwnedBy(t.sessions, k, path);
      assert k !in gone;
      assert OwnedBy(u.sessions, k, path);
    }
  }

  /** A packet leaves no temporary file behind but its session's own, and publishing moves that
      one away. */
  lemma PacketLeaves(cfg: Config, fs: FileSystem, s: State, p: Packet, io: Io, id: uint64)
    requires WellFormedState(cfg, s) && OwnPaths(cfg, p.header.sessionId, s)
    requires PlainName(p) || Placed(s)
    ensures var o := HandlePacket(cfg, fs, s, p, io);
            var path := TempPath(cfg.directory, id);
            path in o.fs ==>
              if path == o.state.tempPath then !o.state.published || s.published else path in fs
  {
    hide TempPath, HandlePacket, OwnPaths, WellFormedState, PlainName, Placed;
    HandleOwnPaths(cfg, fs, s, p, io);
    var o := HandlePacket(cfg, fs, s, p, io);
    var path := TempPath(cfg.directory, id);
    OutputIsNoTemp(cfg, o.state, p.header.sessionId, id);
    if path != o.state.tempPath {
      WritesOnlyOwn(cfg, fs, s, p, io, path);
    } else if o.state.published && !s.published {
      MovedAway(cfg, fs, s, p, io);
    }
  }

  lemma OutputIsNoTemp(cfg: Config, s: State, own: uint64, id: uint64)
    requires OwnPaths(cfg, own, s)
    ensures s.outputPath != TempPath(cfg.directory, id)
  {
    hide TempPath, JoinPath;
    TempPathNotEmpty(cfg.directory, id);
    if s.outputPath != [] {
      var name :| !Reserved(name) && s.outputPath == JoinPath(cfg.directory, name);
      OutputHitsTemp(cfg.directory, name, id);
    }
  }

  lemma MovedAway(cfg: Config, fs: FileSystem, s: State, p: Packet, io: Io)
    requires var t := HandlePacket(cfg, fs, s, p, io).state; t.published && !s.published && t.tempPath != t.outputPath
    ensures var o := HandlePacket(cfg, fs, s, p, io); o.state.tempPath !in o.fs
  {
    hide OnData, Sanitize, JoinPath, TempPath, ToByte, StatusByte, ReadsComplete;
    var counted := s.(stats := s.stats.(packetsReceived := s.stats.packetsReceived + 1));
    DataNeverPublishes(fs, counted, p, io);
  }

  lemma DataNeverPublishes(fs: FileSystem, s: State, p: Packet, io: Io)
    ensures OnData(fs, s, p, io).state.published == s.published
  {
  }

  /** What handling a packet does to a session's place and verdict. */
  lemma StaysPlaced(cfg: Config, fs: FileSystem, s: State, p: Packet, io: Io)
    requires WellFormedState(cfg, s)
    ensures var t := HandlePacket(cfg, fs, s, p, io).state;
            && (Placed(s) ==> t.tempPath == s.tempPath)
            && (s.published ==> t.published && HandlePacket(cfg, fs, s, p, io).fs == fs)
  {
    hide HandlePacket, CountsAgree;
    if s.finished {
      SettledIsFinal(cfg, fs, s, p, io);
    } else if s.started {
      RunningStaysPlaced(cfg, fs, s, p, io);
    }
  }

  lemma RunningStaysPlaced(cfg: Config, fs: FileSystem, s: State, p: Packet, io: Io)
    requires s.started && !s.finished
    ensures HandlePacket(cfg, fs, s, p, io).state.tempPath == s.tempPath
  {
    hide OnStart, OnData, OnFin, ToByte, StatusByte;
    var counted := s.(stats := s.stats.(packetsReceived := s.stats.packetsReceived + 1));
    StartKeepsPlace(cfg, fs, counted, p, io);
    DataKeepsPlace(fs, counted, p, io);
    FinKeepsPlace(cfg, fs, counted, p, io);
  }

  /** A session that has no paths yet owns nothing. */
  ghost predicate Bare(s: State) {
    !Placed(s) ==> s.tempPath == []
  }

  lemma ServeOwned(cfg: ServerConfig, fs: FileSystem, t: Table, key: Key, p: Packet, now: Time, settledAt: Time, io: Io)
    requires TempsOwned(cfg, fs, t) && TableOwn(cfg, t.sessions) && EntriesKept(cfg, t.sessions)
    requires Proper(t.sessions, key, p) && Bare(t.sessions[key].session)
    ensures TempsOwned(cfg, fs, Serve(cfg, t, key, p, now, settledAt, io).table)
  {
    hide TempPath, HandlePacket, Serve, OwnPaths, WellFormedState, PlainName, Placed;
    ServedEntry(cfg, t, key, p, now, settledAt, io);
    var u := Serve(cfg, t, key, p, now, settledAt, io).table;
    var s := t.sessions[key].session;
    assert EntryKept(cfg, t.sessions[key]);
    forall id: uint64 | TempPath(cfg.session.directory, id) in u.fs && TempPath(cfg.session.directory, id) !in fs
      ensures exists k :: OwnedBy(u.sessions, k, TempPath(cfg.session.directory, id))
    {
      var path := TempPath(cfg.session.directory, id);
      PacketLeaves(cfg.session, t.fs, s, p, io, id);
      StaysPlaced(cfg.session, t.fs, s, p, io);
      TempPathNotEmpty(cfg.session.directory, id);
      var now := u.sessions[key].session;
      if path == now.tempPath && !now.published {
        assert OwnedBy(u.sessions, key, path);
      } else {
        var k :| OwnedBy(t.sessions, k, path);
        assert k != key;
        assert OwnedBy(u.sessions, k, path);
      }
    }
  }

  lemma AdmitOwned(cfg: ServerConfig, fs: FileSystem, t: Table, key: Key, now: Time)
    requires TempsOwned(cfg, fs, t) && key !in t.sessions
    ensures TempsOwned(cfg, fs, Admit(cfg, t, key, now))
    ensures Bare(Admit(cfg, t, key, now).sessions[key].session)
  {
    hide TempPath, Erase, Opened;
    EraseOwned(cfg, fs, t, Lingering(t.sessions));
    EraseKeepsActive(t, Lingering(t.sessions));
    FreshBare(cfg, now);
    var room := Room(cfg, t);
    var u := Admit(cfg, t, key, now);
    assert key !in room.sessions;
    forall id: uint64 | TempPath(cfg.session.directory, id) in u.fs && TempPath(cfg.session.directory, id) !in fs
      ensures exists k :: OwnedBy(u.sessions, k, TempPath(cfg.session.directory, id))
    {
      var path := TempPath(cfg.session.directory, id);
      var k :| OwnedBy(room.sessions, k, path);
      assert OwnedBy(u.sessions, k, path);
    }
  }

  lemma FreshBare(cfg: ServerConfig, now: Time)
    ensures Bare(Opened(cfg, now).session)
  {
  }

  lemma StepOwned(cfg: ServerConfig, fs: FileSystem, t: Table, e: Event)
    requires TempsOwned(cfg, fs, t) && TableOwn(cfg, t.sessions)
    requires AllPlaced(t.sessions) && EntriesKept(cfg, t.sessions)
    requires Fitting(cfg, t, e)
    ensures TempsOwned(cfg, fs, Step(cfg, t, e).table)
  {
    hide TempsOwned, TableOwn, EntriesKept, Carried, Swept, OnPacket, Serve, NewId, PlainName, Opens, Erase,
      IdleKeys, RetiredKeys, Admit, PlacedBut, Placed, Room, TempPath;
    EventCases(cfg, t, e);
    match Carried(e)
    case None =>
      if e.Tick? {
        SweptIsErased(cfg, t, e.now);
        EraseOwned(cfg, fs, t, IdleKeys(cfg, t.sessions, e.now) + RetiredKeys(cfg, t.sessions, e.now));
        SameFiles(cfg, fs, Erase(t, IdleKeys(cfg, t.sessions, e.now) + RetiredKeys(cfg, t.sessions, e.now)),
                  Swept(cfg, t, e.now));
      }
    case Some((key, p)) =>
      PacketCases(cfg, t, key, p, e.now, e.settledAt, e.io);
      if key in t.sessions || Opens(cfg, t, key, p) {
        ReadyOwn(cfg, t, key, p, e.now);
        ReadyKept(cfg, t, key, e.now);
        if key !in t.sessions {
          AdmitOwned(cfg, fs, t, key, e.now);
        }
        ServeOwned(cfg, fs, Ready(cfg, t, key, e.now), key, p, e.now, e.settledAt, e.io);
      } else {
        SameFiles(cfg, fs, t, Step(cfg, t, e).table);
      }
  }

  lemma SameFiles(cfg: ServerConfig, fs: FileSystem, t: Table, u: Table)
    requires TempsOwned(cfg, fs, t) && u.fs == t.fs && u.sessions == t.sessions
    ensures TempsOwned(cfg, fs, u)
  {
    hide TempPath;
  }

  lemma {:induction false} RunOwned(cfg: ServerConfig, fs: FileSystem, events: Events)
    requires Orderly(cfg, fs, events)
    ensures TempsOwned(cfg, fs, TableAfter(cfg, fs, events))
    decreases |events|
  {
    if events != [] {
      hide Step, TempsOwned, TableOwn, AllPlaced, EntriesKept, Fitting, Alone, Fed, Answers;
      var front := events[..|events| - 1];
      RunOwned(cfg, fs, front);
      EachSessionIsAlone(cfg, fs, fs, front);
      RunEntriesKept(cfg, fs, front);
      StepOwned(cfg, fs, TableAfter(cfg, fs, front), events[|events| - 1]);
    }
  }

  /** Once the server has shut down after an orderly run, of any length, with any transfers
      completed, failed, expired or abandoned on the way, the directory holds no temporary file
      that it did not hold before. */
  lemma NothingLeftBehind(cfg: ServerConfig, fs: FileSystem, events: Events, id: uint64)
    requires Orderly(cfg, fs, events)
    ensures TempPath(cfg.session.directory, id) in Closed(TableAfter(cfg, fs, events)).fs ==>
              TempPath(cfg.session.directory, id) in fs
  {
    hide TempPath, TableAfter;
    RunOwned(cfg, fs, events);
    var t := TableAfter(cfg, fs, events);
    EraseOwned(cfg, fs, t, t.sessions.Keys);
    assert Closed(t).sessions == map[];
  }
}
