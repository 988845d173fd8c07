/** No session can tell that it shares the process and the directory with others: as long as
    none is opened under an id that is in use or under a temporary name, each one behaves as if
    it were alone. */
module ServerProjection {
  import opened Common
  import opened Packets
  import opened Files
  import opened Filenames
  import opened ReceiverWindows
  import opened Sessions
  import opened SessionSafety
  import opened Servers
  import opened ServerRuns

  // ------------------------------------------------------------------------
  // What a session sees
  // ------------------------------------------------------------------------

  /** The key and the packet of an event, when it is a readable datagram. */
  function Carried(e: Event): Option<(Key, Packet)> {
    if e.Datagram? && Serializer.Decode(e.bytes).Ok?
    then Some((KeyOf(e, Serializer.Decode(e.bytes).value), Serializer.Decode(e.bytes).value)) else None
  }

  predicate IsFor(e: Event, key: Key) {
    Carried(e).Some? && Carried(e).value.0 == key
  }

  /** What the session now under this key has been handed since it was admitted. */
  function Fed(cfg: ServerConfig, fs: FileSystem, events: Events, key: Key): seq<Input> {
    if events == [] then []
    else
      var front := events[..|events| - 1];
      var e := events[|events| - 1];
      if key !in TableAfter(cfg, fs, events).sessions then []
      else
        (if key in TableAfter(cfg, fs, front).sessions then Fed(cfg, fs, front, key) else []) +
        (if IsFor(e, key) then [Input(Carried(e).value.1, e.io)] else [])
  }

  /** What it has answered since. */
  function Answers(cfg: ServerConfig, fs: FileSystem, events: Events, key: Key): seq<Reply> {
    if events == [] then []
    else
      var front := events[..|events| - 1];
      var e := events[|events| - 1];
      if key !in TableAfter(cfg, fs, events).sessions then []
      else
        (if key in TableAfter(cfg, fs, front).sessions then Answers(cfg, fs, front, key) else []) +
        (if IsFor(e, key) then [Step(cfg, TableAfter(cfg, fs, front), e).reply] else [])
  }

  ghost predicate PlainName(p: Packet) {
    p.header.packetType == Start && Sanitize(p.payload).Ok? ==> !Reserved(Sanitize(p.payload).value)
  }

  /** Two disks that agree on a session's unpublished temporary file. */
  ghost predicate SameTemp(a: FileSystem, b: FileSystem, s: State) {
    s.started && !s.published ==>
      (s.tempPath in a <==> s.tempPath in b) && FileAt(a, s.tempPath) == FileAt(b, s.tempPath)
  }

  /** The same state and answer, and still the same temporary file. */
  ghost predicate SameOutcome(x: Outcome, y: Outcome) {
    x.state == y.state && x.reply == y.reply && SameTemp(x.fs, y.fs, x.state)
  }

  lemma StartLooks(cfg: Config, a: FileSystem, b: FileSystem, s: State, p: Packet, io: Io)
    requires SameTemp(a, b, s)
    ensures SameOutcome(OnStart(cfg, a, s, p, io), OnStart(cfg, b, s, p, io))
  {
    hide Sanitize, JoinPath, TempPath, ToByte, StatusByte;
  }

  lemma DataLooks(a: FileSystem, b: FileSystem, s: State, p: Packet, io: Io)
    requires SameTemp(a, b, s) && s.started && !s.published
    ensures SameOutcome(OnData(a, s, p, io), OnData(b, s, p, io))
  {
    hide Classify, Mark, WriteAt, WriteCompletes, ToByte, StatusByte;
  }

  lemma FinLooks(cfg: Config, a: FileSystem, b: FileSystem, s: State, p: Packet, io: Io)
    requires SameTemp(a, b, s) && s.started && !s.published
    ensures SameOutcome(OnFin(cfg, a, s, p, io), OnFin(cfg, b, s, p, io))
  {
    hide ReadsComplete, ToByte, StatusByte, Rename;
  }

  lemma DispatchLooks(cfg: Config, a: FileSystem, b: FileSystem, s: State, p: Packet, io: Io)
    requires SameTemp(a, b, s) && !s.published
    ensures SameOutcome(Dispatch(cfg, a, s, p, io), Dispatch(cfg, b, s, p, io))
  {
    hide OnStart, OnData, OnFin, FileAt, ToByte, StatusByte;
    StartLooks(cfg, a, b, s, p, io);
    if s.started {
      DataLooks(a, b, s, p, io);
      FinLooks(cfg, a, b, s, p, io);
    }
  }

  /** A session looks at nothing on the disk but its own temporary file. */
  lemma LooksOnlyAtTemp(cfg: Config, a: FileSystem, b: FileSystem, s: State, p: Packet, io: Io)
    requires WellFormedState(cfg, s) && SameTemp(a, b, s)
    ensures SameOutcome(HandlePacket(cfg, a, s, p, io), HandlePacket(cfg, b, s, p, io))
  {
    hide Dispatch, CountsAgree, FileAt;
    if !s.finished {
      DispatchLooks(cfg, a, b, s.(stats := s.stats.(packetsReceived := s.stats.packetsReceived + 1)), p, io);
    }
  }

  /** Where a session may write: its own temporary path, or the output path it publishes to. */
  ghost predicate OwnPaths(cfg: Config, id: uint64, s: State) {
    && (s.started ==> s.sessionId == id)
    && (s.tempPath == [] || s.tempPath == TempPath(cfg.directory, id))
    && (s.outputPath == [] || exists name :: !Reserved(name) && s.outputPath == JoinPath(cfg.directory, name))
    && (s.started ==> s.tempPath != [] && s.outputPath != [])
  }

  lemma StartOwnPaths(cfg: Config, fs: FileSystem, s: State, p: Packet, io: Io)
    requires OwnPaths(cfg, p.header.sessionId, s) && PlainName(p) && p.header.packetType == Start
    ensures OwnPaths(cfg, p.header.sessionId, OnStart(cfg, fs, s, p, io).state)
  {
    hide Reserved, Sanitize, JoinPath, TempPath, ToByte, StatusByte;
    TempPathNotEmpty(cfg.directory, p.header.sessionId);
    if Sanitize(p.payload).Ok? {
      var name := Sanitize(p.payload).value;
      JoinNotEmpty(cfg.directory, p.payload);
      assert !Reserved(name) && JoinPath(cfg.directory, name) == JoinPath(cfg.directory, name);
    }
  }

  lemma JoinNotEmpty(directory: Path, raw: seq<byte>)
    requires Sanitize(raw).Ok?
    ensures JoinPath(directory, Sanitize(raw).value) != []
  {
    SanitizedIsBare(raw);
    hide Sanitize;
  }

  lemma DataKeepsPlace(fs: FileSystem, s: State, p: Packet, io: Io)
    ensures SamePlace(s, OnData(fs, s, p, io).state)
  {
    hide Classify, Mark, WriteAt, WriteCompletes, ToByte, StatusByte, FileAt;
  }

  lemma FinKeepsPlace(cfg: Config, fs: FileSystem, s: State, p: Packet, io: Io)
    ensures SamePlace(s, OnFin(cfg, fs, s, p, io).state)
  {
    hide ToByte, StatusByte, ReadsComplete, Rename, RenameCompletes, FileAt;
  }

  ghost predicate SamePlace(s: State, t: State) {
    t.sessionId == s.sessionId && t.tempPath == s.tempPath && t.outputPath == s.outputPath && t.started == s.started
  }

  lemma HandleOwnPaths(cfg: Config, fs: FileSystem, s: State, p: Packet, io: Io)
    requires OwnPaths(cfg, p.header.sessionId, s) && (PlainName(p) || Placed(s))
    ensures OwnPaths(cfg, p.header.sessionId, HandlePacket(cfg, fs, s, p, io).state)
  {
    hide OnStart, OnData, OnFin, PlainName, JoinPath, TempPath, Reserved, ToByte, StatusByte;
    var counted := s.(stats := s.stats.(packetsReceived := s.stats.packetsReceived + 1));
    DataKeepsPlace(fs, counted, p, io);
    FinKeepsPlace(cfg, fs, counted, p, io);
    if p.header.packetType == Start {
      if s.started {
        StartKeepsPlace(cfg, fs, counted, p, io);
      } else if !s.finished {
        StartOwnPaths(cfg, fs, counted, p, io);
      }
    }
  }

  /** A session has its paths for good once its first packet has been handled. */
  predicate Placed(s: State) {
    s.started || s.finished
  }

  lemma StartKeepsPlace(cfg: Config, fs: FileSystem, s: State, p: Packet, io: Io)
    requires s.started
    ensures SamePlace(s, OnStart(cfg, fs, s, p, io).state)
  {
    hide ToByte, StatusByte;
  }

  lemma HandlePlaces(cfg: Config, fs: FileSystem, s: State, p: Packet, io: Io)
    requires Placed(s) || p.header.packetType == Start
    ensures Placed(HandlePacket(cfg, fs, s, p, io).state)
  {
    hide OnData, OnFin, Sanitize, JoinPath, TempPath, ToByte, StatusByte;
    var counted := s.(stats := s.stats.(packetsReceived := s.stats.packetsReceived + 1));
    DataKeepsPlace(fs, counted, p, io);
    FinKeepsPlace(cfg, fs, counted, p, io);
  }

  /** A session writes nowhere else. */
  lemma WritesOnlyOwn(cfg: Config, fs: FileSystem, s: State, p: Packet, io: Io, path: Path)
    requires WellFormedState(cfg, s)
    requires var t := HandlePacket(cfg, fs, s, p, io).state; path != t.tempPath && path != t.outputPath
    ensures var o := HandlePacket(cfg, fs, s, p, io);
            (path in o.fs <==> path in fs) && FileAt(o.fs, path) == FileAt(fs, path)
  {
    hide CountsAgree, Classify, Mark, WriteAt, WriteCompletes, Sanitize, JoinPath, TempPath, ToByte,
      StatusByte, ReadsComplete, RenameCompletes;
  }

  // ------------------------------------------------------------------------
  // One step of the table, seen from another session
  // ------------------------------------------------------------------------

  /** Every session keeps to its own paths, and no two share an id. */
  ghost predicate TableOwn(cfg: ServerConfig, sessions: map<Key, Entry>) {
    && (forall k <- sessions :: OwnPaths(cfg.session, k.sessionId, sessions[k].session))
    && (forall j <- sessions, k <- sessions :: j.sessionId == k.sessionId ==> j == k)
  }

  ghost predicate SameAt(a: FileSystem, b: FileSystem, path: Path) {
    (path in a <==> path in b) && FileAt(a, path) == FileAt(b, path)
  }

  /** Neither the session under this key nor its temporary file has changed. */
  ghost predicate Undisturbed(cfg: ServerConfig, t: Table, u: Table, key: Key) {
    && key in t.sessions && key in u.sessions && u.sessions[key].session == t.sessions[key].session
    && SameAt(u.fs, t.fs, TempPath(cfg.session.directory, key.sessionId))
  }

  lemma EraseOwn(cfg: ServerConfig, t: Table, gone: set<Key>)
    requires TableOwn(cfg, t.sessions)
    ensures TableOwn(cfg, Erase(t, gone).sessions)
  {
    hide OwnPaths, Temps;
  }

  /** Destroying some sessions removes no other session's temporary file. */
  lemma EraseUndisturbed(cfg: ServerConfig, t: Table, gone: set<Key>, key: Key)
    requires TableOwn(cfg, t.sessions) && key in t.sessions && key !in gone
    ensures Undisturbed(cfg, t, Erase(t, gone), key)
  {
    hide TempPath, JoinPath, Reserved;
    var path := TempPath(cfg.session.directory, key.sessionId);
    forall k | k in gone && k in t.sessions ensures t.sessions[k].session.tempPath != path {
      TempPathsDiffer(cfg.session.directory, k.sessionId, key.sessionId);
      TempPathNotEmpty(cfg.session.directory, key.sessionId);
    }
    assert path !in Temps(t.sessions, gone);
  }

  lemma OwnPathsApart(cfg: Config, s: State, a: uint64, b: uint64)
    requires OwnPaths(cfg, a, s) && a != b
    ensures TempPath(cfg.directory, b) != s.tempPath && TempPath(cfg.directory, b) != s.outputPath
  {
    hide TempPath, JoinPath;
    TempPathsDiffer(cfg.directory, a, b);
    TempPathNotEmpty(cfg.directory, b);
    if s.outputPath != [] {
      var name :| !Reserved(name) && s.outputPath == JoinPath(cfg.directory, name);
      OutputHitsTemp(cfg.directory, name, b);
    }
  }

  /** The session a packet is handed to. */
  lemma ServedEntry(cfg: ServerConfig, t: Table, key: Key, p: Packet, now: Time, settledAt: Time, io: Io)
    requires key in t.sessions
    ensures var turn := Serve(cfg, t, key, p, now, settledAt, io);
            var o := HandlePacket(cfg.session, t.fs, t.sessions[key].session, p, io);
            && turn.table.sessions == t.sessions[key := turn.table.sessions[key]]
            && turn.table.sessions[key].session == o.state && turn.table.fs == o.fs && turn.reply == o.reply
  {
    hide HandlePacket;
  }

  /** Everyone in the table, except perhaps the session about to be served, has its paths. */
  ghost predicate PlacedBut(sessions: map<Key, Entry>, key: Key) {
    forall k <- sessions :: k != key ==> Placed(sessions[k].session)
  }

  ghost predicate AllPlaced(sessions: map<Key, Entry>) {
    forall k <- sessions :: Placed(sessions[k].session)
  }

  /** What this packet may do to the session under its key: nothing about its paths, or to
      choose them for the first time, plainly. */
  ghost predicate Proper(sessions: map<Key, Entry>, key: Key, p: Packet) {
    && key in sessions && p.header.sessionId == key.sessionId
    && (Placed(sessions[key].session) || (PlainName(p) && p.header.packetType == Start))
  }

  lemma ServeOwn(cfg: ServerConfig, t: Table, key: Key, p: Packet, now: Time, settledAt: Time, io: Io)
    requires TableOwn(cfg, t.sessions) && PlacedBut(t.sessions, key) && Proper(t.sessions, key, p)
    ensures var u := Serve(cfg, t, key, p, now, settledAt, io).table;
            TableOwn(cfg, u.sessions) && AllPlaced(u.sessions)
  {
    hide HandlePacket, OwnPaths, PlainName, Serve;
    ServedEntry(cfg, t, key, p, now, settledAt, io);
    HandleOwnPaths(cfg.session, t.fs, t.sessions[key].session, p, io);
    HandlePlaces(cfg.session, t.fs, t.sessions[key].session, p, io);
  }

  /** A packet for one session disturbs no other. */
  lemma ServeUndisturbed(cfg: ServerConfig, t: Table, key: Key, p: Packet, now: Time, settledAt: Time, io: Io,
                         other: Key)
    requires other in t.sessions && key != other
    requires TableOwn(cfg, t.sessions) && EntriesKept(cfg, t.sessions) && Proper(t.sessions, key, p)
    ensures Undisturbed(cfg, t, Serve(cfg, t, key, p, now, settledAt, io).table, other)
  {
    hide HandlePacket, OwnPaths, PlainName, Serve, WellFormedState, TempPath, FileAt;
    ServedEntry(cfg, t, key, p, now, settledAt, io);
    var s := t.sessions[key].session;
    HandleOwnPaths(cfg.session, t.fs, s, p, io);
    OwnPathsApart(cfg.session, HandlePacket(cfg.session, t.fs, s, p, io).state, key.sessionId, other.sessionId);
    assert EntryKept(cfg, t.sessions[key]);
    WritesOnlyOwn(cfg.session, t.fs, s, p, io, TempPath(cfg.session.directory, other.sessionId));
  }

  lemma FreshOwn(cfg: ServerConfig, id: uint64, now: Time)
    ensures OwnPaths(cfg.session, id, Opened(cfg, now).session)
  {
  }

  lemma RoomOwn(cfg: ServerConfig, t: Table)
    requires TableOwn(cfg, t.sessions)
    ensures TableOwn(cfg, Room(cfg, t).sessions)
  {
    hide TableOwn, Erase;
    EraseOwn(cfg, t, Lingering(t.sessions));
  }

  /** The id is new to the table. */
  ghost predicate NewId(sessions: map<Key, Entry>, key: Key) {
    forall k <- sessions :: k.sessionId == key.sessionId ==> k == key
  }

  lemma AdmitOwn(cfg: ServerConfig, t: Table, key: Key, now: Time)
    requires TableOwn(cfg, t.sessions) && AllPlaced(t.sessions) && NewId(Room(cfg, t).sessions, key)
    ensures var u := Admit(cfg, t, key, now); TableOwn(cfg, u.sessions) && PlacedBut(u.sessions, key)
  {
    hide OwnPaths, Room, Opened, Placed;
    FreshOwn(cfg, key.sessionId, now);
    RoomOwn(cfg, t);
    RoomPlaced(cfg, t);
  }

  lemma RoomPlaced(cfg: ServerConfig, t: Table)
    requires AllPlaced(t.sessions)
    ensures AllPlaced(Room(cfg, t).sessions)
  {
    hide Placed, Temps;
  }

  lemma AdmitUndisturbed(cfg: ServerConfig, t: Table, key: Key, now: Time, other: Key)
    requires TableOwn(cfg, t.sessions) && other in Admit(cfg, t, key, now).sessions && other != key
    ensures Undisturbed(cfg, t, Admit(cfg, t, key, now), other)
  {
    hide OwnPaths, TempPath, Erase, Opened;
    EraseKeepsActive(t, Lingering(t.sessions));
    if other !in Lingering(t.sessions) && other in t.sessions {
      EraseUndisturbed(cfg, t, Lingering(t.sessions), other);
    }
  }

  lemma Transitive(cfg: ServerConfig, t: Table, u: Table, v: Table, key: Key)
    requires Undisturbed(cfg, t, u, key) && Undisturbed(cfg, u, v, key)
    ensures Undisturbed(cfg, t, v, key)
  {
    hide TempPath;
  }

  // ------------------------------------------------------------------------
  // One event
  // ------------------------------------------------------------------------

  /** The packet opens a session. */
  predicate Opens(cfg: ServerConfig, t: Table, key: Key, p: Packet) {
    key !in t.sessions && p.header.packetType == Start && !Refuses(cfg, t)
  }

  /** If the event opens a session, then under an id that nobody left in the table uses, and
      not under a temporary name. Nothing is asked of any other event. */
  ghost predicate Fitting(cfg: ServerConfig, t: Table, e: Event) {
    match Carried(e)
    case None => true
    case Some((key, p)) => Opens(cfg, t, key, p) ==> PlainName(p) && NewId(Room(cfg, t).sessions, key)
  }

  /** The table in which a packet for this key is served. */
  function Ready(cfg: ServerConfig, t: Table, key: Key, now: Time): Table {
    if key in t.sessions then t else Admit(cfg, t, key, now)
  }

  /** A packet either is served, or leaves sessions and files alone. */
  lemma PacketCases(cfg: ServerConfig, t: Table, key: Key, p: Packet, now: Time, settledAt: Time, io: Io)
    ensures key in Ready(cfg, t, key, now).sessions
    ensures var turn := OnPacket(cfg, t, key, p, now, settledAt, io);
            if key in t.sessions || Opens(cfg, t, key, p)
            then turn == Serve(cfg, Ready(cfg, t, key, now), key, p, now, settledAt, io)
            else turn.table.sessions == t.sessions && turn.table.fs == t.fs
  {
    hide Serve, Admit, Refuses, Busy;
    Admitted(cfg, t, key, now);
  }

  lemma EventCases(cfg: ServerConfig, t: Table, e: Event)
    ensures match Carried(e)
            case None => e.Tick? || Step(cfg, t, e).table == t
            case Some((key, p)) =>
              && e.Datagram? && key.sessionId == p.header.sessionId && |p.payload| <= MAX_PAYLOAD_SIZE
              && Step(cfg, t, e) == OnPacket(cfg, t, key, p, e.now, e.settledAt, e.io)
  {
    hide OnPacket, Serializer.Decode, Swept;
    if Carried(e).Some? {
      Serializer.EncodeDecode(e.bytes);
    }
  }

  lemma ReadyOwn(cfg: ServerConfig, t: Table, key: Key, p: Packet, now: Time)
    requires TableOwn(cfg, t.sessions) && AllPlaced(t.sessions) && p.header.sessionId == key.sessionId
    requires key in t.sessions || (Opens(cfg, t, key, p) && PlainName(p) && NewId(Room(cfg, t).sessions, key))
    ensures var u := Ready(cfg, t, key, now).sessions;
            TableOwn(cfg, u) && PlacedBut(u, key) && Proper(u, key, p)
  {
    hide TableOwn, NewId, Admit, Placed, PlainName, Refuses;
    if key !in t.sessions {
      AdmitOwn(cfg, t, key, now);
      Admitted(cfg, t, key, now);
    }
  }

  lemma SweptIsErased(cfg: ServerConfig, t: Table, now: Time)
    ensures var gone := IdleKeys(cfg, t.sessions, now) + RetiredKeys(cfg, t.sessions, now);
            Swept(cfg, t, now).sessions == Erase(t, gone).sessions && Swept(cfg, t, now).fs == Erase(t, gone).fs
  {
    hide IdleKeys, RetiredKeys, Temps;
  }

  lemma EraseStaysPlaced(t: Table, gone: set<Key>)
    requires AllPlaced(t.sessions)
    ensures AllPlaced(Erase(t, gone).sessions)
  {
    hide Placed, Temps;
  }

  lemma StepOwn(cfg: ServerConfig, t: Table, e: Event)
    requires TableOwn(cfg, t.sessions) && AllPlaced(t.sessions) && Fitting(cfg, t, e)
    ensures var u := Step(cfg, t, e).table; TableOwn(cfg, u.sessions) && AllPlaced(u.sessions)
  {
    hide TableOwn, AllPlaced, Carried, Swept, OnPacket, Serve, NewId, PlainName, Ready, Erase, IdleKeys,
      RetiredKeys, Serializer.Decode, Opens, Room;
    EventCases(cfg, t, e);
    match Carried(e)
    case None =>
      if e.Tick? {
        SweptIsErased(cfg, t, e.now);
        EraseOwn(cfg, t, IdleKeys(cfg, t.sessions, e.now) + RetiredKeys(cfg, t.sessions, e.now));
        EraseStaysPlaced(t, IdleKeys(cfg, t.sessions, e.now) + RetiredKeys(cfg, t.sessions, e.now));
      }
    case Some((key, p)) =>
      PacketCases(cfg, t, key, p, e.now, e.settledAt, e.io);
      if key in t.sessions || Opens(cfg, t, key, p) {
        ReadyOwn(cfg, t, key, p, e.now);
        ServeOwn(cfg, Ready(cfg, t, key, e.now), key, p, e.now, e.settledAt, e.io);
      }
  }

  lemma TickUndisturbed(cfg: ServerConfig, t: Table, now: Time, key: Key)
    requires TableOwn(cfg, t.sessions) && key in Swept(cfg, t, now).sessions
    ensures Undisturbed(cfg, t, Swept(cfg, t, now), key)
  {
    hide TableOwn, IdleKeys, RetiredKeys, TempPath, Temps;
    SweptIsErased(cfg, t, now);
    EraseUndisturbed(cfg, t, IdleKeys(cfg, t.sessions, now) + RetiredKeys(cfg, t.sessions, now), key);
  }

  /** Serving one key, whether it was there or is admitted now, disturbs no other. */
  lemma ReadyUndisturbed(cfg: ServerConfig, t: Table, key: Key, now: Time, other: Key)
    requires TableOwn(cfg, t.sessions) && other in Ready(cfg, t, key, now).sessions && other != key
    ensures Undisturbed(cfg, t, Ready(cfg, t, key, now), other)
  {
    hide TableOwn, TempPath, Admit, FileAt;
    if key !in t.sessions {
      AdmitUndisturbed(cfg, t, key, now, other);
    }
  }

  lemma ReadyKept(cfg: ServerConfig, t: Table, key: Key, now: Time)
    requires EntriesKept(cfg, t.sessions)
    ensures EntriesKept(cfg, Ready(cfg, t, key, now).sessions)
  {
    hide EntryKept, Erase, Opened, Lingering;
    FreshKept(cfg, now);
    EraseKeepsEntries(cfg, t, Lingering(t.sessions));
  }

  /** An event for one key disturbs no other session. */
  lemma OthersUndisturbed(cfg: ServerConfig, t: Table, e: Event, other: Key)
    requires TableOwn(cfg, t.sessions) && AllPlaced(t.sessions) && EntriesKept(cfg, t.sessions) && Fitting(cfg, t, e)
    requires !IsFor(e, other) && other in Step(cfg, t, e).table.sessions
    ensures Undisturbed(cfg, t, Step(cfg, t, e).table, other)
  {
    hide TableOwn, AllPlaced, EntriesKept, Carried, Swept, OnPacket, Serve, NewId, PlainName, Ready, TempPath,
      FileAt, Serializer.Decode, Opens, Room, PlacedBut, Proper;
    EventCases(cfg, t, e);
    match Carried(e)
    case None =>
      if e.Tick? {
        TickUndisturbed(cfg, t, e.now, other);
      }
    case Some((key, p)) =>
      PacketCases(cfg, t, key, p, e.now, e.settledAt, e.io);
      if key in t.sessions || Opens(cfg, t, key, p) {
        var ready := Ready(cfg, t, key, e.now);
        var served := Serve(cfg, ready, key, p, e.now, e.settledAt, e.io);
        ServedKeys(cfg, ready, key, p, e.now, e.settledAt, e.io);
        ReadyOwn(cfg, t, key, p, e.now);
        ReadyKept(cfg, t, key, e.now);
        ReadyUndisturbed(cfg, t, key, e.now, other);
        ServeUndisturbed(cfg, ready, key, p, e.now, e.settledAt, e.io, other);
        Transitive(cfg, t, ready, served.table, other);
      }
  }

  // ------------------------------------------------------------------------
  // Whole runs
  // ------------------------------------------------------------------------

  /** The session under this key is where a lone session would be that had been handed
      `inputs`, on any disk; it has answered the same, and its temporary file is the same. */
  ghost predicate Alone(cfg: ServerConfig, t: Table, disk: FileSystem, key: Key, inputs: seq<Input>,
                        replies: seq<Reply>) {
    var lone := RunOf(cfg.session, disk, inputs);
    && key in t.sessions && lone.state == t.sessions[key].session && lone.replies == replies
    && Decodable(inputs) && SameTemp(t.fs, lone.fs, lone.state)
  }

  lemma FreshAlone(cfg: ServerConfig, t: Table, disk: FileSystem, key: Key, now: Time)
    ensures Alone(cfg, Admit(cfg, t, key, now), disk, key, [], [])
  {
    hide Room;
    Admitted(cfg, t, key, now);
  }

  lemma ServeAlone(cfg: ServerConfig, t: Table, disk: FileSystem, key: Key, inputs: seq<Input>, replies: seq<Reply>,
                   p: Packet, now: Time, settledAt: Time, io: Io)
    requires Alone(cfg, t, disk, key, inputs, replies) && |p.payload| <= MAX_PAYLOAD_SIZE
    ensures var turn := Serve(cfg, t, key, p, now, settledAt, io);
            Alone(cfg, turn.table, disk, key, inputs + [Input(p, io)], replies + [turn.reply])
  {
    hide HandlePacket, Serve, RunOf, WellFormedState, SameTemp;
    ServedEntry(cfg, t, key, p, now, settledAt, io);
    RunWellFormed(cfg.session, disk, inputs);
    var lone := RunOf(cfg.session, disk, inputs);
    LooksOnlyAtTemp(cfg.session, t.fs, lone.fs, lone.state, p, io);
    var all := inputs + [Input(p, io)];
    assert all[..|inputs|] == inputs && all[..|inputs| + 1] == all;
    RunStep(cfg.session, disk, all, |inputs|);
  }

  /** Being undisturbed keeps a session as if alone. */
  lemma StaysAlone(cfg: ServerConfig, t: Table, u: Table, disk: FileSystem, key: Key, inputs: seq<Input>,
                   replies: seq<Reply>)
    requires Alone(cfg, t, disk, key, inputs, replies) && Undisturbed(cfg, t, u, key)
    requires OwnPaths(cfg.session, key.sessionId, t.sessions[key].session)
    ensures Alone(cfg, u, disk, key, inputs, replies)
  {
    hide RunOf, TempPath, FileAt;
  }

  lemma StepAlone(cfg: ServerConfig, t: Table, e: Event, disk: FileSystem, key: Key, inputs: seq<Input>,
                  replies: seq<Reply>)
    requires TableOwn(cfg, t.sessions) && AllPlaced(t.sessions) && EntriesKept(cfg, t.sessions) && Fitting(cfg, t, e)
    requires key in Step(cfg, t, e).table.sessions
    requires if key in t.sessions then Alone(cfg, t, disk, key, inputs, replies) else inputs == [] && replies == []
    ensures var turn := Step(cfg, t, e);
            if IsFor(e, key)
            then Alone(cfg, turn.table, disk, key, inputs + [Input(Carried(e).value.1, e.io)], replies + [turn.reply])
            else Alone(cfg, turn.table, disk, key, inputs, replies)
  {
    hide Alone, EntriesKept, AllPlaced, Carried, Step, OnPacket, Serve, Fitting, OwnPaths, Admit,
      Serializer.Decode, TempPath, Opens;
    if IsFor(e, key) {
      EventCases(cfg, t, e);
      var p := Carried(e).value.1;
      PacketCases(cfg, t, key, p, e.now, e.settledAt, e.io);
      if key !in t.sessions {
        FreshAlone(cfg, t, disk, key, e.now);
      }
      ServeAlone(cfg, Ready(cfg, t, key, e.now), disk, key, inputs, replies, p, e.now, e.settledAt, e.io);
    } else {
      OthersUndisturbed(cfg, t, e, key);
      StaysAlone(cfg, t, Step(cfg, t, e).table, disk, key, inputs, replies);
    }
  }

  lemma OneMore(cfg: ServerConfig, fs: FileSystem, events: Events, e: Event, key: Key)
    ensures var t := TableAfter(cfg, fs, events);
            var all := events + [e];
            && TableAfter(cfg, fs, all) == Step(cfg, t, e).table
            && (key in Step(cfg, t, e).table.sessions ==>
                  var inputs := if key in t.sessions then Fed(cfg, fs, events, key) else [];
                  var replies := if key in t.sessions then Answers(cfg, fs, events, key) else [];
                  if IsFor(e, key)
                  then Fed(cfg, fs, all, key) == inputs + [Input(Carried(e).value.1, e.io)] &&
                       Answers(cfg, fs, all, key) == replies + [Step(cfg, t, e).reply]
                  else Fed(cfg, fs, all, key) == inputs && Answers(cfg, fs, all, key) == replies)
  {
    hide Step, IsFor, Carried;
    var all := events + [e];
    assert all[..|all| - 1] == events;
  }

  lemma OneMoreAlone(cfg: ServerConfig, fs: FileSystem, disk: FileSystem, events: Events, e: Event, key: Key)
    requires var t := TableAfter(cfg, fs, events);
             TableOwn(cfg, t.sessions) && AllPlaced(t.sessions) && EntriesKept(cfg, t.sessions) && Fitting(cfg, t, e) &&
             (key in t.sessions ==> Alone(cfg, t, disk, key, Fed(cfg, fs, events, key), Answers(cfg, fs, events, key)))
    requires key in TableAfter(cfg, fs, events + [e]).sessions
    ensures var all := events + [e];
            Alone(cfg, TableAfter(cfg, fs, all), disk, key, Fed(cfg, fs, all, key), Answers(cfg, fs, all, key))
  {
    hide *;
    OneMore(cfg, fs, events, e, key);
    var t := TableAfter(cfg, fs, events);
    StepAlone(cfg, t, e, disk, key,
              if key in t.sessions then Fed(cfg, fs, events, key) else [],
              if key in t.sessions then Answers(cfg, fs, events, key) else []);
  }

  lemma RunEntriesKept(cfg: ServerConfig, fs: FileSystem, events: Events)
    ensures EntriesKept(cfg, TableAfter(cfg, fs, events).sessions)
  {
    hide TableAfter, EntriesKept, Accounted, Bounded;
    RunKept(cfg, fs, events);
  }

  /** No session of the run was opened under an id in use or under a temporary name. */
  ghost predicate Orderly(cfg: ServerConfig, fs: FileSystem, events: Events) {
    events == [] ||
    var front := events[..|events| - 1];
    Orderly(cfg, fs, front) && Fitting(cfg, TableAfter(cfg, fs, front), events[|events| - 1])
  }

  /** Projection: in every orderly run of the server every session in the table has the state,
      the answers and the temporary file of a lone session that was handed only this key's
      packets since it was admitted. */
  lemma {:induction false} EachSessionIsAlone(cfg: ServerConfig, fs: FileSystem, disk: FileSystem, events: Events)
    requires Orderly(cfg, fs, events)
    ensures var t := TableAfter(cfg, fs, events);
            && TableOwn(cfg, t.sessions) && AllPlaced(t.sessions)
            && forall key <- t.sessions ::
                 Alone(cfg, t, disk, key, Fed(cfg, fs, events, key), Answers(cfg, fs, events, key))
    decreases |events|
  {
    if events != [] {
      hide TableAfter, TableOwn, AllPlaced, Alone, Fed, Answers, Fitting, Step, EntriesKept;
      var front := events[..|events| - 1];
      var e := events[|events| - 1];
      assert events == front + [e];
      EachSessionIsAlone(cfg, fs, disk, front);
      var t := TableAfter(cfg, fs, front);
      RunEntriesKept(cfg, fs, front);
      StepOwn(cfg, t, e);
      OneMore(cfg, fs, front, e, Key([], 0, 0));
      forall key <- TableAfter(cfg, fs, events).sessions
        ensures Alone(cfg, TableAfter(cfg, fs, events), disk, key, Fed(cfg, fs, events, key),
                      Answers(cfg, fs, events, key))
      {
        OneMoreAlone(cfg, fs, disk, front, e, key);
      }
    }
  }

  /** At most one of the packets a session was handed published it, and one did exactly when
      it is published. */
  ghost predicate PublishedByOne(cfg: Config, disk: FileSystem, inputs: seq<Input>, published: bool) {
    && (published <==> exists i :: 0 <= i < |inputs| && PublishedAt(cfg, disk, inputs, i))
    && (forall i, j | 0 <= i < |inputs| && 0 <= j < |inputs| ::
          PublishedAt(cfg, disk, inputs, i) && PublishedAt(cfg, disk, inputs, j) ==> i == j)
  }

  /** So what holds of a lone session holds here: a session of the server is published exactly
      when one of the packets it was handed is a FIN that the prefix it stored bears out. */
  lemma PublishedInCompany(cfg: ServerConfig, fs: FileSystem, events: Events, key: Key)
    requires Orderly(cfg, fs, events) && key in TableAfter(cfg, fs, events).sessions
    ensures PublishedByOne(cfg.session, fs, Fed(cfg, fs, events, key),
                           TableAfter(cfg, fs, events).sessions[key].session.published)
  {
    hide *;
    EachSessionIsAlone(cfg, fs, fs, events);
    PublishedAlone(cfg, TableAfter(cfg, fs, events), fs, key, Fed(cfg, fs, events, key), Answers(cfg, fs, events, key));
  }

  lemma PublishedAlone(cfg: ServerConfig, t: Table, disk: FileSystem, key: Key, inputs: seq<Input>, replies: seq<Reply>)
    requires Alone(cfg, t, disk, key, inputs, replies) && key in t.sessions
    ensures PublishedByOne(cfg.session, disk, inputs, t.sessions[key].session.published)
  {
    hide RunOf, SameTemp, PublishedAt;
    PublishedOnce(cfg.session, disk, inputs);
  }
}
