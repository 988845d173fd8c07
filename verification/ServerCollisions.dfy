/** What happens to a session when another is opened under its id or its temporary name: the
    server admits both, and the first one no longer behaves as if it were alone. */
module ServerCollisions {
  import opened Common
  import opened Packets
  import opened Files
  import opened Filenames
  import opened ReceiverWindows
  import opened Sessions
  import opened SessionSafety
  import opened Servers
  import opened ServerRuns
  import opened ServerProjection
  import Serializer

  // ------------------------------------------------------------------------
  // Packets as events
  // ------------------------------------------------------------------------

  /** A packet that reaches the server from the peer of this key, at a time when all calls work. */
  function Sends(key: Key, p: Packet, now: Time): Event {
    Datagram(key.address, key.port, Serializer.Encode(p.header, p.payload), now, now, ALL_WORKS)
  }

  predicate Readable(key: Key, p: Packet) {
    Serializer.ValidHeader(p.header) && |p.payload| <= MAX_PAYLOAD_SIZE && p.header.sessionId == key.sessionId
  }

  function Arrived(p: Packet): Packet
    requires |p.payload| <= MAX_PAYLOAD_SIZE
  {
    Serializer.Sent(p.header, p.payload)
  }

  lemma SendsCarry(key: Key, p: Packet, now: Time)
    requires Readable(key, p)
    ensures Carried(Sends(key, p, now)) == Some((key, Arrived(p)))
    ensures forall other :: IsFor(Sends(key, p, now), other) <==> other == key
  {
    hide Serializer.Decode, Serializer.Encode, Serializer.ChecksumOf, Serializer.ValidHeader;
    Serializer.DecodeEncode(p.header, p.payload);
  }

  lemma ArrivedKeeps(p: Packet)
    requires |p.payload| <= MAX_PAYLOAD_SIZE
    ensures var q := Arrived(p);
            && q.payload == p.payload && q.header.packetType == p.header.packetType
            && q.header.sessionId == p.header.sessionId && q.header.sequenceNumber == p.header.sequenceNumber
            && q.header.byteOffset == p.header.byteOffset
  {
    hide Serializer.ChecksumOf;
  }

  /** How a packet that is served moves the table. */
  lemma SendsServed(cfg: ServerConfig, t: Table, key: Key, p: Packet, now: Time)
    requires Readable(key, p) && (key in t.sessions || Opens(cfg, t, key, Arrived(p)))
    ensures var u := Step(cfg, t, Sends(key, p, now)).table;
            var ready := Ready(cfg, t, key, now);
            && key in ready.sessions
            && var o := HandlePacket(cfg.session, ready.fs, ready.sessions[key].session, Arrived(p), ALL_WORKS);
               && u.sessions.Keys == ready.sessions.Keys && u.sessions[key].session == o.state && u.fs == o.fs
               && forall k <- ready.sessions :: k != key ==> u.sessions[k] == ready.sessions[k]
  {
    hide Step, OnPacket, Serve, Carried, IsFor, HandlePacket, Serializer.Encode, Opens, Ready, Arrived;
    SendsCarry(key, p, now);
    var e := Sends(key, p, now);
    EventCases(cfg, t, e);
    PacketCases(cfg, t, key, Arrived(p), now, now, ALL_WORKS);
    ServedEntry(cfg, Ready(cfg, t, key, now), key, Arrived(p), now, now, ALL_WORKS);
    ServedKeys(cfg, Ready(cfg, t, key, now), key, Arrived(p), now, now, ALL_WORKS);
  }

  // ------------------------------------------------------------------------
  // A victim
  // ------------------------------------------------------------------------

  /** A session in progress that has received something. */
  ghost predicate Victim(cfg: ServerConfig, t: Table, key: Key) {
    && key in t.sessions && !t.sessions[key].lingering
    && t.sessions[key].session.started && !t.sessions[key].session.published
    && t.sessions[key].session.tempPath == TempPath(cfg.session.directory, key.sessionId)
    && FileAt(t.fs, TempPath(cfg.session.directory, key.sessionId)) != []
  }

  /** Its state is as before, but its temporary file has been emptied. */
  ghost predicate Emptied(cfg: ServerConfig, t: Table, u: Table, key: Key) {
    && key in t.sessions && key in u.sessions && u.sessions[key].session == t.sessions[key].session
    && FileAt(u.fs, TempPath(cfg.session.directory, key.sessionId)) == []
  }

  lemma EmptiedIsNotAlone(cfg: ServerConfig, t: Table, u: Table, disk: FileSystem, key: Key,
                          inputs: seq<Input>, replies: seq<Reply>)
    requires Alone(cfg, t, disk, key, inputs, replies) && Victim(cfg, t, key) && Emptied(cfg, t, u, key)
    ensures !Alone(cfg, u, disk, key, inputs, replies)
  {
    hide RunOf, TempPath, FileAt;
  }

  /** An active session survives the making of room. */
  lemma VictimStays(cfg: ServerConfig, t: Table, key: Key, other: Key, now: Time)
    requires TableOwn(cfg, t.sessions) && Victim(cfg, t, key) && other != key
    ensures Undisturbed(cfg, t, Ready(cfg, t, other, now), key)
  {
    hide TableOwn, TempPath, FileAt, Temps;
    ActiveStays(cfg, t, key);
    ReadyUndisturbed(cfg, t, other, now, key);
  }

  lemma ActiveStays(cfg: ServerConfig, t: Table, key: Key)
    requires key in t.sessions && !t.sessions[key].lingering
    ensures key in Room(cfg, t).sessions
  {
    hide Temps;
  }

  // ------------------------------------------------------------------------
  // The same id
  // ------------------------------------------------------------------------

  function AnotherStart(id: uint64, name: seq<byte>): Packet {
    Packet(MakeHeader(Start, id, 0, 0, 0), name)
  }

  lemma StartEmpties(cfg: Config, fs: FileSystem, p: Packet)
    requires p.header.packetType == Start && Sanitize(p.payload).Ok?
    ensures var o := HandlePacket(cfg, fs, Fresh(cfg), p, ALL_WORKS);
            && o.state.started && !o.state.finished && o.state.sessionId == p.header.sessionId
            && o.state.tempPath == TempPath(cfg.directory, p.header.sessionId)
            && o.state.outputPath == JoinPath(cfg.directory, Sanitize(p.payload).value)
            && o.state.bytesWritten == 0 && o.fs == fs[TempPath(cfg.directory, p.header.sessionId) := []]
  {
    hide Sanitize, TempPath, JoinPath;
  }

  /** A START from another peer under the id of a session in progress empties that session's
      temporary file. */
  lemma SharedIdEmpties(cfg: ServerConfig, t: Table, key: Key, other: Key, name: seq<byte>, now: Time)
    requires TableOwn(cfg, t.sessions) && Victim(cfg, t, key)
    requires other != key && other.sessionId == key.sessionId && other !in t.sessions && !Refuses(cfg, t)
    requires Sanitize(name).Ok? && |name| <= MAX_PAYLOAD_SIZE
    ensures Emptied(cfg, t, Step(cfg, t, Sends(other, AnotherStart(other.sessionId, name), now)).table, key)
  {
    hide TableOwn, Step, Sends, Ready, HandlePacket, TempPath, JoinPath, Sanitize, Refuses, Arrived, Victim, Fresh;
    var p := AnotherStart(other.sessionId, name);
    ArrivedKeeps(p);
    SendsServed(cfg, t, other, p, now);
    VictimStays(cfg, t, key, other, now);
    FreshlyReady(cfg, t, other, now);
    StartEmpties(cfg.session, Ready(cfg, t, other, now).fs, Arrived(p));
  }

  lemma FreshlyReady(cfg: ServerConfig, t: Table, key: Key, now: Time)
    requires key !in t.sessions
    ensures key in Ready(cfg, t, key, now).sessions
    ensures Ready(cfg, t, key, now).sessions[key].session == Fresh(cfg.session)
  {
    hide Room, Fresh;
  }

  /** In every orderly run that has reached a session in progress, one START from another peer
      under the same id leaves that session unlike a lone one. */
  lemma SharedIdDisturbs(cfg: ServerConfig, fs: FileSystem, disk: FileSystem, events: Events,
                         key: Key, other: Key, name: seq<byte>, now: Time)
    requires Orderly(cfg, fs, events)
    requires var t := TableAfter(cfg, fs, events);
             Victim(cfg, t, key) && other != key && other.sessionId == key.sessionId && other !in t.sessions &&
             !Refuses(cfg, t)
    requires Sanitize(name).Ok? && |name| <= MAX_PAYLOAD_SIZE
    ensures var all := events + [Sends(other, AnotherStart(other.sessionId, name), now)];
            key in TableAfter(cfg, fs, all).sessions &&
            !Alone(cfg, TableAfter(cfg, fs, all), disk, key, Fed(cfg, fs, all, key), Answers(cfg, fs, all, key))
  {
    hide *;
    var t := TableAfter(cfg, fs, events);
    var e := Sends(other, AnotherStart(other.sessionId, name), now);
    EachSessionIsAlone(cfg, fs, disk, events);
    VictimIn(cfg, t, key);
    SharedIdEmpties(cfg, t, key, other, name, now);
    StartReadable(other, name);
    NotFor(key, other, AnotherStart(other.sessionId, name), now);
    EmptiedIn(cfg, t, Step(cfg, t, e).table, key);
    OneMore(cfg, fs, events, e, key);
    EmptiedIsNotAlone(cfg, t, Step(cfg, t, e).table, disk, key, Fed(cfg, fs, events, key),
                      Answers(cfg, fs, events, key));
  }

  lemma StartReadable(key: Key, name: seq<byte>)
    requires |name| <= MAX_PAYLOAD_SIZE
    ensures Readable(key, AnotherStart(key.sessionId, name))
  {
  }

  lemma VictimIn(cfg: ServerConfig, t: Table, key: Key)
    requires Victim(cfg, t, key)
    ensures key in t.sessions
  {
  }

  lemma EmptiedIn(cfg: ServerConfig, t: Table, u: Table, key: Key)
    requires Emptied(cfg, t, u, key)
    ensures key in u.sessions
  {
  }

  lemma NotFor(key: Key, other: Key, p: Packet, now: Time)
    requires key != other && Readable(other, p)
    ensures !IsFor(Sends(other, p, now), key)
  {
    hide Sends, IsFor, Readable;
    SendsCarry(other, p, now);
  }

  // ------------------------------------------------------------------------
  // Exactly when opening a session disturbs another
  // ------------------------------------------------------------------------

  /** Opening a session under this packet empties the temporary file that the session under
      `key` is still using, and there is something to empty. */
  ghost predicate Overwrites(cfg: ServerConfig, t: Table, key: Key, p: Packet, io: Io)
    requires key in t.sessions
  {
    var s := t.sessions[key].session;
    && p.header.sessionId == key.sessionId && Sanitize(p.payload).Ok? && io.openWorks
    && s.started && !s.published && !(s.tempPath in t.fs && t.fs[s.tempPath] == [])
  }

  lemma FreshStart(cfg: Config, fs: FileSystem, p: Packet, io: Io)
    requires p.header.packetType == Start
    ensures HandlePacket(cfg, fs, Fresh(cfg), p, io).fs ==
            if Sanitize(p.payload).Ok? && io.openWorks
            then fs[TempPath(cfg.directory, p.header.sessionId) := []] else fs
  {
    hide Sanitize, TempPath, JoinPath, ToByte, StatusByte;
  }

  /** The table after a session has been opened: `ready` is the one in which it was admitted. */
  lemma OpeningShape(cfg: ServerConfig, t: Table, e: Event, key: Key, other: Key)
    requires IsFor(e, other) && Opens(cfg, t, other, Carried(e).value.1)
    requires TableOwn(cfg, t.sessions) && key in Room(cfg, t).sessions
    ensures var ready := Ready(cfg, t, other, e.now);
            var u := Step(cfg, t, e).table;
            var p := Carried(e).value.1;
            && Undisturbed(cfg, t, ready, key) && key != other && p.header.sessionId == other.sessionId
            && key in u.sessions && u.sessions[key].session == t.sessions[key].session
            && u.fs == if Sanitize(p.payload).Ok? && e.io.openWorks
                       then ready.fs[TempPath(cfg.session.directory, other.sessionId) := []] else ready.fs
  {
    hide TableOwn, Step, OnPacket, Serve, HandlePacket, TempPath, Sanitize, Refuses, Fresh, FileAt, Temps,
      Serializer.Decode, Opened;
    var p := Carried(e).value.1;
    var ready := Ready(cfg, t, other, e.now);
    EventCases(cfg, t, e);
    PacketCases(cfg, t, other, p, e.now, e.settledAt, e.io);
    RoomIsPart(cfg, t);
    ReadyUndisturbed(cfg, t, other, e.now, key);
    FreshlyReady(cfg, t, other, e.now);
    ServedEntry(cfg, ready, other, p, e.now, e.settledAt, e.io);
    FreshStart(cfg.session, ready.fs, p, e.io);
  }

  lemma RoomIsPart(cfg: ServerConfig, t: Table)
    ensures Room(cfg, t).sessions.Keys <= t.sessions.Keys
  {
    hide Temps, Lingering;
  }

  /** In every orderly run, whatever session is opened next, and under whatever name: each
      session that stays in the table is still what it would be alone if and only if the new
      one does not overwrite its temporary file. */
  lemma OpeningDisturbs(cfg: ServerConfig, fs: FileSystem, disk: FileSystem, events: Events, e: Event,
                        key: Key, other: Key)
    requires Orderly(cfg, fs, events)
    requires var t := TableAfter(cfg, fs, events);
             IsFor(e, other) && Opens(cfg, t, other, Carried(e).value.1) && key in Room(cfg, t).sessions
    ensures var t := TableAfter(cfg, fs, events);
            var all := events + [e];
            && key in t.sessions && key in TableAfter(cfg, fs, all).sessions
            && (Alone(cfg, TableAfter(cfg, fs, all), disk, key, Fed(cfg, fs, all, key), Answers(cfg, fs, all, key))
                <==> !Overwrites(cfg, t, key, Carried(e).value.1, e.io))
  {
    hide *;
    var t := TableAfter(cfg, fs, events);
    EachSessionIsAlone(cfg, fs, disk, events);
    OpeningShape(cfg, t, e, key, other);
    UndisturbedIn(cfg, t, Ready(cfg, t, other, e.now), key);
    OneMore(cfg, fs, events, e, key);
    OneIsFor(e, key, other);
    OverwrittenIsNotAlone(cfg, t, e, disk, key, other, Fed(cfg, fs, events, key), Answers(cfg, fs, events, key));
  }

  lemma UndisturbedIn(cfg: ServerConfig, t: Table, u: Table, key: Key)
    requires Undisturbed(cfg, t, u, key)
    ensures key in t.sessions
  {
  }

  lemma OneIsFor(e: Event, key: Key, other: Key)
    requires IsFor(e, other) && key != other
    ensures !IsFor(e, key)
  {
  }

  lemma OverwrittenIsNotAlone(cfg: ServerConfig, t: Table, e: Event, disk: FileSystem, key: Key, other: Key,
                              inputs: seq<Input>, replies: seq<Reply>)
    requires IsFor(e, other) && Opens(cfg, t, other, Carried(e).value.1)
    requires TableOwn(cfg, t.sessions) && key in Room(cfg, t).sessions && key in t.sessions
    requires Alone(cfg, t, disk, key, inputs, replies)
    ensures Alone(cfg, Step(cfg, t, e).table, disk, key, inputs, replies)
            <==> !Overwrites(cfg, t, key, Carried(e).value.1, e.io)
  {
    hide Step, Opens, RunOf, TempPath, Room, Sanitize, Ready, IsFor, Carried, JoinPath;
    OpeningShape(cfg, t, e, key, other);
    TempPathsDiffer(cfg.session.directory, key.sessionId, other.sessionId);
    assert OwnPaths(cfg.session, key.sessionId, t.sessions[key].session);
  }

  // ------------------------------------------------------------------------
  // A temporary name
  // ------------------------------------------------------------------------

  function EmptyFin(cfg: ServerConfig, id: uint64): Packet {
    Packet(MakeHeader(Fin, id, 0, 0, 0), cfg.session.digest([]))
  }

  lemma EmptyFinPublishes(cfg: Config, fs: FileSystem, s: State, p: Packet)
    requires s.started && !s.finished && s.bytesWritten == 0 && s.tempPath in fs && fs[s.tempPath] == []
    requires p.header.packetType == Fin && p.header.sessionId == s.sessionId && p.header.byteOffset == 0
    requires p.payload == cfg.digest([]) && |p.payload| == DIGEST_SIZE
    ensures FileAt(HandlePacket(cfg, fs, s, p, ALL_WORKS).fs, s.outputPath) == []
  {
    hide ToByte, StatusByte;
    assert FileAt(fs, s.tempPath)[..0] == [];
  }

  /** The other peer's two packets: START under the temporary name, and FIN. */
  function Takeover(cfg: ServerConfig, key: Key, other: Key, now: Time): (Event, Event) {
    (Sends(other, AnotherStart(other.sessionId, TempName(key.sessionId)), now),
     Sends(other, EmptyFin(cfg, other.sessionId), now))
  }

  lemma TempNameIsShort(id: uint64)
    ensures |TempName(id)| <= MAX_PAYLOAD_SIZE
  {
    hide Hex;
  }

  /** After the first of them the victim is as before; the other session is about to publish
      over it. */
  lemma TakeoverOpens(cfg: ServerConfig, t: Table, key: Key, other: Key, now: Time)
    requires TableOwn(cfg, t.sessions) && Victim(cfg, t, key)
    requires other.sessionId != key.sessionId && other !in t.sessions && !Refuses(cfg, t)
    ensures var u := Step(cfg, t, Takeover(cfg, key, other, now).0).table;
            && key in t.sessions && key in u.sessions && u.sessions[key].session == t.sessions[key].session
            && other in u.sessions
            && var s := u.sessions[other].session;
               && s.started && !s.finished && s.bytesWritten == 0 && s.sessionId == other.sessionId
               && s.tempPath in u.fs && u.fs[s.tempPath] == []
               && s.outputPath == TempPath(cfg.session.directory, key.sessionId)
  {
    hide TableOwn, Step, Sends, Ready, HandlePacket, TempPath, TempName, JoinPath, Sanitize, Refuses, Arrived, Victim,
      Fresh, FileAt;
    var p := AnotherStart(other.sessionId, TempName(key.sessionId));
    TempNameIsShort(key.sessionId);
    ReservedIsAccepted(key.sessionId);
    OutputHitsTemp(cfg.session.directory, TempName(key.sessionId), key.sessionId);
    ArrivedKeeps(p);
    SendsServed(cfg, t, other, p, now);
    VictimStays(cfg, t, key, other, now);
    FreshlyReady(cfg, t, other, now);
    StartEmpties(cfg.session, Ready(cfg, t, other, now).fs, Arrived(p));
  }

  /** A session that advertises the temporary name of one in progress publishes over it. */
  lemma ReservedNameEmpties(cfg: ServerConfig, t: Table, key: Key, other: Key, now: Time)
    requires TableOwn(cfg, t.sessions) && Victim(cfg, t, key)
    requires other.sessionId != key.sessionId && other !in t.sessions && !Refuses(cfg, t)
    requires |cfg.session.digest([])| == DIGEST_SIZE
    ensures var (e, f) := Takeover(cfg, key, other, now);
            Emptied(cfg, t, Step(cfg, Step(cfg, t, e).table, f).table, key)
  {
    hide TableOwn, Step, HandlePacket, TempPath, TempName, Refuses, Arrived, Victim, FileAt;
    TakeoverOpens(cfg, t, key, other, now);
    var u := Step(cfg, t, Takeover(cfg, key, other, now).0).table;
    var p := EmptyFin(cfg, other.sessionId);
    ArrivedKeeps(p);
    SendsServed(cfg, u, other, p, now);
    EmptyFinPublishes(cfg.session, u.fs, u.sessions[other].session, Arrived(p));
  }

  /** In every orderly run that has reached a session in progress, two packets of another peer
      under that session's temporary name leave it unlike a lone one. */
  lemma ReservedNameDisturbs(cfg: ServerConfig, fs: FileSystem, disk: FileSystem, events: Events,
                             key: Key, other: Key, now: Time)
    requires Orderly(cfg, fs, events)
    requires var t := TableAfter(cfg, fs, events);
             Victim(cfg, t, key) && other.sessionId != key.sessionId && other !in t.sessions && !Refuses(cfg, t)
    requires |cfg.session.digest([])| == DIGEST_SIZE
    ensures var (e, f) := Takeover(cfg, key, other, now);
            var all := events + [e] + [f];
            key in TableAfter(cfg, fs, all).sessions &&
            !Alone(cfg, TableAfter(cfg, fs, all), disk, key, Fed(cfg, fs, all, key), Answers(cfg, fs, all, key))
  {
    hide Orderly, TableAfter, Victim, Refuses, Step, TableOwn, AllPlaced, Alone, Fed, Answers, Sends, IsFor, Emptied,
      TempName;
    var t := TableAfter(cfg, fs, events);
    var (e, f) := Takeover(cfg, key, other, now);
    EachSessionIsAlone(cfg, fs, disk, events);
    VictimIn(cfg, t, key);
    TakeoverOpens(cfg, t, key, other, now);
    ReservedNameEmpties(cfg, t, key, other, now);
    TempNameIsShort(key.sessionId);
    StartReadable(other, TempName(key.sessionId));
    NotFor(key, other, AnotherStart(other.sessionId, TempName(key.sessionId)), now);
    NotFor(key, other, EmptyFin(cfg, other.sessionId), now);
    var u := Step(cfg, t, e).table;
    var v := Step(cfg, u, f).table;
    EmptiedIn(cfg, t, v, key);
    OneMore(cfg, fs, events, e, key);
    OneMore(cfg, fs, events + [e], f, key);
    EmptiedIsNotAlone(cfg, t, v, disk, key, Fed(cfg, fs, events, key), Answers(cfg, fs, events, key));
  }

  // ------------------------------------------------------------------------
  // There are such runs
  // ------------------------------------------------------------------------

  function FirstStart(id: uint64): Packet {
    Packet(MakeHeader(Start, id, 0, 0, 2), [0x61])
  }

  function FirstData(id: uint64): Packet {
    Packet(MakeHeader(Data, id, 0, 0, 1), [1])
  }

  lemma LetterIsNotReserved()
    ensures !Reserved([0x61])
  {
    hide Hex;
    forall id: uint64 ensures TempName(id) != [0x61] {
      assert |TempName(id)| == 35;
    }
  }

  lemma EmptyTable(cfg: ServerConfig, fs: FileSystem, key: Key)
    requires cfg.maxSessions >= 1
    ensures var t := Servers.Empty(fs);
            && !Refuses(cfg, t) && key !in t.sessions && NewId(Room(cfg, t).sessions, key)
            && (forall now :: Ready(cfg, t, key, now).sessions.Keys == {key})
            && forall now :: Ready(cfg, t, key, now).sessions[key].session == Fresh(cfg.session)
  {
    hide Fresh;
    var t := Servers.Empty(fs);
    assert Active(t.sessions) == {};
    assert Room(cfg, t).sessions == map[];
  }

  /** One peer's first two packets leave its session in progress, and alone in the table. */
  lemma OneVictim(cfg: ServerConfig, fs: FileSystem, key: Key, now: Time)
    requires cfg.maxSessions >= 1
    ensures var events := [Sends(key, FirstStart(key.sessionId), now), Sends(key, FirstData(key.sessionId), now)];
            var t := TableAfter(cfg, fs, events);
            Orderly(cfg, fs, events) && Victim(cfg, t, key) && t.sessions.Keys == {key}
  {
    hide Step, Sends, Arrived, HandlePacket, TempPath, Refuses, Ready, Fitting, Victim, TableAfter;
    var e, f := Sends(key, FirstStart(key.sessionId), now), Sends(key, FirstData(key.sessionId), now);
    var t0 := Servers.Empty(fs);
    TwoEvents(cfg, fs, e, f);
    var t1 := Step(cfg, t0, e).table;
    var t2 := Step(cfg, t1, f).table;
    FirstIsFitting(cfg, fs, key, now);
    StartAccepted(cfg, fs, key, now);
    SecondIsFitting(cfg, t1, key, now);
    DataAccepted(cfg, t1, key, now);
    RunEntriesKept(cfg, fs, [e, f]);
    RunningIsVictim(cfg, t2, key);
  }

  lemma TwoEvents(cfg: ServerConfig, fs: FileSystem, e: Event, f: Event)
    ensures var t1 := Step(cfg, Servers.Empty(fs), e).table;
            && TableAfter(cfg, fs, [e, f]) == Step(cfg, t1, f).table
            && (Orderly(cfg, fs, [e, f]) <==> Fitting(cfg, Servers.Empty(fs), e) && Fitting(cfg, t1, f))
  {
    hide Step, Fitting;
    assert [e, f][..1] == [e] && [e][..0] == [];
    assert TableAfter(cfg, fs, [e]) == Step(cfg, Servers.Empty(fs), e).table;
    assert Orderly(cfg, fs, [e]) <==> Fitting(cfg, Servers.Empty(fs), e);
  }

  lemma FirstIsFitting(cfg: ServerConfig, fs: FileSystem, key: Key, now: Time)
    requires cfg.maxSessions >= 1
    ensures Fitting(cfg, Servers.Empty(fs), Sends(key, FirstStart(key.sessionId), now))
  {
    hide Sends, Arrived, Reserved, Sanitize, Room, Refuses, NewId, Ready, Carried;
    var p := FirstStart(key.sessionId);
    SendsCarry(key, p, now);
    ArrivedKeeps(p);
    EmptyTable(cfg, fs, key);
    LetterIsAccepted();
    LetterIsNotReserved();
  }

  lemma SecondIsFitting(cfg: ServerConfig, t: Table, key: Key, now: Time)
    ensures Fitting(cfg, t, Sends(key, FirstData(key.sessionId), now))
  {
    hide Sends, Arrived, Room, Refuses, NewId, PlainName, Carried;
    var p := FirstData(key.sessionId);
    SendsCarry(key, p, now);
    ArrivedKeeps(p);
  }

  /** The table after the first packet. */
  ghost predicate JustOpened(cfg: ServerConfig, t: Table, key: Key) {
    && t.sessions.Keys == {key}
    && var s := t.sessions[key].session;
       && s.started && !s.finished && s.declaredSize == 2 && s.bytesWritten == 0 && s.sessionId == key.sessionId
       && s.window == EmptyView(cfg.session.capacity) && !s.published
       && s.tempPath == TempPath(cfg.session.directory, key.sessionId) && s.tempPath in t.fs && t.fs[s.tempPath] == []
  }

  lemma StartAccepted(cfg: ServerConfig, fs: FileSystem, key: Key, now: Time)
    requires cfg.maxSessions >= 1
    ensures JustOpened(cfg, Step(cfg, Servers.Empty(fs), Sends(key, FirstStart(key.sessionId), now)).table, key)
  {
    hide Step, Sends, Arrived, HandlePacket, TempPath, Refuses, Ready, EmptyView;
    var t := Servers.Empty(fs);
    var p := FirstStart(key.sessionId);
    EmptyTable(cfg, fs, key);
    ArrivedKeeps(p);
    SendsServed(cfg, t, key, p, now);
    HoledStart(cfg.session, Ready(cfg, t, key, now).fs, Arrived(p), key.sessionId);
  }

  ghost predicate JustFilled(cfg: ServerConfig, t: Table, key: Key) {
    && t.sessions.Keys == {key}
    && var s := t.sessions[key].session;
       && s.started && !s.finished && s.tempPath == TempPath(cfg.session.directory, key.sessionId)
       && FileAt(t.fs, s.tempPath) != []
  }

  lemma DataAccepted(cfg: ServerConfig, t: Table, key: Key, now: Time)
    requires JustOpened(cfg, t, key)
    ensures JustFilled(cfg, Step(cfg, t, Sends(key, FirstData(key.sessionId), now)).table, key)
  {
    hide Step, Sends, Arrived, HandlePacket, TempPath, Refuses, EmptyView;
    var p := FirstData(key.sessionId);
    ArrivedKeeps(p);
    SendsServed(cfg, t, key, p, now);
    HoledData(cfg.session, t.fs, t.sessions[key].session, Arrived(p), 1);
  }

  lemma RunningIsVictim(cfg: ServerConfig, t: Table, key: Key)
    requires JustFilled(cfg, t, key) && EntriesKept(cfg, t.sessions)
    ensures Victim(cfg, t, key) && t.sessions.Keys == {key}
  {
    hide TempPath, CountsAgree, FileAt;
    assert EntryKept(cfg, t.sessions[key]);
  }

  lemma RoomForTwo(cfg: ServerConfig, t: Table, key: Key)
    requires cfg.maxSessions >= 2 && t.sessions.Keys == {key}
    ensures !Refuses(cfg, t)
  {
    SubsetSize(Active(t.sessions), {key});
  }

  /** Isolation fails when two peers share an id: there is a run of three packets after which
      the first peer's session is not what it would be alone. */
  lemma SharedIdBreaksIsolation(cfg: ServerConfig, fs: FileSystem, disk: FileSystem, key: Key, other: Key)
    requires cfg.maxSessions >= 2 && other != key && other.sessionId == key.sessionId
    ensures exists events :: key in TableAfter(cfg, fs, events).sessions &&
              !Alone(cfg, TableAfter(cfg, fs, events), disk, key, Fed(cfg, fs, events, key),
                     Answers(cfg, fs, events, key))
  {
    hide Orderly, TableAfter, Victim, Refuses, Step, TableOwn, Alone, Fed, Answers, Sends, IsFor, Emptied, Sanitize;
    var events := [Sends(key, FirstStart(key.sessionId), 0), Sends(key, FirstData(key.sessionId), 0)];
    OneVictim(cfg, fs, key, 0);
    RoomForTwo(cfg, TableAfter(cfg, fs, events), key);
    LetterIsAccepted();
    SharedIdDisturbs(cfg, fs, disk, events, key, other, [0x61], 0);
  }

  /** Isolation fails when a temporary name is advertised: there is a run of four packets after
      which the first peer's session is not what it would be alone. */
  lemma ReservedNameBreaksIsolation(cfg: ServerConfig, fs: FileSystem, disk: FileSystem, key: Key, other: Key)
    requires cfg.maxSessions >= 2 && other.sessionId != key.sessionId && |cfg.session.digest([])| == DIGEST_SIZE
    ensures exists events :: key in TableAfter(cfg, fs, events).sessions &&
              !Alone(cfg, TableAfter(cfg, fs, events), disk, key, Fed(cfg, fs, events, key),
                     Answers(cfg, fs, events, key))
  {
    hide Orderly, TableAfter, Victim, Refuses, Step, TableOwn, Alone, Fed, Answers, Sends, IsFor, Emptied, Takeover;
    var events := [Sends(key, FirstStart(key.sessionId), 0), Sends(key, FirstData(key.sessionId), 0)];
    OneVictim(cfg, fs, key, 0);
    RoomForTwo(cfg, TableAfter(cfg, fs, events), key);
    ReservedNameDisturbs(cfg, fs, disk, events, key, other, 0);
    var (e, f) := Takeover(cfg, key, other, 0);
    assert key in TableAfter(cfg, fs, events + [e] + [f]).sessions;
  }
}
