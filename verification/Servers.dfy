/** The server of src/server/epoll_server.cpp as a machine over its session table: what one
    datagram and one timer tick do. */
module Servers {
  import opened Common
  import opened Packets
  import opened Files
  import opened Sessions
  import Serializer

  /** Clock readings, in nanoseconds; nothing is assumed of them. */
  type Time = int

  datatype Key = Key(address: seq<byte>, port: uint16, sessionId: uint64)

  /** Timeouts are in milliseconds, as in ServerConfig. */
  datatype ServerConfig = ServerConfig(session: Config, maxSessions: uint64, idleTimeout: int, linger: int)

  datatype Entry = Entry(session: State, lastActivity: Time, lingering: bool, completedAt: Time)

  /** `created` counts the sessions ever admitted; the code keeps the other four counters. */
  datatype Table = Table(
    sessions: map<Key, Entry>,
    fs: FileSystem,
    completed: nat,
    failed: nat,
    expired: nat,
    refused: nat,
    created: nat)

  datatype Event =
    | Datagram(address: seq<byte>, port: uint16, bytes: seq<byte>, now: Time, settledAt: Time, io: Io)
    | Tick(now: Time)

  /** The table an event leaves and what is sent back to the peer. */
  datatype Turn = Turn(table: Table, reply: Reply)

  function Empty(fs: FileSystem): Table {
    Table(map[], fs, 0, 0, 0, 0, 0)
  }

  // ------------------------------------------------------------------------
  // Groups of sessions
  // ------------------------------------------------------------------------

  function Active(sessions: map<Key, Entry>): set<Key> {
    set k | k in sessions && !sessions[k].lingering
  }

  function Lingering(sessions: map<Key, Entry>): set<Key> {
    set k | k in sessions && sessions[k].lingering
  }

  /** A duration cast to milliseconds, which truncates toward zero. */
  function Millis(d: int): int {
    if d >= 0 then d / 1_000_000 else -(-d / 1_000_000)
  }

  predicate Retired(cfg: ServerConfig, e: Entry, now: Time) {
    e.lingering && Millis(now - e.completedAt) > cfg.linger
  }

  predicate Idle(cfg: ServerConfig, e: Entry, now: Time) {
    !e.lingering && Millis(now - e.lastActivity) > cfg.idleTimeout
  }

  /** The temporary files that destroying these sessions removes. */
  function Temps(sessions: map<Key, Entry>, gone: set<Key>): set<Path> {
    set k | k in gone && k in sessions && !sessions[k].session.published && sessions[k].session.tempPath != []
      :: sessions[k].session.tempPath
  }

  function Erase(t: Table, gone: set<Key>): Table {
    t.(sessions := t.sessions - gone, fs := t.fs - Temps(t.sessions, gone))
  }

  // ------------------------------------------------------------------------
  // One event
  // ------------------------------------------------------------------------

  function Opened(cfg: ServerConfig, now: Time): Entry {
    Entry(Fresh(cfg.session), now, false, 0)
  }

  /** The entry once its session has handled a packet: a first verdict starts the lingering. */
  function Updated(e: Entry, s: State, now: Time, settledAt: Time): Entry {
    var settles := s.finished && !e.lingering;
    Entry(s, now, e.lingering || settles, if settles then settledAt else e.completedAt)
  }

  /** Hand a packet to the session under its key, and settle the session if it has finished. */
  function Serve(cfg: ServerConfig, t: Table, key: Key, p: Packet, now: Time, settledAt: Time, io: Io): Turn
    requires key in t.sessions
  {
    var entry := t.sessions[key];
    var o := HandlePacket(cfg.session, t.fs, entry.session, p, io);
    var settles := o.state.finished && !entry.lingering;
    Turn(t.(sessions := t.sessions[key := Updated(entry, o.state, now, settledAt)], fs := o.fs,
            completed := t.completed + (if settles && o.state.error == NoError then 1 else 0),
            failed := t.failed + (if settles && o.state.error != NoError then 1 else 0)),
         o.reply)
  }

  /** The size at which lingering sessions are retired early, computed in 64 bits. */
  function Pressure(cfg: ServerConfig): nat {
    cfg.maxSessions * 2 % TWO_64
  }

  /** The table once lingering sessions have been retired under pressure. */
  function Room(cfg: ServerConfig, t: Table): Table {
    if |t.sessions| >= Pressure(cfg) then Erase(t, Lingering(t.sessions)) else t
  }

  function Admit(cfg: ServerConfig, t: Table, key: Key, now: Time): Table {
    var room := Room(cfg, t);
    room.(sessions := room.sessions[key := Opened(cfg, now)], created := room.created + 1)
  }

  function Busy(h: Header): Reply {
    Reply(ErrorPacket, h.sequenceNumber, [ToByte(StatusByte(ServerBusy))])
  }

  predicate Refuses(cfg: ServerConfig, t: Table) {
    |Active(t.sessions)| >= cfg.maxSessions
  }

  function OnPacket(cfg: ServerConfig, t: Table, key: Key, p: Packet, now: Time, settledAt: Time, io: Io): Turn {
    if key in t.sessions then Serve(cfg, t, key, p, now, settledAt, io)
    else if p.header.packetType != Start then Turn(t, Silent)
    else if Refuses(cfg, t) then Turn(t.(refused := t.refused + 1), Busy(p.header))
    else Serve(cfg, Admit(cfg, t, key, now), key, p, now, settledAt, io)
  }

  function IdleKeys(cfg: ServerConfig, sessions: map<Key, Entry>, now: Time): set<Key> {
    set k | k in sessions && Idle(cfg, sessions[k], now)
  }

  function RetiredKeys(cfg: ServerConfig, sessions: map<Key, Entry>, now: Time): set<Key> {
    set k | k in sessions && Retired(cfg, sessions[k], now)
  }

  function Swept(cfg: ServerConfig, t: Table, now: Time): Table {
    var idle := IdleKeys(cfg, t.sessions, now);
    Erase(t, idle + RetiredKeys(cfg, t.sessions, now)).(expired := t.expired + |idle|)
  }

  function KeyOf(e: Event, p: Packet): Key
    requires e.Datagram?
  {
    Key(e.address, e.port, p.header.sessionId)
  }

  function Step(cfg: ServerConfig, t: Table, e: Event): Turn {
    match e
    case Tick(now) => Turn(Swept(cfg, t, now), Silent)
    case Datagram(_, _, bytes, now, settledAt, io) =>
      match Serializer.Decode(bytes)
      case Err(_) => Turn(t, Silent)
      case Ok(p) => OnPacket(cfg, t, KeyOf(e, p), p, now, settledAt, io)
  }

  // ------------------------------------------------------------------------
  // What every event keeps
  // ------------------------------------------------------------------------

  /** A session lingers from the moment it has a verdict. */
  ghost predicate EntryKept(cfg: ServerConfig, e: Entry) {
    WellFormedState(cfg.session, e.session) && (e.lingering <==> e.session.finished)
  }

  /** Every session ever admitted is counted once: under its verdict, as expired, or as active. */
  ghost predicate Accounted(t: Table) {
    t.created == t.completed + t.failed + t.expired + |Active(t.sessions)|
  }

  ghost predicate Bounded(cfg: ServerConfig, t: Table) {
    |Active(t.sessions)| <= cfg.maxSessions && |t.sessions| <= 2 * cfg.maxSessions
  }

  ghost predicate EntriesKept(cfg: ServerConfig, sessions: map<Key, Entry>) {
    forall k <- sessions :: EntryKept(cfg, sessions[k])
  }

  ghost predicate TableKept(cfg: ServerConfig, t: Table) {
    EntriesKept(cfg, t.sessions) && Accounted(t) && Bounded(cfg, t)
  }

  lemma EraseKeepsActive(t: Table, gone: set<Key>)
    ensures Active(Erase(t, gone).sessions) == Active(t.sessions) - gone
    ensures Erase(t, gone).sessions.Keys == t.sessions.Keys - gone
    ensures Erase(t, gone) == t.(sessions := Erase(t, gone).sessions, fs := Erase(t, gone).fs)
  {
    hide Temps;
  }

  lemma Fewer(a: set<Key>, b: set<Key>)
    requires b <= a
    ensures |a - b| == |a| - |b|
  {
    assert (a - b) + b == a;
  }

  lemma EraseKeepsEntries(cfg: ServerConfig, t: Table, gone: set<Key>)
    requires EntriesKept(cfg, t.sessions)
    ensures EntriesKept(cfg, Erase(t, gone).sessions)
  {
    hide EntryKept;
  }

  /** The sweep removes the idle and the retired sessions and no others, touches none that it
      keeps, and counts exactly the idle ones, all of which were active. */
  lemma SweptShape(cfg: ServerConfig, t: Table, now: Time)
    ensures var u := Swept(cfg, t, now);
            var idle := IdleKeys(cfg, t.sessions, now);
            && u.sessions.Keys == t.sessions.Keys - idle - RetiredKeys(cfg, t.sessions, now)
            && (forall k <- u.sessions :: u.sessions[k] == t.sessions[k])
            && Active(u.sessions) == Active(t.sessions) - idle && idle <= Active(t.sessions)
            && u.expired == t.expired + |idle|
            && u.created == t.created && u.completed == t.completed && u.failed == t.failed && u.refused == t.refused
  {
    hide Idle, Retired, Temps, Active, IdleKeys, RetiredKeys;
    EraseKeepsActive(t, IdleKeys(cfg, t.sessions, now) + RetiredKeys(cfg, t.sessions, now));
    IdleAreActive(cfg, t.sessions, now);
  }

  lemma SweepKept(cfg: ServerConfig, t: Table, now: Time)
    requires TableKept(cfg, t)
    ensures TableKept(cfg, Swept(cfg, t, now))
  {
    hide EntriesKept, IdleKeys, Active, Erase;
    SweptShape(cfg, t, now);
    EraseKeepsEntries(cfg, t, IdleKeys(cfg, t.sessions, now) + RetiredKeys(cfg, t.sessions, now));
    Fewer(Active(t.sessions), IdleKeys(cfg, t.sessions, now));
    SubsetSize(Swept(cfg, t, now).sessions.Keys, t.sessions.Keys);
  }

  lemma IdleAreActive(cfg: ServerConfig, sessions: map<Key, Entry>, now: Time)
    ensures IdleKeys(cfg, sessions, now) <= Active(sessions)
    ensures RetiredKeys(cfg, sessions, now) !! Active(sessions)
  {
  }

  lemma PurgeLeavesActive(t: Table)
    ensures var u := Erase(t, Lingering(t.sessions));
            Active(u.sessions) == Active(t.sessions) && u.sessions.Keys == Active(t.sessions)
  {
    hide Temps;
  }

  /** Room is made without touching an active session, whether or not the product wraps. */
  lemma RoomShape(cfg: ServerConfig, t: Table)
    requires TableKept(cfg, t) && !Refuses(cfg, t)
    ensures var u := Room(cfg, t);
            && EntriesKept(cfg, u.sessions) && Active(u.sessions) == Active(t.sessions)
            && |u.sessions| < 2 * cfg.maxSessions && u.sessions.Keys <= t.sessions.Keys
            && u == t.(sessions := u.sessions, fs := u.fs)
  {
    hide EntriesKept, Erase, Active, Lingering;
    PurgeLeavesActive(t);
    EraseKeepsEntries(cfg, t, Lingering(t.sessions));
    EraseKeepsActive(t, Lingering(t.sessions));
    assert |t.sessions| == |t.sessions.Keys|;
  }

  /** Admission leaves room: at most the limit is active, and the table is at most twice it. */
  lemma AdmitKept(cfg: ServerConfig, t: Table, key: Key, now: Time)
    requires TableKept(cfg, t) && key !in t.sessions && !Refuses(cfg, t)
    ensures TableKept(cfg, Admit(cfg, t, key, now))
  {
    hide EntryKept, Erase, Room, Opened, Lingering;
    FreshKept(cfg, now);
    RoomShape(cfg, t);
    InsertActive(Room(cfg, t).sessions, key, Opened(cfg, now));
  }

  lemma InsertActive(sessions: map<Key, Entry>, key: Key, e: Entry)
    requires key !in sessions && !e.lingering
    ensures Active(sessions[key := e]) == Active(sessions) + {key} && key !in Active(sessions)
    ensures |sessions[key := e]| == |sessions| + 1
  {
  }

  lemma FreshKept(cfg: ServerConfig, now: Time)
    ensures EntryKept(cfg, Opened(cfg, now)) && !Opened(cfg, now).lingering
  {
    FreshWellFormed(cfg.session);
  }

  /** One packet changes one entry; a session is counted when it gets its verdict, and never
      again. */
  lemma ServeEntry(cfg: ServerConfig, t: Table, key: Key, p: Packet, now: Time, settledAt: Time, io: Io)
    requires key in t.sessions && EntryKept(cfg, t.sessions[key]) && |p.payload| <= MAX_PAYLOAD_SIZE
    ensures var u := Serve(cfg, t, key, p, now, settledAt, io).table;
            && u.sessions.Keys == t.sessions.Keys && u.sessions == t.sessions[key := u.sessions[key]]
            && EntryKept(cfg, u.sessions[key])
            && u.created == t.created && u.expired == t.expired && u.refused == t.refused
            && (t.sessions[key].lingering ==> u.sessions[key].lingering)
            && u.completed + u.failed ==
               t.completed + t.failed + (if u.sessions[key].lingering && !t.sessions[key].lingering then 1 else 0)
            && (u.completed > t.completed <==> u.sessions[key].session.published && !t.sessions[key].lingering)
  {
    hide HandlePacket, CountsAgree;
    HandleWellFormed(cfg.session, t.fs, t.sessions[key].session, p, io);
    if t.sessions[key].session.finished {
      StaysFinished(cfg, t.fs, t.sessions[key].session, p, io);
    }
  }

  /** What serving a packet does to the table, field by field. */
  lemma ServeFields(cfg: ServerConfig, t: Table, key: Key, p: Packet, now: Time, settledAt: Time, io: Io)
    requires key in t.sessions
    ensures var turn := Serve(cfg, t, key, p, now, settledAt, io);
            var u := turn.table;
            var e := t.sessions[key];
            var o := HandlePacket(cfg.session, t.fs, e.session, p, io);
            var settles := o.state.finished && !e.lingering;
            && u.sessions == t.sessions[key := Updated(e, o.state, now, settledAt)]
            && u.fs == o.fs && turn.reply == o.reply
            && u.completed == t.completed + (if settles && o.state.error == NoError then 1 else 0)
            && u.failed == t.failed + (if settles && o.state.error != NoError then 1 else 0)
            && u.expired == t.expired && u.refused == t.refused && u.created == t.created
  {
    hide HandlePacket, Updated;
  }

  lemma ServedKeys(cfg: ServerConfig, t: Table, key: Key, p: Packet, now: Time, settledAt: Time, io: Io)
    requires key in t.sessions
    ensures Serve(cfg, t, key, p, now, settledAt, io).table.sessions.Keys == t.sessions.Keys
  {
    hide HandlePacket;
  }

  lemma StaysFinished(cfg: ServerConfig, fs: FileSystem, s: State, p: Packet, io: Io)
    requires s.finished
    ensures HandlePacket(cfg.session, fs, s, p, io).state.finished
  {
  }

  lemma ServeKept(cfg: ServerConfig, t: Table, key: Key, p: Packet, now: Time, settledAt: Time, io: Io)
    requires TableKept(cfg, t) && key in t.sessions && |p.payload| <= MAX_PAYLOAD_SIZE
    ensures TableKept(cfg, Serve(cfg, t, key, p, now, settledAt, io).table)
  {
    hide EntryKept, Serve;
    ServeEntry(cfg, t, key, p, now, settledAt, io);
    var u := Serve(cfg, t, key, p, now, settledAt, io).table;
    var settled := if u.sessions[key].lingering && !t.sessions[key].lingering then {key} else {};
    assert Active(u.sessions) == Active(t.sessions) - settled;
    Fewer(Active(t.sessions), settled);
  }

  lemma PacketKept(cfg: ServerConfig, t: Table, key: Key, p: Packet, now: Time, settledAt: Time, io: Io)
    requires TableKept(cfg, t) && |p.payload| <= MAX_PAYLOAD_SIZE
    ensures TableKept(cfg, OnPacket(cfg, t, key, p, now, settledAt, io).table)
  {
    hide TableKept, Serve, Admit, Refuses, Busy;
    if key in t.sessions {
      ServeKept(cfg, t, key, p, now, settledAt, io);
    } else if p.header.packetType == Start && !Refuses(cfg, t) {
      AdmitKept(cfg, t, key, now);
      Admitted(cfg, t, key, now);
      ServeKept(cfg, Admit(cfg, t, key, now), key, p, now, settledAt, io);
    } else if p.header.packetType == Start {
      RefusalKept(cfg, t);
    }
  }

  /** Every datagram and every tick keep the table within its bounds and its books balanced. */
  lemma StepKept(cfg: ServerConfig, t: Table, e: Event)
    requires TableKept(cfg, t)
    ensures TableKept(cfg, Step(cfg, t, e).table)
  {
    hide TableKept, Serializer.Decode, OnPacket, Swept;
    match e
    case Tick(now) => SweepKept(cfg, t, now);
    case Datagram(_, _, bytes, now, settledAt, io) =>
      if Serializer.Decode(bytes).Ok? {
        var p := Serializer.Decode(bytes).value;
        Serializer.EncodeDecode(bytes);
        PacketKept(cfg, t, KeyOf(e, p), p, now, settledAt, io);
      }
  }

  lemma Admitted(cfg: ServerConfig, t: Table, key: Key, now: Time)
    ensures key in Admit(cfg, t, key, now).sessions
    ensures Admit(cfg, t, key, now).sessions[key] == Opened(cfg, now)
  {
  }

  lemma RefusalKept(cfg: ServerConfig, t: Table)
    requires TableKept(cfg, t)
    ensures TableKept(cfg, t.(refused := t.refused + 1))
  {
  }
}
