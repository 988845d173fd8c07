/** A transfer to the server, in company: a sender, a network, and the session table with all its
    other peers, its sweeps and its purges. Success still means an exact copy. */
module ServedTransfers {
  import opened Common
  import opened Packets
  import opened Files
  import opened Filenames
  import opened Sessions
  import opened Senders
  import opened Transfers
  import opened Exactness
  import opened Servers
  import opened ServerProjection
  import opened Chunking
  import Serializer
  import SessionSafety
  import CrossWindow

  /** The sender and the address it is seen under. */
  datatype Client = Client(sender: SenderConfig, address: seq<byte>, port: uint16)

  function KeyFor(cl: Client): Key {
    Key(cl.address, cl.port, cl.sender.sessionId)
  }

  /** `copied` records that the source has been published. */
  datatype Scene = Scene(
    sender: SState,
    table: Table,
    toServer: set<seq<byte>>,
    toSender: set<seq<byte>>,
    copied: bool)

  datatype Act =
    | Moves(e: Senders.Event)
    | Hears(datagram: seq<byte>)
    | Serves(event: Servers.Event)

  function Opening(cfg: ServerConfig, cl: Client, fs: FileSystem): Scene {
    Scene(Initial(cl.sender), Servers.Empty(fs), {}, {}, false)
  }

  /** The server may be visited by anybody at any time, as long as nobody forges this client's
      packets and no session is opened under an id in use or a temporary name. */
  ghost predicate Allowed(cfg: ServerConfig, cl: Client, w: Scene, a: Act)
    requires CanStart(cl.sender)
  {
    match a
    case Moves(e) => !e.Receive? && Senders.Enabled(cl.sender, w.sender, e)
    case Hears(d) =>
      && Senders.Enabled(cl.sender, w.sender, Receive(d))
      && (Arrives(w.toSender, d) || StrayForSender(cl.sender, d))
    case Serves(e) =>
      && Fitting(cfg, w.table, e)
      && (IsFor(e, KeyFor(cl)) ==> Arrives(w.toServer, e.bytes))
  }

  /** Where the file is to appear. */
  function Target(cfg: ServerConfig, cl: Client): Path {
    JoinPath(cfg.session.directory, if Sanitize(cl.sender.name).Ok? then Sanitize(cl.sender.name).value else [])
  }

  /** This event publishes the source, byte for byte, under its sanitized name. */
  ghost predicate Publishes(cfg: ServerConfig, cl: Client, t: Table, e: Servers.Event) {
    var key := KeyFor(cl);
    var u := Step(cfg, t, e).table;
    && IsFor(e, key) && key in u.sessions && u.sessions[key].session.published
    && (key in t.sessions ==> !t.sessions[key].session.published)
    && Sanitize(cl.sender.name).Ok? && Target(cfg, cl) in u.fs && u.fs[Target(cfg, cl)] == cl.sender.file
  }

  ghost function Then(cfg: ServerConfig, cl: Client, w: Scene, a: Act): Scene
    requires CanStart(cl.sender)
  {
    match a
    case Moves(e) =>
      w.(sender := Senders.Apply(cl.sender, w.sender, e),
         toServer := w.toServer + (match Emitted(cl.sender, w.sender, e) case Some(wire) => {wire} case None => {}))
    case Hears(d) => w.(sender := OnDatagram(cl.sender, w.sender, d))
    case Serves(e) =>
      var turn := Step(cfg, w.table, e);
      w.(table := turn.table,
         toSender := w.toSender +
                     (if IsFor(e, KeyFor(cl)) then Replied(Carried(e).value.1.header, turn.reply) else {}),
         copied := w.copied || Publishes(cfg, cl, w.table, e))
  }

  type Acts = seq<Act>

  ghost function SceneAfter(cfg: ServerConfig, cl: Client, fs: FileSystem, acts: Acts): Scene
    requires CanStart(cl.sender)
  {
    if acts == [] then Opening(cfg, cl, fs)
    else Then(cfg, cl, SceneAfter(cfg, cl, fs, acts[..|acts| - 1]), acts[|acts| - 1])
  }

  ghost predicate AllAllowed(cfg: ServerConfig, cl: Client, fs: FileSystem, acts: Acts)
    requires CanStart(cl.sender)
  {
    acts == [] ||
    var front := acts[..|acts| - 1];
    AllAllowed(cfg, cl, fs, front) && Allowed(cfg, cl, SceneAfter(cfg, cl, fs, front), acts[|acts| - 1])
  }

  // ------------------------------------------------------------------------
  // The invariant
  // ------------------------------------------------------------------------

  function SetupFor(cfg: ServerConfig, cl: Client): Setup {
    Setup(cl.sender, cfg.session)
  }

  /** The session now under this client's key, if there is one, has only stored the source. */
  ghost predicate KeyKept(cfg: ServerConfig, cl: Client, t: Table, copied: bool)
    requires CanStart(cl.sender)
  {
    KeyFor(cl) in t.sessions ==>
      var s := t.sessions[KeyFor(cl)].session;
      if s.published then copied else OurDisk(SetupFor(cfg, cl), t.fs, s)
  }

  ghost predicate TableInOrder(cfg: ServerConfig, t: Table) {
    TableOwn(cfg, t.sessions) && AllPlaced(t.sessions) && TableKept(cfg, t)
  }

  ghost predicate NetKept(cl: Client, w: Scene)
    requires CanStart(cl.sender)
  {
    && Intact(w.toServer) && Intact(w.toSender)
    && (forall d <- w.toServer :: OursIfRead(cl.sender, d))
    && (forall d <- w.toSender :: ClaimsSuccess(cl.sender, d) ==> w.copied)
  }

  ghost predicate Kept(cfg: ServerConfig, cl: Client, w: Scene)
    requires CanStart(cl.sender)
  {
    && SenderInv(cl.sender, w.sender) && TableInOrder(cfg, w.table) && NetKept(cl, w)
    && KeyKept(cfg, cl, w.table, w.copied)
    && (w.sender.phase == Ended(NoError) ==> w.copied)
  }

  lemma OpeningKept(cfg: ServerConfig, cl: Client, fs: FileSystem)
    requires CanStart(cl.sender)
    ensures Kept(cfg, cl, Opening(cfg, cl, fs))
  {
    hide SenderInv;
    InitialInv(cl.sender);
  }

  lemma MovesKept(cfg: ServerConfig, cl: Client, w: Scene, e: Senders.Event)
    requires CanStart(cl.sender) && Kept(cfg, cl, w) && Allowed(cfg, cl, w, Moves(e))
    ensures Kept(cfg, cl, Then(cfg, cl, w, Moves(e)))
  {
    hide OursIfRead, ClaimsSuccess, Serializer.Decode, SenderInv, TableInOrder, KeyKept, Emitted, Enabled, Apply;
    StepKeepsInv(cl.sender, w.sender, e);
    if Emitted(cl.sender, w.sender, e).Some? {
      EmittedIsOurs(cl.sender, w.sender, e);
    }
    NoSuccessByMoving(cl.sender, w.sender, e);
  }

  lemma HearsKept(cfg: ServerConfig, cl: Client, w: Scene, d: seq<byte>)
    requires CanStart(cl.sender) && Kept(cfg, cl, w) && Allowed(cfg, cl, w, Hears(d))
    ensures Kept(cfg, cl, Then(cfg, cl, w, Hears(d)))
  {
    hide OursIfRead, Serializer.Decode, SenderInv, TableInOrder, KeyKept, OnDatagram, Enabled;
    var t := OnDatagram(cl.sender, w.sender, d);
    StepKeepsInv(cl.sender, w.sender, Receive(d));
    assert Apply(cl.sender, w.sender, Receive(d)) == t;
    if t.phase == Ended(NoError) {
      SuccessIsHeard(cl.sender, w.sender, d);
      ArrivedWasSent(w.toSender, d);
    }
  }

  // ------------------------------------------------------------------------
  // Events at the server
  // ------------------------------------------------------------------------

  lemma SameDisk(setup: Setup, a: FileSystem, b: FileSystem, s: State)
    requires CanStart(setup.sender) && OurDisk(setup, a, s) && !s.published
    requires FileAt(a, s.tempPath) == FileAt(b, s.tempPath)
    ensures OurDisk(setup, b, s)
  {
    hide DiskHolds, Stored, Total, Sanitize, JoinPath;
  }

  lemma FreshDisk(setup: Setup, fs: FileSystem)
    requires CanStart(setup.sender)
    ensures OurDisk(setup, fs, Fresh(setup.receiver))
  {
  }

  /** An event for somebody else leaves this client's session and its temporary file alone. */
  lemma OthersKept(cfg: ServerConfig, cl: Client, t: Table, e: Servers.Event, copied: bool)
    requires CanStart(cl.sender) && TableInOrder(cfg, t) && KeyKept(cfg, cl, t, copied)
    requires Fitting(cfg, t, e) && !IsFor(e, KeyFor(cl))
    ensures KeyKept(cfg, cl, Step(cfg, t, e).table, copied)
  {
    hide TableOwn, AllPlaced, EntriesKept, Fitting, IsFor, Step, OurDisk, FileAt, TempPath, OwnPaths,
      Accounted, Bounded;
    var key := KeyFor(cl);
    var u := Step(cfg, t, e).table;
    if key in u.sessions {
      OthersUndisturbed(cfg, t, e, key);
      var s := t.sessions[key].session;
      if !s.published {
        SameTempFile(cfg, t, u, key);
        if s.tempPath == [] {
          UnplacedDisk(SetupFor(cfg, cl), t, u, key);
        } else {
          SameDisk(SetupFor(cfg, cl), t.fs, u.fs, s);
        }
      }
    }
  }

  lemma SameTempFile(cfg: ServerConfig, t: Table, u: Table, key: Key)
    requires TableOwn(cfg, t.sessions) && Undisturbed(cfg, t, u, key)
    ensures var s := t.sessions[key].session; s.tempPath != [] ==> FileAt(t.fs, s.tempPath) == FileAt(u.fs, s.tempPath)
    ensures var s := t.sessions[key].session; s.tempPath == [] ==> !s.started
  {
    hide TempPath, FileAt;
  }

  lemma UnplacedDisk(setup: Setup, t: Table, u: Table, key: Key)
    requires CanStart(setup.sender) && key in t.sessions && !t.sessions[key].session.started
    ensures OurDisk(setup, u.fs, t.sessions[key].session)
  {
  }

  /** What serving this client's packet does to its session: still only the source is stored,
      and a verdict of success is given, at the earliest, by the event that publishes it. */
  lemma ServedDisk(setup: Setup, fs: FileSystem, s: State, p: Packet, io: Io)
    requires CanStart(setup.sender) && |p.payload| <= MAX_PAYLOAD_SIZE
    requires WellFormedState(setup.receiver, s) && Ours(setup.sender, p)
    requires !s.published ==> OurDisk(setup, fs, s)
    ensures var o := HandlePacket(setup.receiver, fs, s, p, io);
            && (!o.state.published ==> OurDisk(setup, o.fs, o.state))
            && (s.published ==> o.state.published)
            && (o.state.published && !s.published ==>
                  && Sanitize(setup.sender.name).Ok?
                  && var path := JoinPath(setup.receiver.directory, Sanitize(setup.sender.name).value);
                     path in o.fs && o.fs[path] == setup.sender.file)
            && (o.reply.Reply? && o.reply.packetType == FinAck ==> o.state.published)
  {
    if s.published {
      hide OurDisk, HandlePacket, Ours;
      SessionSafety.SettledIsFinal(setup.receiver, fs, s, p, io);
    } else {
      hide OurDisk, HandlePacket, WellFormedState, Ours;
      HandleKeepsDisk(setup, fs, s, p, io);
      var o := HandlePacket(setup.receiver, fs, s, p, io);
      if o.state.published {
        NewlyPublished(setup, fs, s, p, io);
      }
    }
  }

  lemma NewlyPublished(setup: Setup, fs: FileSystem, s: State, p: Packet, io: Io)
    requires CanStart(setup.sender) && |p.payload| <= MAX_PAYLOAD_SIZE
    requires WellFormedState(setup.receiver, s) && Ours(setup.sender, p) && !s.published
    requires var o := HandlePacket(setup.receiver, fs, s, p, io); o.state.published && OurDisk(setup, o.fs, o.state)
    ensures var o := HandlePacket(setup.receiver, fs, s, p, io);
            && Sanitize(setup.sender.name).Ok?
            && var path := JoinPath(setup.receiver.directory, Sanitize(setup.sender.name).value);
               path in o.fs && o.fs[path] == setup.sender.file
  {
    var o := HandlePacket(setup.receiver, fs, s, p, io);
    SessionSafety.PublishedByVerifiedFin(setup.receiver, fs, s, p, io);
    PublishedUnderOwnId(setup, fs, s, p, io);
    hide HandlePacket, Stored, DiskHolds, Total, Sanitize, JoinPath, WellFormedState;
  }

  lemma PublishedUnderOwnId(setup: Setup, fs: FileSystem, s: State, p: Packet, io: Io)
    requires CanStart(setup.sender) && |p.payload| <= MAX_PAYLOAD_SIZE
    requires WellFormedState(setup.receiver, s) && Ours(setup.sender, p) && !s.published
    requires HandlePacket(setup.receiver, fs, s, p, io).state.published
    ensures var t := HandlePacket(setup.receiver, fs, s, p, io).state;
            t.started && t.sessionId == setup.sender.sessionId
  {
    hide HandlePacket, OurDisk, CountsAgree, ChunkBytes, Total;
    CrossWindow.HandleAdvances(setup.receiver, fs, s, p, io);
    HandleWellFormed(setup.receiver, fs, s, p, io);
  }

  /** The event as the client's packet. */
  lemma ArrivedOurs(cfg: ServerConfig, cl: Client, w: Scene, e: Servers.Event)
    requires CanStart(cl.sender) && NetKept(cl, w) && IsFor(e, KeyFor(cl)) && Arrives(w.toServer, e.bytes)
    ensures Ours(cl.sender, Carried(e).value.1) && |Carried(e).value.1.payload| <= MAX_PAYLOAD_SIZE
  {
    hide Serializer.Decode, Ours, Arrives;
    ArrivedWasSent(w.toServer, e.bytes);
    Serializer.EncodeDecode(e.bytes);
    assert OursIfRead(cl.sender, e.bytes);
  }

  /** The table in which the packet is served holds the client's session, old or fresh. */
  lemma ReadyKeepsKey(cfg: ServerConfig, cl: Client, t: Table, now: Time, copied: bool)
    requires CanStart(cl.sender) && TableInOrder(cfg, t) && KeyKept(cfg, cl, t, copied)
    ensures var u := Ready(cfg, t, KeyFor(cl), now);
            var key := KeyFor(cl);
            && key in u.sessions && WellFormedState(cfg.session, u.sessions[key].session)
            && (if u.sessions[key].session.published then copied && key in t.sessions
                else OurDisk(SetupFor(cfg, cl), u.fs, u.sessions[key].session))
            && (key in t.sessions ==> u == t)
  {
    hide OurDisk, Admit, TableOwn, AllPlaced, Accounted, Bounded, WellFormedState;
    var key := KeyFor(cl);
    if key in t.sessions {
      assert EntryKept(cfg, t.sessions[key]);
    } else {
      Admitted(cfg, t, key, now);
      FreshWellFormed(cfg.session);
      FreshDisk(SetupFor(cfg, cl), Admit(cfg, t, key, now).fs);
    }
  }

  /** Serving the client keeps its session to the source, and a FIN_ACK for it comes no sooner
      than the copy. */
  lemma ClientServed(cfg: ServerConfig, cl: Client, w: Scene, e: Servers.Event)
    requires CanStart(cl.sender) && TableInOrder(cfg, w.table) && NetKept(cl, w) && KeyKept(cfg, cl, w.table, w.copied)
    requires IsFor(e, KeyFor(cl)) && Arrives(w.toServer, e.bytes)
    ensures var v := Then(cfg, cl, w, Serves(e));
            && KeyKept(cfg, cl, v.table, v.copied)
            && (Step(cfg, w.table, e).reply.Reply? && Step(cfg, w.table, e).reply.packetType == FinAck ==> v.copied)
  {
    hide OurDisk, Ready, TableInOrder, NetKept, KeyKept, HandlePacket, Serve, OnPacket, Step, Replied, Ours, Carried,
      Opens, Arrives, WellFormedState, Fresh, Sanitize;
    var key := KeyFor(cl);
    var t := w.table;
    EventCases(cfg, t, e);
    ArrivedOurs(cfg, cl, w, e);
    ReadyKeepsKey(cfg, cl, t, e.now, w.copied);
    var p := Carried(e).value.1;
    PacketCases(cfg, t, key, p, e.now, e.settledAt, e.io);
    if key in t.sessions || Opens(cfg, t, key, p) {
      var ready := Ready(cfg, t, key, e.now);
      ServedEntry(cfg, ready, key, p, e.now, e.settledAt, e.io);
      ServedDisk(SetupFor(cfg, cl), ready.fs, ready.sessions[key].session, p, e.io);
      KeyServed(cfg, cl, w, e);
    } else {
      Refusal(cfg, t, key, p, e.now, e.settledAt, e.io);
      StillNobody(cfg, cl, t, Step(cfg, t, e).table, Then(cfg, cl, w, Serves(e)).copied);
    }
  }

  lemma Refusal(cfg: ServerConfig, t: Table, key: Key, p: Packet, now: Time, settledAt: Time, io: Io)
    requires key !in t.sessions && !Opens(cfg, t, key, p)
    ensures var reply := OnPacket(cfg, t, key, p, now, settledAt, io).reply;
            reply.Reply? ==> reply.packetType == ErrorPacket
  {
    hide Serve, Admit, Refuses, ToByte, StatusByte;
  }

  lemma StillNobody(cfg: ServerConfig, cl: Client, t: Table, u: Table, copied: bool)
    requires CanStart(cl.sender) && KeyFor(cl) !in t.sessions && u.sessions == t.sessions
    ensures KeyKept(cfg, cl, u, copied)
  {
  }

  lemma KeyServed(cfg: ServerConfig, cl: Client, w: Scene, e: Servers.Event)
    requires CanStart(cl.sender) && IsFor(e, KeyFor(cl))
    requires var key := KeyFor(cl);
             var ready := Ready(cfg, w.table, key, e.now);
             var u := Step(cfg, w.table, e).table;
             && key in ready.sessions && key in u.sessions
             && (key in w.table.sessions ==> ready == w.table)
             && var s := ready.sessions[key].session;
                var now := u.sessions[key].session;
                && (s.published ==> w.copied && key in w.table.sessions)
                && (!now.published ==> OurDisk(SetupFor(cfg, cl), u.fs, now))
                && (now.published && !s.published ==>
                      && Sanitize(cl.sender.name).Ok?
                      && var path := JoinPath(cfg.session.directory, Sanitize(cl.sender.name).value);
                         path in u.fs && u.fs[path] == cl.sender.file)
    ensures var v := Then(cfg, cl, w, Serves(e));
            KeyKept(cfg, cl, v.table, v.copied) &&
            (Step(cfg, w.table, e).table.sessions[KeyFor(cl)].session.published ==> v.copied)
  {
    hide OurDisk, Ready, Step, Replied, IsFor, Carried, Sanitize, JoinPath;
  }

  lemma ServesKept(cfg: ServerConfig, cl: Client, w: Scene, e: Servers.Event)
    requires CanStart(cl.sender) && Kept(cfg, cl, w) && Allowed(cfg, cl, w, Serves(e))
    ensures Kept(cfg, cl, Then(cfg, cl, w, Serves(e)))
  {
    hide Step, Fitting, Carried, KeyKept, TableOwn, AllPlaced, TableKept, Replied, SenderInv, OursIfRead,
      Serializer.Decode, Publishes, Arrives;
    StepOwn(cfg, w.table, e);
    StepKept(cfg, w.table, e);
    TableUnfolds(cfg, w.table);
    if IsFor(e, KeyFor(cl)) {
      ClientServed(cfg, cl, w, e);
      ReplyReads(Carried(e).value.1.header, Step(cfg, w.table, e).reply);
    } else {
      OthersKept(cfg, cl, w.table, e, w.copied);
      MoreCopied(cfg, cl, Step(cfg, w.table, e).table, w.copied, Then(cfg, cl, w, Serves(e)).copied);
    }
  }

  lemma TableUnfolds(cfg: ServerConfig, t: Table)
    requires TableInOrder(cfg, t)
    ensures TableOwn(cfg, t.sessions) && AllPlaced(t.sessions) && TableKept(cfg, t)
  {
  }

  lemma MoreCopied(cfg: ServerConfig, cl: Client, t: Table, before: bool, now: bool)
    requires CanStart(cl.sender) && KeyKept(cfg, cl, t, before) && (before ==> now)
    ensures KeyKept(cfg, cl, t, now)
  {
    hide OurDisk;
  }

  lemma {:induction false} ReachableKept(cfg: ServerConfig, cl: Client, fs: FileSystem, acts: Acts)
    requires CanStart(cl.sender) && AllAllowed(cfg, cl, fs, acts)
    ensures Kept(cfg, cl, SceneAfter(cfg, cl, fs, acts))
    decreases |acts|
  {
    if acts == [] {
      OpeningKept(cfg, cl, fs);
    } else {
      hide Kept, Allowed, Then, Opening;
      var front := acts[..|acts| - 1];
      var w := SceneAfter(cfg, cl, fs, front);
      ReachableKept(cfg, cl, fs, front);
      match acts[|acts| - 1]
      case Moves(e) => MovesKept(cfg, cl, w, e);
      case Hears(d) => HearsKept(cfg, cl, w, d);
      case Serves(e) => ServesKept(cfg, cl, w, e);
    }
  }

  /** Act i of the run published the source. */
  ghost predicate CopiedAt(cfg: ServerConfig, cl: Client, fs: FileSystem, acts: Acts, i: nat)
    requires CanStart(cl.sender) && i < |acts|
  {
    acts[i].Serves? && Publishes(cfg, cl, SceneAfter(cfg, cl, fs, acts[..i]).table, acts[i].event)
  }

  lemma {:induction false} CopiedOnce(cfg: ServerConfig, cl: Client, fs: FileSystem, acts: Acts)
    requires CanStart(cl.sender) && SceneAfter(cfg, cl, fs, acts).copied
    ensures exists i :: 0 <= i < |acts| && CopiedAt(cfg, cl, fs, acts, i)
    decreases |acts|
  {
    hide Publishes, Step, Emitted, OnDatagram;
    var m := |acts| - 1;
    var front := acts[..m];
    if SceneAfter(cfg, cl, fs, front).copied {
      CopiedOnce(cfg, cl, fs, front);
      var i :| 0 <= i < |front| && CopiedAt(cfg, cl, fs, front, i);
      assert front[..i] == acts[..i];
      assert CopiedAt(cfg, cl, fs, acts, i);
    } else {
      assert CopiedAt(cfg, cl, fs, acts, m);
    }
  }

  /** End-to-end exactness against the server. Whatever the network does and whoever else uses
      the server, through sweeps, purges, refusals and re-admission under the same key: if the
      sender reports success, then some event of the run published a file equal to the source
      under the sanitized name. */
  lemma SuccessMeansPublished(cfg: ServerConfig, cl: Client, fs: FileSystem, acts: Acts)
    requires CanStart(cl.sender) && AllAllowed(cfg, cl, fs, acts)
    requires SceneAfter(cfg, cl, fs, acts).sender.phase == Ended(NoError)
    ensures exists i :: 0 <= i < |acts| && CopiedAt(cfg, cl, fs, acts, i)
  {
    hide CopiedAt, SceneAfter, AllAllowed, SenderInv, TableInOrder, NetKept, KeyKept;
    ReachableKept(cfg, cl, fs, acts);
    CopiedOnce(cfg, cl, fs, acts);
  }
}
