/** Progress against the server: while a client's session stays in the table, its transfer is an
    undisturbed one, so success stays possible exactly as it does without the server. */
module ServedProgress {
  import opened Common
  import opened Packets
  import opened Files
  import opened Filenames
  import opened Sessions
  import opened Senders
  import opened Transfers
  import opened Exactness
  import opened CrossWindow
  import opened Progress
  import opened Completion
  import opened RetryLimits
  import opened Servers
  import opened ServerProjection
  import opened ServedTransfers
  import Serializer

  // ------------------------------------------------------------------------
  // A scene as a transfer
  // ------------------------------------------------------------------------

  /** The client's session, which is a fresh one until it is admitted. */
  function SessionOf(cfg: ServerConfig, cl: Client, t: Table): State {
    if KeyFor(cl) in t.sessions then t.sessions[KeyFor(cl)].session else Fresh(cfg.session)
  }

  /** A transfer in the same state, on a disk of its own. */
  ghost predicate Mirrors(cfg: ServerConfig, cl: Client, s: Scene, w: World) {
    && w.sender == s.sender && w.toReceiver == s.toServer && w.toSender == s.toSender
    && w.session == SessionOf(cfg, cl, s.table) && SameTemp(s.table.fs, w.fs, w.session)
  }

  /** What the sender hears does not disturb it; the client's packets find its session, or open
      it, and every call they make works; and once admitted the session is neither swept nor
      purged. Everybody else may do as before. */
  ghost predicate Steady(cfg: ServerConfig, cl: Client, s: Scene, a: Act) {
    var key := KeyFor(cl);
    match a
    case Moves(e) => true
    case Hears(d) =>
      || Arrives(s.toSender, d)
      || Harmless(cl.sender, World(s.sender, SessionOf(cfg, cl, s.table), s.table.fs, s.toServer, s.toSender, false), d)
    case Serves(e) =>
      && (IsFor(e, key) ==>
            e.io == ALL_WORKS && (key in s.table.sessions || Opens(cfg, s.table, key, Carried(e).value.1)))
      && (key in s.table.sessions ==> key in Step(cfg, s.table, e).table.sessions)
  }

  ghost predicate AllSteady(cfg: ServerConfig, cl: Client, fs: FileSystem, acts: Acts)
    requires CanStart(cl.sender)
  {
    acts == [] ||
    var front := acts[..|acts| - 1];
    AllSteady(cfg, cl, fs, front) && Steady(cfg, cl, SceneAfter(cfg, cl, fs, front), acts[|acts| - 1])
  }

  /** What an act is to the transfer. */
  function Share(cl: Client, a: Act): Option<Action> {
    match a
    case Moves(e) => Some(SenderMoves(e))
    case Hears(d) => Some(SenderHears(d))
    case Serves(e) => if IsFor(e, KeyFor(cl)) then Some(ReceiverHears(e.bytes, e.io)) else None
  }

  /** The act and its share lead to states that mirror each other again. */
  ghost predicate InStep(cfg: ServerConfig, cl: Client, s: Scene, w: World, a: Act)
    requires CanStart(cl.sender)
  {
    var setup := SetupFor(cfg, cl);
    match Share(cl, a)
    case None => Mirrors(cfg, cl, Then(cfg, cl, s, a), w)
    case Some(x) =>
      && CanHappen(setup, w, x) && Calm(setup, w, x)
      && Mirrors(cfg, cl, Then(cfg, cl, s, a), After(setup, w, x))
  }

  lemma MovesMirrored(cfg: ServerConfig, cl: Client, s: Scene, w: World, e: Senders.Event)
    requires CanStart(cl.sender) && Mirrors(cfg, cl, s, w) && Allowed(cfg, cl, s, Moves(e))
    ensures InStep(cfg, cl, s, w, Moves(e))
  {
    hide Enabled, Apply, Emitted, SameTemp, SessionOf;
  }

  lemma HearsMirrored(cfg: ServerConfig, cl: Client, s: Scene, w: World, d: seq<byte>)
    requires CanStart(cl.sender) && Mirrors(cfg, cl, s, w)
    requires Allowed(cfg, cl, s, Hears(d)) && Steady(cfg, cl, s, Hears(d))
    ensures InStep(cfg, cl, s, w, Hears(d))
  {
    hide Enabled, OnDatagram, Arrives, StrayForSender, Misleads, SameTemp, SessionOf, Serializer.Decode;
  }

  /** Events for others go unnoticed. */
  lemma OthersMirrored(cfg: ServerConfig, cl: Client, s: Scene, w: World, e: Servers.Event)
    requires CanStart(cl.sender) && Kept(cfg, cl, s) && Mirrors(cfg, cl, s, w)
    requires Allowed(cfg, cl, s, Serves(e)) && Steady(cfg, cl, s, Serves(e)) && !IsFor(e, KeyFor(cl))
    ensures InStep(cfg, cl, s, w, Serves(e))
  {
    hide SenderInv, NetKept, KeyKept, TableOwn, AllPlaced, EntriesKept, Accounted, Bounded, Fitting, IsFor, Step,
      SameTemp, Carried, Publishes, Fresh;
    var key := KeyFor(cl);
    var u := Step(cfg, s.table, e).table;
    if key in u.sessions {
      OthersUndisturbed(cfg, s.table, e, key);
      StillSameTemp(cfg, s.table, u, w.fs, key);
    } else {
      assert key !in s.table.sessions;
      NothingToShare(cfg, s.table.fs, u.fs, w.fs);
    }
  }

  lemma StillSameTemp(cfg: ServerConfig, t: Table, u: Table, disk: FileSystem, key: Key)
    requires TableOwn(cfg, t.sessions) && Undisturbed(cfg, t, u, key) && SameTemp(t.fs, disk, t.sessions[key].session)
    ensures SameTemp(u.fs, disk, u.sessions[key].session)
  {
    hide TempPath, FileAt;
    assert OwnPaths(cfg.session, key.sessionId, t.sessions[key].session);
  }

  lemma NothingToShare(cfg: ServerConfig, a: FileSystem, b: FileSystem, disk: FileSystem)
    ensures SameTemp(a, disk, Fresh(cfg.session)) && SameTemp(b, disk, Fresh(cfg.session))
  {
  }

  /** The table in which the client's packet is served holds the mirrored session. */
  lemma ReadyMirrored(cfg: ServerConfig, cl: Client, s: Scene, w: World, now: Servers.Time)
    requires CanStart(cl.sender) && Kept(cfg, cl, s) && Mirrors(cfg, cl, s, w)
    ensures var ready := Ready(cfg, s.table, KeyFor(cl), now);
            && KeyFor(cl) in ready.sessions && ready.sessions[KeyFor(cl)].session == w.session
            && WellFormedState(cfg.session, w.session) && SameTemp(ready.fs, w.fs, w.session)
  {
    hide SenderInv, NetKept, KeyKept, TableOwn, AllPlaced, Accounted, Bounded, SameTemp, Admit, WellFormedState, Fresh;
    var key := KeyFor(cl);
    if key in s.table.sessions {
      assert EntryKept(cfg, s.table.sessions[key]);
    } else {
      Admitted(cfg, s.table, key, now);
      FreshWellFormed(cfg.session);
      NothingToShare(cfg, Admit(cfg, s.table, key, now).fs, s.table.fs, w.fs);
    }
  }

  lemma ClientMirrored(cfg: ServerConfig, cl: Client, s: Scene, w: World, e: Servers.Event)
    requires CanStart(cl.sender) && Kept(cfg, cl, s) && Mirrors(cfg, cl, s, w)
    requires Allowed(cfg, cl, s, Serves(e)) && Steady(cfg, cl, s, Serves(e)) && IsFor(e, KeyFor(cl))
    ensures InStep(cfg, cl, s, w, Serves(e))
  {
    hide Kept, Fitting, Step, SameTemp, Ready, Opens, HandlePacket, Serve, OnPacket, Replied, WellFormedState, Arrives,
      Publishes, Serializer.Decode, Fresh;
    var key := KeyFor(cl);
    EventCases(cfg, s.table, e);
    var p := Carried(e).value.1;
    PacketCases(cfg, s.table, key, p, e.now, e.settledAt, e.io);
    ReadyMirrored(cfg, cl, s, w, e.now);
    var ready := Ready(cfg, s.table, key, e.now);
    ServedEntry(cfg, ready, key, p, e.now, e.settledAt, e.io);
    LooksOnlyAtTemp(cfg.session, ready.fs, w.fs, w.session, p, e.io);
  }

  lemma ActMirrored(cfg: ServerConfig, cl: Client, s: Scene, w: World, a: Act)
    requires CanStart(cl.sender) && Kept(cfg, cl, s) && Mirrors(cfg, cl, s, w)
    requires Allowed(cfg, cl, s, a) && Steady(cfg, cl, s, a)
    ensures InStep(cfg, cl, s, w, a)
  {
    hide *;
    match a
    case Moves(e) => MovesMirrored(cfg, cl, s, w, e);
    case Hears(d) => HearsMirrored(cfg, cl, s, w, d);
    case Serves(e) =>
      if IsFor(e, KeyFor(cl)) {
        ClientMirrored(cfg, cl, s, w, e);
      } else {
        OthersMirrored(cfg, cl, s, w, e);
      }
  }

  lemma ActKept(cfg: ServerConfig, cl: Client, s: Scene, a: Act)
    requires CanStart(cl.sender) && Kept(cfg, cl, s) && Allowed(cfg, cl, s, a)
    ensures Kept(cfg, cl, Then(cfg, cl, s, a))
  {
    hide *;
    match a
    case Moves(e) => MovesKept(cfg, cl, s, e);
    case Hears(d) => HearsKept(cfg, cl, s, d);
    case Serves(e) => ServesKept(cfg, cl, s, e);
  }

  /** Every steady run against the server, however much company it has, is an undisturbed run of
      the transfer on its own. */
  lemma {:induction false} Projected(cfg: ServerConfig, cl: Client, fs: FileSystem, acts: Acts)
      returns (actions: Schedule)
    requires CanStart(cl.sender) && AllAllowed(cfg, cl, fs, acts) && AllSteady(cfg, cl, fs, acts)
    ensures var setup := SetupFor(cfg, cl);
            && Possible(setup, fs, actions) && CalmRun(setup, fs, actions)
            && Mirrors(cfg, cl, SceneAfter(cfg, cl, fs, acts), WorldAfter(setup, fs, actions))
    decreases |acts|
  {
    var setup := SetupFor(cfg, cl);
    if acts == [] {
      actions := [];
      OpeningMirrored(cfg, cl, fs);
    } else {
      hide Kept, Allowed, Steady, Then, Mirrors, CanHappen, Calm, After, Opening, Transfers.Start;
      var front := acts[..|acts| - 1];
      var a := acts[|acts| - 1];
      var before := Projected(cfg, cl, fs, front);
      var s, w := SceneAfter(cfg, cl, fs, front), WorldAfter(setup, fs, before);
      ReachableKept(cfg, cl, fs, front);
      ActMirrored(cfg, cl, s, w, a);
      match Share(cl, a)
      case None => actions := before;
      case Some(x) =>
        actions := before + [x];
        assert actions[..|before|] == before;
    }
  }

  lemma OpeningMirrored(cfg: ServerConfig, cl: Client, fs: FileSystem)
    requires CanStart(cl.sender)
    ensures Mirrors(cfg, cl, Opening(cfg, cl, fs), Transfers.Start(SetupFor(cfg, cl), fs))
  {
  }

  /** So nothing the server does to a session that it keeps makes the session fail, and no ERROR
      is ever under way to the client. */
  lemma ServedNeverFails(cfg: ServerConfig, cl: Client, fs: FileSystem, acts: Acts)
    requires Sound(SetupFor(cfg, cl)) && CanStart(cl.sender)
    requires AllAllowed(cfg, cl, fs, acts) && AllSteady(cfg, cl, fs, acts)
    ensures var s := SceneAfter(cfg, cl, fs, acts);
            && (KeyFor(cl) in s.table.sessions ==>
                  var session := s.table.sessions[KeyFor(cl)].session;
                  session.error == NoError && (session.finished ==> session.published))
            && (forall d <- s.toSender :: Serializer.Decode(d).Ok? ==>
                  Serializer.Decode(d).value.header.packetType != ErrorPacket)
  {
    hide Sound, AllAllowed, AllSteady, SceneAfter, Possible, CalmRun, WorldAfter, Serializer.Decode, Good;
    var setup := SetupFor(cfg, cl);
    var actions := Projected(cfg, cl, fs, acts);
    NeverFails(setup, fs, actions);
    ReachableGood(setup, fs, actions);
    GoodUnfolds(setup, WorldAfter(setup, fs, actions));
    hide Exact, Linked, CapacityKept, SameTemp;
  }

  // ------------------------------------------------------------------------
  // A way to finish, at the server
  // ------------------------------------------------------------------------

  /** The client has its session, or there is room to open one that disturbs nobody. */
  ghost predicate Welcome(cfg: ServerConfig, cl: Client, t: Table) {
    KeyFor(cl) in t.sessions ||
    (!Refuses(cfg, t) && NewId(Room(cfg, t).sessions, KeyFor(cl)) &&
     Sanitize(cl.sender.name).Ok? && !Reserved(Sanitize(cl.sender.name).value))
  }

  /** `more`, taken from s on, is a steady run that ends in success. */
  ghost predicate ServedCompletes(cfg: ServerConfig, cl: Client, s: Scene, more: Acts)
    requires CanStart(cl.sender)
    decreases |more|
  {
    if more == [] then s.sender.phase == Ended(NoError)
    else
      Allowed(cfg, cl, s, more[0]) && Steady(cfg, cl, s, more[0]) &&
      ServedCompletes(cfg, cl, Then(cfg, cl, s, more[0]), more[1..])
  }

  /** An action of the transfer as an act at the server. */
  function ActOf(cl: Client, x: Action): Act {
    match x
    case SenderMoves(e) => Moves(e)
    case SenderHears(d) => Hears(d)
    case ReceiverHears(d, io) => Serves(Servers.Datagram(cl.address, cl.port, d, 0, 0, io))
  }

  /** The act can happen at the server, is steady, and is that action's. */
  ghost predicate Lifts(cfg: ServerConfig, cl: Client, s: Scene, x: Action)
    requires CanStart(cl.sender)
  {
    var a := ActOf(cl, x);
    && Allowed(cfg, cl, s, a) && Steady(cfg, cl, s, a) && Share(cl, a) == Some(x)
    && Welcome(cfg, cl, Then(cfg, cl, s, a).table)
  }

  lemma SenderLifts(cfg: ServerConfig, cl: Client, s: Scene, w: World, x: Action)
    requires CanStart(cl.sender) && Mirrors(cfg, cl, s, w) && Welcome(cfg, cl, s.table) && !x.ReceiverHears?
    requires CanHappen(SetupFor(cfg, cl), w, x) && Calm(SetupFor(cfg, cl), w, x)
    ensures Lifts(cfg, cl, s, x)
  {
    hide Enabled, OnDatagram, Apply, Emitted, Arrives, StrayForSender, Misleads, SameTemp, SessionOf,
      Serializer.Decode, Welcome;
  }

  /** Before the client is admitted, what arrives from it is START. */
  lemma FirstIsStart(cfg: ServerConfig, cl: Client, s: Scene, w: World, d: seq<byte>)
    requires CanStart(cl.sender) && Mirrors(cfg, cl, s, w) && Good(SetupFor(cfg, cl), w)
    requires Arrives(w.toReceiver, d) && Serializer.Decode(d).Ok?
    ensures var p := Serializer.Decode(d).value;
            && Ours(cl.sender, p) && p.header.sessionId == cl.sender.sessionId
            && (KeyFor(cl) !in s.table.sessions ==> p.header.packetType == Packets.Start && p.payload == cl.sender.name)
  {
    hide Good, Exact, Linked, Arrives, Serializer.Decode, SameTemp;
    GoodUnfolds(SetupFor(cfg, cl), w);
    ArrivedPacket(SetupFor(cfg, cl), w, d);
  }

  lemma OwnArrives(setup: Setup, w: World, d: seq<byte>, io: Io)
    requires CanStart(setup.sender) && CanHappen(setup, w, ReceiverHears(d, io)) && Calm(setup, w, ReceiverHears(d, io))
    requires OfTransfer(setup.sender, ReceiverHears(d, io))
    ensures Arrives(w.toReceiver, d) && Serializer.Decode(d).Ok? && io == ALL_WORKS
  {
    hide Arrives, Serializer.Decode;
  }

  lemma ReceiverLifts(cfg: ServerConfig, cl: Client, s: Scene, w: World, d: seq<byte>, io: Io)
    requires CanStart(cl.sender) && Mirrors(cfg, cl, s, w) && Welcome(cfg, cl, s.table) && Good(SetupFor(cfg, cl), w)
    requires var x := ReceiverHears(d, io);
             CanHappen(SetupFor(cfg, cl), w, x) && Calm(SetupFor(cfg, cl), w, x) && OfTransfer(cl.sender, x)
    ensures Lifts(cfg, cl, s, ReceiverHears(d, io))
  {
    hide CanHappen, Calm, OfTransfer, Good, Arrives, Serializer.Decode, Step, OnPacket, Serve, Ready, Refuses, NewId,
      Room, Reserved, Publishes, Replied, SameTemp, SessionOf, Ours;
    OwnArrives(SetupFor(cfg, cl), w, d, io);
    FirstIsStart(cfg, cl, s, w, d);
    var key := KeyFor(cl);
    var e := Servers.Datagram(cl.address, cl.port, d, 0, 0, io);
    EventCases(cfg, s.table, e);
    var p := Carried(e).value.1;
    PacketCases(cfg, s.table, key, p, 0, 0, io);
    ServedKeys(cfg, Ready(cfg, s.table, key, 0), key, p, 0, 0, io);
  }

  lemma ActionLifts(cfg: ServerConfig, cl: Client, s: Scene, w: World, x: Action)
    requires CanStart(cl.sender) && Mirrors(cfg, cl, s, w) && Welcome(cfg, cl, s.table) && Good(SetupFor(cfg, cl), w)
    requires CanHappen(SetupFor(cfg, cl), w, x) && Calm(SetupFor(cfg, cl), w, x) && OfTransfer(cl.sender, x)
    ensures Lifts(cfg, cl, s, x)
  {
    hide *;
    match x
    case ReceiverHears(d, io) => ReceiverLifts(cfg, cl, s, w, d, io);
    case SenderMoves(e) => SenderLifts(cfg, cl, s, w, x);
    case SenderHears(d) => SenderLifts(cfg, cl, s, w, x);
  }

  /** What completes the transfer on its own completes it at the server. */
  lemma {:induction false} Lifted(cfg: ServerConfig, cl: Client, s: Scene, w: World, more: Schedule)
      returns (acts: Acts)
    requires Sound(SetupFor(cfg, cl)) && CanStart(cl.sender) && Kept(cfg, cl, s) && Mirrors(cfg, cl, s, w)
    requires Good(SetupFor(cfg, cl), w) && Welcome(cfg, cl, s.table)
    requires Completes(SetupFor(cfg, cl), w, more) && OwnOnly(cl.sender, more)
    ensures ServedCompletes(cfg, cl, s, acts)
    decreases |more|
  {
    hide Sound, Workable, Kept, Good, Welcome, CanHappen, Calm, After, Then, Allowed, Steady, OfTransfer, SameTemp,
      SessionOf, Manageable;
    if more == [] {
      acts := [];
    } else {
      var setup := SetupFor(cfg, cl);
      var x := more[0];
      var a := ActOf(cl, x);
      assert OfTransfer(cl.sender, x);
      ActionLifts(cfg, cl, s, w, x);
      ActMirrored(cfg, cl, s, w, a);
      ActKept(cfg, cl, s, a);
      SoundWorks(setup);
      FitManages(setup, w, x);
      CalmStaysGood(setup, w, x);
      var rest := Lifted(cfg, cl, Then(cfg, cl, s, a), After(setup, w, x), more[1..]);
      acts := [a] + rest;
    }
  }

  lemma {:induction false} DoomedNeverServed(cfg: ServerConfig, cl: Client, s: Scene, more: Acts)
    requires CanStart(cl.sender) && SenderInv(cl.sender, s.sender) && Doomed(cl.sender, s.sender)
    ensures !ServedCompletes(cfg, cl, s, more)
    decreases |more|
  {
    hide Doomed, SenderInv, Allowed, Steady, Then;
    if more == [] {
      DoomedHasNotSucceeded(cl.sender, s.sender);
    } else if Allowed(cfg, cl, s, more[0]) {
      DoomedAct(cfg, cl, s, more[0]);
      DoomedNeverServed(cfg, cl, Then(cfg, cl, s, more[0]), more[1..]);
    }
  }

  lemma DoomedAct(cfg: ServerConfig, cl: Client, s: Scene, a: Act)
    requires CanStart(cl.sender) && Allowed(cfg, cl, s, a)
    requires SenderInv(cl.sender, s.sender) && Doomed(cl.sender, s.sender)
    ensures var t := Then(cfg, cl, s, a).sender; SenderInv(cl.sender, t) && Doomed(cl.sender, t)
  {
    hide Doomed, SenderInv, Enabled, OnDatagram, Step, Emitted, Publishes, Replied, Fitting, Arrives, StrayForSender;
    match a
    case Moves(e) =>
      StepKeepsInv(cl.sender, s.sender, e);
      DoomedEvent(cl.sender, s.sender, e);
    case Hears(d) =>
      StepKeepsInv(cl.sender, s.sender, Receive(d));
      DoomedEvent(cl.sender, s.sender, Receive(d));
    case Serves(e) =>
  }

  lemma KeptInv(cfg: ServerConfig, cl: Client, s: Scene)
    requires CanStart(cl.sender) && Kept(cfg, cl, s)
    ensures SenderInv(cl.sender, s.sender)
  {
    hide SenderInv;
  }

  lemma MirroredSender(cfg: ServerConfig, cl: Client, s: Scene, w: World)
    requires Mirrors(cfg, cl, s, w)
    ensures w.sender == s.sender
  {
  }

  /** Progress at the server, exactly: after any steady run, as long as the client has its session
      or can still open one, some steady continuation ends in success if and only if the sender
      is not doomed by its own timers and budgets. */
  lemma ServedSuccessStaysPossible(cfg: ServerConfig, cl: Client, fs: FileSystem, acts: Acts)
    requires Sound(SetupFor(cfg, cl)) && CanStart(cl.sender)
    requires AllAllowed(cfg, cl, fs, acts) && AllSteady(cfg, cl, fs, acts)
    requires Welcome(cfg, cl, SceneAfter(cfg, cl, fs, acts).table)
    ensures var s := SceneAfter(cfg, cl, fs, acts);
            (exists more :: ServedCompletes(cfg, cl, s, more)) <==> !Doomed(cl.sender, s.sender)
  {
    hide *;
    var setup := SetupFor(cfg, cl);
    assert setup.sender == cl.sender by { SetupSender(cfg, cl); }
    var s := SceneAfter(cfg, cl, fs, acts);
    ReachableKept(cfg, cl, fs, acts);
    if Doomed(cl.sender, s.sender) {
      KeptInv(cfg, cl, s);
      forall more ensures !ServedCompletes(cfg, cl, s, more) {
        DoomedNeverServed(cfg, cl, s, more);
      }
    } else {
      var actions := Projected(cfg, cl, fs, acts);
      var w := WorldAfter(setup, fs, actions);
      ReachableGood(setup, fs, actions);
      MirroredSender(cfg, cl, s, w);
      var more := Finish(setup, w);
      var served := Lifted(cfg, cl, s, w, more);
    }
  }

  lemma SetupSender(cfg: ServerConfig, cl: Client)
    ensures SetupFor(cfg, cl).sender == cl.sender
  {
  }
}
