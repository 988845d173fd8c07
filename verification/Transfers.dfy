/** A whole transfer: the sending machine, the receiving session, the disk, and a network
    that may lose, repeat, delay, reorder and corrupt datagrams between them. */
module Transfers {
  import opened Common
  import opened Packets
  import opened Files
  import opened Sessions
  import opened Senders
  import Serializer

  datatype Setup = Setup(sender: SenderConfig, receiver: Config)

  /** The network is the set of datagrams ever sent each way: delivering one does not use it
      up, and nothing forces a delivery, so loss, repetition, delay and reordering need no
      steps of their own. `misled` records that the sender has heard something that runs ahead
      of the receiver. */
  datatype World = World(
    sender: SState,
    session: State,
    fs: FileSystem,
    toReceiver: set<seq<byte>>,
    toSender: set<seq<byte>>,
    misled: bool)

  datatype Action =
    | SenderMoves(e: Event)
    | SenderHears(datagram: seq<byte>)
    | ReceiverHears(datagram: seq<byte>, io: Io)

  function Start(setup: Setup, fs: FileSystem): World {
    World(Initial(setup.sender), Fresh(setup.receiver), fs, {}, {}, false)
  }

  /** A datagram that was sent, intact or with one bit inverted. */
  ghost predicate Arrives(net: set<seq<byte>>, d: seq<byte>) {
    d in net || exists w, bit :: w in net && 0 <= bit < 8 * |w| && d == Serializer.FlipBit(w, bit)
  }

  /** Anything else the sender's socket may receive, short of a forged success: garbage,
      stray replies, and acknowledgements and errors of any session. */
  ghost predicate StrayForSender(c: SenderConfig, d: seq<byte>) {
    Serializer.Decode(d).Ok? ==>
      var h := Serializer.Decode(d).value.header;
      !(h.packetType == FinAck && h.sessionId == c.sessionId)
  }

  /** Anything else the receiver may be handed: garbage and packets of other sessions. */
  ghost predicate StrayForReceiver(c: SenderConfig, d: seq<byte>) {
    Serializer.Decode(d).Ok? ==> Serializer.Decode(d).value.header.sessionId != c.sessionId
  }

  /** Hearing d makes the sender count as done what the receiver has not done: it retires a
      chunk that is not stored, or takes a handshake for answered that was not. */
  ghost predicate Misleads(c: SenderConfig, s: SState, session: State, d: seq<byte>) {
    Serializer.Decode(d).Ok? &&
    var h := Serializer.Decode(d).value.header;
    match s.phase
    case Starting =>
      h.packetType == StartAck && h.sessionId == c.sessionId && h.acknowledgementNumber == 0 && !IsOurs(c, session)
    case Sending =>
      h.packetType == Ack && h.acknowledgementNumber in s.window.unacked &&
      h.acknowledgementNumber !in session.window.stored
    case _ => false
  }

  /** The session has accepted this transfer's START. */
  predicate IsOurs(c: SenderConfig, session: State) {
    session.started && session.sessionId == c.sessionId
  }

  ghost predicate CanHappen(setup: Setup, w: World, a: Action)
    requires CanStart(setup.sender)
  {
    match a
    case SenderMoves(e) => !e.Receive? && Enabled(setup.sender, w.sender, e)
    case SenderHears(d) =>
      && Enabled(setup.sender, w.sender, Receive(d))
      && (Arrives(w.toSender, d) || StrayForSender(setup.sender, d))
    case ReceiverHears(d, io) => Arrives(w.toReceiver, d) || StrayForReceiver(setup.sender, d)
  }

  /** What the driver sends back: the session's answer under the packet's own session id. */
  function Replied(h: Header, reply: Reply): set<seq<byte>> {
    if reply.Silent? then {}
    else
      var header := MakeHeader(reply.packetType, h.sessionId, reply.sequence, reply.sequence, 0);
      {Serializer.Encode(header, reply.payload)}
  }

  ghost function After(setup: Setup, w: World, a: Action): World
    requires CanStart(setup.sender)
  {
    match a
    case SenderMoves(e) =>
      w.(sender := Apply(setup.sender, w.sender, e),
         toReceiver := w.toReceiver + (match Emitted(setup.sender, w.sender, e)
                                       case Some(wire) => {wire}
                                       case None => {}))
    case SenderHears(d) =>
      w.(sender := OnDatagram(setup.sender, w.sender, d),
         misled := w.misled || Misleads(setup.sender, w.sender, w.session, d))
    case ReceiverHears(d, io) =>
      match Serializer.Decode(d)
      case Err(_) => w
      case Ok(p) =>
        var o := HandlePacket(setup.receiver, w.fs, w.session, p, io);
        w.(fs := o.fs, session := o.state, toSender := w.toSender + Replied(p.header, o.reply))
  }

  type Schedule = seq<Action>

  ghost function WorldAfter(setup: Setup, fs: FileSystem, actions: Schedule): World
    requires CanStart(setup.sender)
  {
    if actions == [] then Start(setup, fs)
    else After(setup, WorldAfter(setup, fs, actions[..|actions| - 1]), actions[|actions| - 1])
  }

  ghost predicate Possible(setup: Setup, fs: FileSystem, actions: Schedule)
    requires CanStart(setup.sender)
  {
    actions == [] ||
    var front := actions[..|actions| - 1];
    Possible(setup, fs, front) && CanHappen(setup, WorldAfter(setup, fs, front), actions[|actions| - 1])
  }

  // ------------------------------------------------------------------------
  // Datagrams
  // ------------------------------------------------------------------------

  /** Everything sent is readable, except what the format could not describe. */
  ghost predicate Intact(net: set<seq<byte>>) {
    forall d <- net :: d == [] || Serializer.Decode(d).Ok?
  }

  /** Corruption only loses datagrams: what arrives and decodes was sent as it is. */
  lemma ArrivedWasSent(net: set<seq<byte>>, d: seq<byte>)
    requires Intact(net) && Arrives(net, d) && Serializer.Decode(d).Ok?
    ensures d in net
  {
    hide Serializer.Decode;
    if d !in net {
      var w, bit :| w in net && 0 <= bit < 8 * |w| && d == Serializer.FlipBit(w, bit);
      Serializer.BitFlipRejected(w, bit);
    }
  }

  /** A packet under a default header is readable as itself, or not sent at all. */
  lemma WireReads(h: Header, payload: seq<byte>)
    requires Serializer.ValidHeader(h)
    ensures var d := Serializer.Encode(h, payload);
            d == [] || (|payload| <= MAX_PAYLOAD_SIZE && Serializer.Decode(d) == Ok(Serializer.Sent(h, payload)))
  {
    if |payload| <= MAX_PAYLOAD_SIZE {
      Serializer.DecodeEncode(h, payload);
    }
  }
}
