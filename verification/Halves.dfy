/** Each half of a transfer, taken by itself, is a run of its own machine; so what is proved
    of every sender run and of every session run holds inside every transfer. */
module Halves {
  import opened Common
  import opened Packets
  import opened Files
  import opened Sessions
  import opened SessionSafety
  import opened Senders
  import opened SenderRuns
  import opened Transfers

  /** The sender's share of one action. */
  function SenderPart(a: Action): Log {
    match a
    case SenderMoves(e) => [e]
    case SenderHears(d) => [Receive(d)]
    case ReceiverHears(_, _) => []
  }

  function SenderLog(actions: Schedule): Log {
    if actions == [] then []
    else SenderLog(actions[..|actions| - 1]) + SenderPart(actions[|actions| - 1])
  }

  /** The session's share: a datagram that does not decode never reaches it. */
  function SessionPart(a: Action): seq<Input> {
    if a.ReceiverHears? && Serializer.Decode(a.datagram).Ok?
    then [Input(Serializer.Decode(a.datagram).value, a.io)] else []
  }

  function SessionInputs(actions: Schedule): seq<Input> {
    if actions == [] then []
    else SessionInputs(actions[..|actions| - 1]) + SessionPart(actions[|actions| - 1])
  }

  ghost predicate SenderHalf(setup: Setup, w: World, log: Log)
    requires CanStart(setup.sender)
  {
    && IsRun(setup.sender, log) && StateAfter(setup.sender, log) == w.sender
    && w.toReceiver == set d | d in Outgoing(setup.sender, log)
  }

  ghost predicate SessionHalf(setup: Setup, fs: FileSystem, w: World, inputs: seq<Input>) {
    var r := RunOf(setup.receiver, fs, inputs);
    Decodable(inputs) && r.fs == w.fs && r.state == w.session
  }

  lemma SenderHalfStep(setup: Setup, w: World, a: Action, log: Log)
    requires CanStart(setup.sender) && SenderHalf(setup, w, log) && CanHappen(setup, w, a)
    ensures SenderHalf(setup, After(setup, w, a), log + SenderPart(a))
  {
    hide IsRun, StateAfter, Enabled, Apply, Emitted, Outgoing, HandlePacket, Serializer.Decode, Arrives,
      StrayForSender, StrayForReceiver, OnDatagram, Replied;
    match a
    case SenderMoves(e) => Snoc(setup.sender, log, e);
    case SenderHears(d) =>
      Snoc(setup.sender, log, Receive(d));
      HearingIsReceiving(setup.sender, w.sender, d);
    case ReceiverHears(_, _) => assert log + [] == log;
  }

  lemma HearingIsReceiving(c: SenderConfig, s: SState, d: seq<byte>)
    requires CanStart(c)
    ensures Apply(c, s, Receive(d)) == OnDatagram(c, s, d) && Emitted(c, s, Receive(d)).None?
  {
    hide OnDatagram;
  }

  /** What an action is to the session: at most one packet handled. */
  lemma SessionShare(setup: Setup, w: World, a: Action)
    requires CanStart(setup.sender)
    ensures var v := After(setup, w, a);
            if SessionPart(a) == [] then v.fs == w.fs && v.session == w.session
            else
              var i := SessionPart(a)[0];
              var o := HandlePacket(setup.receiver, w.fs, w.session, i.packet, i.io);
              && SessionPart(a) == [i] && |i.packet.payload| <= MAX_PAYLOAD_SIZE
              && v.fs == o.fs && v.session == o.state
  {
    hide HandlePacket, Serializer.Decode, Arrives, Emitted, Apply, OnDatagram, Replied;
    if SessionPart(a) != [] {
      Serializer.EncodeDecode(a.datagram);
    }
  }

  lemma RunSnoc(cfg: Config, fs: FileSystem, inputs: seq<Input>, i: Input)
    ensures var before := RunOf(cfg, fs, inputs);
            var o := HandlePacket(cfg, before.fs, before.state, i.packet, i.io);
            RunOf(cfg, fs, inputs + [i]) == Run(o.fs, o.state, before.replies + [o.reply])
  {
    hide HandlePacket, RunOf;
    var upTo := inputs + [i];
    assert upTo[..|inputs|] == inputs && upTo[..|inputs| + 1] == upTo;
    RunStep(cfg, fs, upTo, |inputs|);
  }

  lemma SessionHalfStep(setup: Setup, fs: FileSystem, w: World, a: Action, inputs: seq<Input>)
    requires CanStart(setup.sender) && SessionHalf(setup, fs, w, inputs)
    ensures SessionHalf(setup, fs, After(setup, w, a), inputs + SessionPart(a))
  {
    hide RunOf, HandlePacket, After, CanStart, SessionPart;
    SessionShare(setup, w, a);
    if SessionPart(a) == [] {
      assert inputs + SessionPart(a) == inputs;
    } else {
      RunSnoc(setup.receiver, fs, inputs, SessionPart(a)[0]);
    }
  }

  lemma {:induction false} HalvesAreRuns(setup: Setup, fs: FileSystem, actions: Schedule)
    requires CanStart(setup.sender) && Possible(setup, fs, actions)
    ensures var w := WorldAfter(setup, fs, actions);
            SenderHalf(setup, w, SenderLog(actions)) && SessionHalf(setup, fs, w, SessionInputs(actions))
    decreases |actions|
  {
    if actions != [] {
      hide CanHappen, After, SenderHalf, SessionHalf, SenderPart, SessionPart, Transfers.Start;
      var front := actions[..|actions| - 1];
      HalvesAreRuns(setup, fs, front);
      var w := WorldAfter(setup, fs, front);
      SenderHalfStep(setup, w, actions[|actions| - 1], SenderLog(front));
      SessionHalfStep(setup, fs, w, actions[|actions| - 1], SessionInputs(front));
    }
  }

  /** Whatever the network does, a transfer puts only so many datagrams on it, publishes in at
      most one step, and on success has sent each chunk, START and FIN plus the repeats. */
  lemma TransferIsBounded(setup: Setup, fs: FileSystem, actions: Schedule)
    requires CanStart(setup.sender) && Possible(setup, fs, actions)
    ensures var w := WorldAfter(setup, fs, actions);
            var c := setup.sender;
            var inputs := SessionInputs(actions);
            && w.sender.packetsSent <= 2 * Exchange(c) + Total(c) * Budget(c)
            && (w.sender.phase == Ended(NoError) ==> w.sender.packetsSent == w.sender.retransmissions + Total(c) + 2)
            && (w.session.published ==> exists i :: 0 <= i < |inputs| && PublishedAt(setup.receiver, fs, inputs, i))
            && (forall i, j | 0 <= i < |inputs| && 0 <= j < |inputs| ::
                  PublishedAt(setup.receiver, fs, inputs, i) && PublishedAt(setup.receiver, fs, inputs, j) ==> i == j)
  {
    hide IsRun, StateAfter, RunOf, PublishedAt, Total, Budget, Exchange, Outgoing, WorldAfter, Possible,
      SenderLog, SessionInputs;
    HalvesAreRuns(setup, fs, actions);
    var log := SenderLog(actions);
    SendBound(setup.sender, log);
    PacketAccounting(setup.sender, log);
    PublishedOnce(setup.receiver, fs, SessionInputs(actions));
  }
}
