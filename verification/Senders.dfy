/** The sending half of a transfer as a machine of small steps: what send_file of
    src/transfer/sender.cpp may do next, given what it has done so far. */
module Senders {
  import opened Common
  import opened Packets
  import opened Chunking
  import opened SenderWindows
  import Serializer
  import opened Sessions

  datatype SenderConfig = SenderConfig(
    sessionId: uint64,
    name: seq<byte>,
    file: seq<byte>,
    chunkSize: uint64,
    windowSize: uint32,
    maxRetries: int,
    rto: Time,
    digest: seq<byte> -> seq<byte>)

  /** The file has a size that fits the START header, and a chunk count. */
  predicate CanStart(c: SenderConfig) {
    |c.file| < TWO_64 && ChunkCount(|c.file|, c.chunkSize).Some?
  }

  function Total(c: SenderConfig): uint32
    requires CanStart(c)
  {
    ChunkCount(|c.file|, c.chunkSize).value
  }

  // ------------------------------------------------------------------------
  // What goes on the wire
  // ------------------------------------------------------------------------

  function ChunkBytes(c: SenderConfig, k: nat): (b: seq<byte>)
    requires CanStart(c) && k < Total(c)
    ensures 0 < |b| <= c.chunkSize
  {
    hide ChunkCount, Offset, Length;
    PlannedChunksExist(|c.file|, c.chunkSize, k);
    var offset := Offset(c.chunkSize, k);
    c.file[offset..offset + Length(|c.file|, c.chunkSize, k)]
  }

  function StartPacket(c: SenderConfig): Packet
    requires CanStart(c)
  {
    Packet(MakeHeader(Start, c.sessionId, 0, 0, |c.file|), c.name)
  }

  function DataPacket(c: SenderConfig, k: nat): Packet
    requires CanStart(c) && k < Total(c)
  {
    PlannedChunksExist(|c.file|, c.chunkSize, k);
    Packet(MakeHeader(Data, c.sessionId, k, 0, Offset(c.chunkSize, k)), ChunkBytes(c, k))
  }

  function FinPacket(c: SenderConfig): Packet
    requires CanStart(c)
  {
    Packet(MakeHeader(Fin, c.sessionId, Total(c), 0, |c.file|), c.digest(c.file))
  }

  function Wire(p: Packet): seq<byte> {
    Serializer.Encode(p.header, p.payload)
  }

  /** An answer without a payload, as the receiver sends it. */
  function ReplyWire(c: SenderConfig, t: PacketType, sequence: uint32): seq<byte> {
    Serializer.Encode(MakeHeader(t, c.sessionId, sequence, sequence, 0), [])
  }

  lemma ReplyWireReads(c: SenderConfig, t: PacketType, sequence: uint32)
    ensures var r := Serializer.Decode(ReplyWire(c, t, sequence));
            && r.Ok? && r.value.header.packetType == t && r.value.header.sessionId == c.sessionId
            && r.value.header.acknowledgementNumber == sequence
  {
    Serializer.DecodeEncode(MakeHeader(t, c.sessionId, sequence, sequence, 0), []);
    hide Serializer.Decode, Serializer.Encode;
  }

  // ------------------------------------------------------------------------
  // The machine
  // ------------------------------------------------------------------------

  datatype Phase = Starting | Sending | Finishing | Ended(result: TransferError)

  /** A round of the data phase fills the window, waits once, and resends what has expired:
      `waited` holds between the wait and the look at the timers, and `due` are the expired
      packets still to be resent. `attempts` counts the transmissions of each chunk, `controls`
      the distinct control packets sent. `clock` is the last reading of a clock that never
      goes back. */
  datatype SState = SState(
    phase: Phase,
    tries: nat,
    window: SView,
    due: seq<nat>,
    waited: bool,
    clock: Time,
    attempts: map<nat, nat>,
    controls: nat,
    packetsSent: nat,
    retransmissions: nat)

  function Initial(c: SenderConfig): SState {
    SState(Starting, 0, NewView(c.windowSize), [], false, 0, map[], 0, 0, 0)
  }

  datatype Event =
    | SendControl
    | ControlExhausted
    | SendChunk(k: nat, now: Time)
    | Receive(datagram: seq<byte>)
    | TimedOut
    | Expire(now: Time, expired: seq<nat>, after: SView)
    | Resend(k: nat, now: Time)
    | GiveUp(k: nat)
    | AllAcknowledged
    | Abort(error: TransferError)

  /** A call of the sender's own has failed. */
  predicate IsLocal(error: TransferError) {
    error in {FileReadError, SocketError, SendError, ReceiveError}
  }

  /** Between two rounds of the data phase, or inside the fill loop. */
  predicate AtHead(s: SState) {
    s.phase == Sending && s.due == [] && !s.waited
  }

  /** The data phase waits only once the window is full or every chunk has been sent. */
  predicate AtWait(c: SenderConfig, s: SState)
    requires CanStart(c)
  {
    AtHead(s) && s.window.base < Total(c) && (!CanSend(s.window) || s.window.next >= Total(c))
  }

  ghost predicate Enabled(c: SenderConfig, s: SState, e: Event)
    requires CanStart(c)
  {
    match e
    case SendControl => (s.phase == Starting || s.phase == Finishing) && s.tries <= c.maxRetries
    case ControlExhausted => (s.phase == Starting || s.phase == Finishing) && s.tries > c.maxRetries
    case SendChunk(k, now) => AtHead(s) && CanSend(s.window) && k == s.window.next < Total(c) && s.clock <= now
    case Receive(datagram) =>
      (match s.phase
       case Sending => AtWait(c, s)
       case Ended(_) => false
       case _ => s.tries > 0)
    case TimedOut => AtWait(c, s)
    case Expire(now, expired, after) =>
      s.phase == Sending && s.waited && s.clock <= now && IsExpiry(s.window, now, expired, after)
    case Resend(k, now) =>
      && s.phase == Sending && s.due != [] && k == s.due[0] && s.clock <= now
      && k in s.attempts && s.attempts[k] < c.maxRetries
    case GiveUp(k) =>
      s.phase == Sending && s.due != [] && k == s.due[0] && k in s.attempts && s.attempts[k] >= c.maxRetries
    case AllAcknowledged => AtHead(s) && s.window.base >= Total(c)
    case Abort(error) => !s.phase.Ended? && IsLocal(error)
  }

  /** A control exchange looks at every datagram for an error, then for its own reply. */
  function OnControlReply(c: SenderConfig, s: SState, p: Packet, expected: PacketType, ack: uint32, after: Phase)
    : SState
  {
    if p.header.packetType == ErrorPacket then s.(phase := Ended(RemoteError))
    else if p.header.sessionId != c.sessionId then s
    else if p.header.packetType == expected && p.header.acknowledgementNumber == ack then s.(phase := after, tries := 0)
    else s
  }

  function OnDatagram(c: SenderConfig, s: SState, datagram: seq<byte>): SState
    requires CanStart(c)
  {
    match Serializer.Decode(datagram)
    case Err(_) => if s.phase == Sending then s.(waited := true) else s
    case Ok(p) =>
      match s.phase
      case Starting => OnControlReply(c, s, p, StartAck, 0, Sending)
      case Sending =>
        if p.header.packetType == Ack
        then s.(window := Acked(s.window, p.header.acknowledgementNumber), waited := true)
        else s.(waited := true)
      case Finishing => OnControlReply(c, s, p, FinAck, Total(c), Ended(NoError))
      case Ended(_) => s
  }

  function Apply(c: SenderConfig, s: SState, e: Event): SState
    requires CanStart(c)
  {
    match e
    case SendControl =>
      s.(tries := s.tries + 1, packetsSent := s.packetsSent + 1,
         controls := s.controls + (if s.tries == 0 then 1 else 0),
         retransmissions := s.retransmissions + (if s.tries > 0 then 1 else 0))
    case ControlExhausted => s.(phase := Ended(if s.phase == Starting then HandshakeError else PeerUnresponsive))
    case SendChunk(k, now) =>
      s.(window := Sent(s.window, now + c.rto), clock := now, attempts := s.attempts[k := 1],
         packetsSent := s.packetsSent + 1)
    case Receive(datagram) => OnDatagram(c, s, datagram)
    case TimedOut => s.(waited := true)
    case Expire(now, expired, after) => s.(window := after, due := expired, waited := false, clock := now)
    case Resend(k, now) =>
      s.(window := Rescheduled(s.window, k, now + c.rto), clock := now,
         due := if s.due == [] then [] else s.due[1..],
         attempts := s.attempts[k := 1 + (if k in s.attempts then s.attempts[k] else 0)],
         packetsSent := s.packetsSent + 1, retransmissions := s.retransmissions + 1)
    case GiveUp(k) => s.(phase := Ended(PeerUnresponsive))
    case AllAcknowledged => s.(phase := Finishing)
    case Abort(error) => s.(phase := Ended(error))
  }

  /** The datagram an event hands to the socket, if it sends one. */
  function Emitted(c: SenderConfig, s: SState, e: Event): Option<seq<byte>>
    requires CanStart(c)
  {
    match e
    case SendControl => Some(Wire(if s.phase == Starting then StartPacket(c) else FinPacket(c)))
    case SendChunk(k, _) => if k < Total(c) then Some(Wire(DataPacket(c, k))) else None
    case Resend(k, _) => if k < Total(c) then Some(Wire(DataPacket(c, k))) else None
    case _ => None
  }

  // ------------------------------------------------------------------------
  // What every step keeps
  // ------------------------------------------------------------------------

  function Budget(c: SenderConfig): nat {
    if c.maxRetries < 1 then 1 else c.maxRetries
  }

  ghost predicate Distinct(xs: seq<nat>) {
    forall i, j :: 0 <= i < j < |xs| ==> xs[i] != xs[j]
  }

  /** Every packet not acknowledged is either armed or due, never both; only packets that are
      neither have been acknowledged. */
  ghost predicate TimersCover(s: SState) {
    && Distinct(s.due)
    && Elements(s.due) <= s.window.unacked
    && s.window.armed.Keys == s.window.unacked - Elements(s.due)
  }

  ghost predicate AttemptsCounted(c: SenderConfig, s: SState) {
    && (forall k: nat :: k in s.attempts <==> k < s.window.next)
    && (forall k <- s.attempts :: 1 <= s.attempts[k] <= Budget(c))
  }

  ghost predicate ControlsCounted(c: SenderConfig, s: SState) {
    && (s.tries == 0 || s.tries <= c.maxRetries + 1)
    && match s.phase
       case Starting => s.controls == (if s.tries > 0 then 1 else 0) && s.window == NewView(c.windowSize)
       case Sending => s.controls == 1 && s.tries == 0
       case Finishing => s.controls == (if s.tries > 0 then 2 else 1)
       case Ended(r) => s.controls <= 2 && (r == NoError ==> s.controls == 2)
  }

  ghost predicate SenderInv(c: SenderConfig, s: SState)
    requires CanStart(c)
  {
    && SenderWindows.WellFormed(s.window) && s.window.next <= Total(c)
    && s.window.capacity == NewView(c.windowSize).capacity
    && TimersCover(s) && AttemptsCounted(c, s) && ControlsCounted(c, s)
    && s.packetsSent == s.retransmissions + s.controls + s.window.next
    && (s.phase == Finishing || s.phase == Ended(NoError) ==> s.window.base == s.window.next == Total(c) && s.due == [])
    && (s.phase == Starting ==> s.due == [] && !s.waited)
    && (s.phase == Sending && s.waited ==> s.due == [])
  }

  lemma InitialInv(c: SenderConfig)
    requires CanStart(c)
    ensures SenderInv(c, Initial(c))
  {
  }

  lemma ResendInv(c: SenderConfig, s: SState, k: nat, now: Time)
    requires CanStart(c) && SenderInv(c, s) && Enabled(c, s, Resend(k, now))
    ensures SenderInv(c, Apply(c, s, Resend(k, now)))
  {
    var t := Apply(c, s, Resend(k, now));
    assert s.due == [k] + t.due;
    assert Elements(s.due) == Elements(t.due) + {k};
  }

  lemma ExpireInv(c: SenderConfig, s: SState, e: Event)
    requires CanStart(c) && SenderInv(c, s) && Enabled(c, s, e) && e.Expire?
    ensures SenderInv(c, Apply(c, s, e))
  {
  }

  lemma ReceiveInv(c: SenderConfig, s: SState, e: Event)
    requires CanStart(c) && SenderInv(c, s) && Enabled(c, s, e) && e.Receive?
    ensures SenderInv(c, Apply(c, s, e))
  {
    hide SenderWindows.WellFormed, Serializer.Decode, Acked, Total;
    if Serializer.Decode(e.datagram).Ok? {
      var p := Serializer.Decode(e.datagram).value;
      AckedWellFormed(s.window, p.header.acknowledgementNumber);
      AckedFields(s.window, p.header.acknowledgementNumber);
    }
  }

  lemma AckedFields(v: SView, k: nat)
    ensures Acked(v, k).armed == v.armed - (if k in v.unacked then {k} else {})
    ensures Acked(v, k).capacity == v.capacity
  {
  }

  /** Every step keeps the timers, the retry budgets and the packet counts in order. */
  lemma StepKeepsInv(c: SenderConfig, s: SState, e: Event)
    requires CanStart(c) && SenderInv(c, s) && Enabled(c, s, e)
    ensures SenderInv(c, Apply(c, s, e))
  {
    match e
    case Resend(k, now) => ResendInv(c, s, k, now);
    case Receive(_) => ReceiveInv(c, s, e);
    case Expire(_, _, _) => ExpireInv(c, s, e);
    case SendChunk(k, now) => ChunkInv(c, s, k, now);
    case _ => ControlInv(c, s, e);
  }

  lemma ChunkInv(c: SenderConfig, s: SState, k: nat, now: Time)
    requires CanStart(c) && SenderInv(c, s) && Enabled(c, s, SendChunk(k, now))
    ensures SenderInv(c, Apply(c, s, SendChunk(k, now)))
  {
    SentWellFormed(s.window, now + c.rto);
  }

  lemma ControlInv(c: SenderConfig, s: SState, e: Event)
    requires CanStart(c) && SenderInv(c, s) && Enabled(c, s, e)
    requires e.SendControl? || e.ControlExhausted? || e.TimedOut? || e.GiveUp? || e.AllAcknowledged? || e.Abort?
    ensures SenderInv(c, Apply(c, s, e))
  {
  }
}
