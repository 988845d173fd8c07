/** A sender that reports success has been copied exactly: the published file equals the
    source, byte for byte, in every run, whatever digest function is used. */
module Exactness {
  import opened Common
  import opened Packets
  import opened Files
  import opened Filenames
  import opened Chunking
  import opened ReceiverWindows
  import opened Sessions
  import opened Senders
  import opened Transfers
  import SenderWindows
  import SessionSafety
  import Serializer

  // ------------------------------------------------------------------------
  // The bytes on disk
  // ------------------------------------------------------------------------

  /** Wherever a stored chunk lies, the temporary file holds the source's bytes. */
  ghost predicate DiskHolds(c: SenderConfig, stored: set<nat>, content: seq<byte>) {
    && |content| <= |c.file|
    && forall k: nat, x: nat :: k in stored && InChunk(|c.file|, c.chunkSize, k, x) ==>
         x < |content| && content[x] == c.file[x]
  }

  lemma ChunkByte(c: SenderConfig, k: nat, x: nat)
    requires CanStart(c) && k < Total(c)
    ensures Offset(c.chunkSize, k) + |ChunkBytes(c, k)| <= |c.file|
    ensures InChunk(|c.file|, c.chunkSize, k, x) <==>
            Offset(c.chunkSize, k) <= x < Offset(c.chunkSize, k) + |ChunkBytes(c, k)|
    ensures InChunk(|c.file|, c.chunkSize, k, x) ==> ChunkBytes(c, k)[x - Offset(c.chunkSize, k)] == c.file[x]
  {
    hide ChunkCount, Offset, Length;
    PlannedChunksExist(|c.file|, c.chunkSize, k);
  }

  /** Writing a prefix of chunk k where it belongs disturbs nothing stored, and writing all of
      it stores it. */
  lemma SpliceHolds(c: SenderConfig, stored: set<nat>, content: seq<byte>, k: nat, n: nat)
    requires CanStart(c) && k < Total(c) && DiskHolds(c, stored, content)
    requires n <= |ChunkBytes(c, k)|
    ensures var after := Splice(content, ChunkBytes(c, k)[..n], Offset(c.chunkSize, k));
            && DiskHolds(c, stored, after)
            && (n == |ChunkBytes(c, k)| ==> DiskHolds(c, stored + {k}, after))
  {
    hide Total, ChunkBytes, InChunk, Offset;
    var data := ChunkBytes(c, k)[..n];
    var offset := Offset(c.chunkSize, k);
    var after := Splice(content, data, offset);
    ChunkByte(c, k, 0);
    assert |after| <= |c.file|;
    forall j: nat, x: nat | j in stored + {k} && InChunk(|c.file|, c.chunkSize, j, x) &&
                            (j in stored || n == |ChunkBytes(c, k)|)
      ensures x < |after| && after[x] == c.file[x]
    {
      ChunkByte(c, k, x);
      hide Splice;
      SpliceLength(content, data, offset);
      if x < |after| {
        SpliceBytes(content, data, offset, x);
      }
    }
  }

  lemma SpliceLength(content: seq<byte>, data: seq<byte>, offset: nat)
    ensures |Splice(content, data, offset)| >= |content|
    ensures data != [] ==> |Splice(content, data, offset)| >= offset + |data|
  {
  }

  lemma WriteHolds(c: SenderConfig, stored: set<nat>, content: seq<byte>, k: nat, io: Io)
    requires CanStart(c) && k < Total(c) && DiskHolds(c, stored, content)
    ensures var after := WriteAt(content, ChunkBytes(c, k), Offset(c.chunkSize, k), io);
            && DiskHolds(c, stored, after)
            && (WriteCompletes(ChunkBytes(c, k), Offset(c.chunkSize, k), io) ==> DiskHolds(c, stored + {k}, after))
  {
    hide DiskHolds, Total, Splice, Offset;
    var data := ChunkBytes(c, k);
    hide ChunkBytes;
    var offset := Offset(c.chunkSize, k);
    if WriteCompletes(data, offset, io) {
      SpliceHolds(c, stored, content, k, |data|);
      assert data[..|data|] == data;
      CompletedWrite(content, data, offset, io);
    } else if offset < TWO_63 {
      SpliceHolds(c, stored, content, k, io.writeStops.value);
    }
  }

  /** When the stored lengths add up to the size of the source, the file is the source. No
      assumption on the chunk count is needed: a plan that is too short cannot add up. */
  lemma CompleteDisk(c: SenderConfig, stored: set<nat>, content: seq<byte>)
    requires CanStart(c) && c.chunkSize > 0 && DiskHolds(c, stored, content)
    requires Stored(|c.file|, c.chunkSize, stored, Total(c)) == |c.file|
    ensures content == c.file
  {
    var n := Total(c);
    forall k: nat | k < n ensures Offset(c.chunkSize, k) < |c.file| {
      PlannedChunksExist(|c.file|, c.chunkSize, k);
    }
    hide Offset, Length, Stored, InChunk, Total;
    if |c.file| > 0 {
      FullyStored(|c.file|, c.chunkSize, stored, n, |c.file| - 1);
    }
    forall x: nat | x < |c.file| ensures content[x] == c.file[x] {
      FullyStored(|c.file|, c.chunkSize, stored, n, x);
    }
  }

  // ------------------------------------------------------------------------
  // The session
  // ------------------------------------------------------------------------

  /** If the session is this transfer's, its count and its disk are those of the chunks it has
      stored, and what it has published is the source. */
  ghost predicate OurDisk(setup: Setup, fs: FileSystem, s: State)
    requires CanStart(setup.sender)
  {
    var c := setup.sender;
    s.started && s.sessionId == c.sessionId ==>
      && Sanitize(c.name).Ok? && s.outputPath == JoinPath(setup.receiver.directory, Sanitize(c.name).value)
      && s.declaredSize == |c.file|
      && (forall k <- s.window.stored :: k < Total(c))
      && s.bytesWritten == Stored(|c.file|, c.chunkSize, s.window.stored, Total(c))
      && (!s.published ==> DiskHolds(c, s.window.stored, FileAt(fs, s.tempPath)))
      && (s.published ==> s.outputPath in fs && fs[s.outputPath] == c.file)
  }

  /** A packet of this transfer's sender. */
  ghost predicate Ours(c: SenderConfig, p: Packet)
    requires CanStart(c)
  {
    var h := p.header;
    && h.sessionId == c.sessionId
    && match h.packetType
       case Start => p.payload == c.name && h.byteOffset == |c.file|
       case Data => h.sequenceNumber < Total(c) && h.byteOffset == Offset(c.chunkSize, h.sequenceNumber) &&
                    p.payload == ChunkBytes(c, h.sequenceNumber)
       case Fin => h.sequenceNumber == Total(c) && h.byteOffset == |c.file| && p.payload == c.digest(c.file)
       case _ => false
  }

  lemma StartKeepsDisk(setup: Setup, fs: FileSystem, s: State, p: Packet, io: Io)
    requires CanStart(setup.sender) && WellFormedState(setup.receiver, s) && OurDisk(setup, fs, s) && !s.finished
    requires p.header.packetType == Packets.Start
    requires Ours(setup.sender, p) || p.header.sessionId != setup.sender.sessionId
    ensures var o := OnStart(setup.receiver, fs, s, p, io); OurDisk(setup, o.fs, o.state)
  {
    hide Total, Sanitize, JoinPath, TempPath, ToByte, StatusByte, WellFormed;
    var c := setup.sender;
    StoredNone(|c.file|, c.chunkSize, Total(c));
    hide Stored;
  }

  lemma DataKeepsDisk(setup: Setup, fs: FileSystem, s: State, p: Packet, io: Io)
    requires CanStart(setup.sender) && WellFormedState(setup.receiver, s) && OurDisk(setup, fs, s)
    requires s.started && !s.finished && s.sessionId == p.header.sessionId == setup.sender.sessionId
    requires p.header.packetType == Data && Ours(setup.sender, p)
    ensures var o := OnData(fs, s, p, io); OurDisk(setup, o.fs, o.state)
  {
    var c := setup.sender;
    var k := p.header.sequenceNumber;
    hide Total, Sanitize, JoinPath, TempPath, ToByte, StatusByte, WellFormed, Classify, Mark, Stored,
      DiskHolds, ChunkBytes, Offset, Length, WriteAt, WriteCompletes;
    MarkWellFormed(s.window, k);
    if Classify(s.window, k) == Accepted {
      AcceptedIsNew(s.window, k);
      WriteHolds(c, s.window.stored, FileAt(fs, s.tempPath), k, io);
      ChunkStored(c, s.window.stored, k);
    }
  }

  lemma ChunkStored(c: SenderConfig, stored: set<nat>, k: nat)
    requires CanStart(c) && k < Total(c) && k !in stored
    ensures Stored(|c.file|, c.chunkSize, stored + {k}, Total(c)) ==
            Stored(|c.file|, c.chunkSize, stored, Total(c)) + |ChunkBytes(c, k)|
  {
    hide Offset, Length, ChunkCount;
    PlannedChunksExist(|c.file|, c.chunkSize, k);
    StoredAdd(|c.file|, c.chunkSize, stored, Total(c), k);
  }

  lemma FinKeepsDisk(setup: Setup, fs: FileSystem, s: State, p: Packet, io: Io)
    requires CanStart(setup.sender) && WellFormedState(setup.receiver, s) && OurDisk(setup, fs, s)
    requires s.started && !s.finished && s.sessionId == p.header.sessionId == setup.sender.sessionId
    requires p.header.packetType == Fin && Ours(setup.sender, p)
    ensures var o := OnFin(setup.receiver, fs, s, p, io); OurDisk(setup, o.fs, o.state)
  {
    var c := setup.sender;
    hide Total, Sanitize, JoinPath, TempPath, ToByte, StatusByte, WellFormed, Stored, DiskHolds,
      ReadsComplete;
    if s.bytesWritten == |c.file| {
      CompleteDisk(c, s.window.stored, FileAt(fs, s.tempPath));
    }
  }

  /** Whatever the packet, of this transfer or of another session, the session's disk stays in
      agreement, and a FIN_ACK under this transfer's id is given only once it has published. */
  lemma HandleKeepsDisk(setup: Setup, fs: FileSystem, s: State, p: Packet, io: Io)
    requires CanStart(setup.sender) && WellFormedState(setup.receiver, s) && OurDisk(setup, fs, s)
    requires Ours(setup.sender, p) || p.header.sessionId != setup.sender.sessionId
    ensures var o := HandlePacket(setup.receiver, fs, s, p, io);
            && OurDisk(setup, o.fs, o.state)
            && (o.reply.Reply? && o.reply.packetType == FinAck ==>
                  o.state.published && o.state.sessionId == p.header.sessionId)
  {
    var counted := s.(stats := s.stats.(packetsReceived := s.stats.packetsReceived + 1));
    assert WellFormedState(setup.receiver, counted) && OurDisk(setup, fs, counted);
    if s.finished {
      SettledKeepsDisk(setup, fs, s, p, io);
    } else {
      DispatchKeepsDisk(setup, fs, counted, p, io);
      hide *;
      SessionRunning(setup.receiver, fs, s, p, io);
    }
  }

  lemma SettledKeepsDisk(setup: Setup, fs: FileSystem, s: State, p: Packet, io: Io)
    requires CanStart(setup.sender) && WellFormedState(setup.receiver, s) && OurDisk(setup, fs, s) && s.finished
    ensures var o := HandlePacket(setup.receiver, fs, s, p, io);
            && OurDisk(setup, o.fs, o.state)
            && (o.reply.Reply? && o.reply.packetType == FinAck ==>
                  o.state.published && o.state.sessionId == p.header.sessionId)
  {
    hide Total, Sanitize, JoinPath, TempPath, WellFormed, Stored, DiskHolds;
  }

  lemma DispatchKeepsDisk(setup: Setup, fs: FileSystem, s: State, p: Packet, io: Io)
    requires CanStart(setup.sender) && WellFormedState(setup.receiver, s) && OurDisk(setup, fs, s) && !s.finished
    requires Ours(setup.sender, p) || p.header.sessionId != setup.sender.sessionId
    ensures var o := Dispatch(setup.receiver, fs, s, p, io);
            && OurDisk(setup, o.fs, o.state)
            && (o.reply.Reply? && o.reply.packetType == FinAck ==>
                  o.state.published && o.state.sessionId == p.header.sessionId)
  {
    hide Total, Sanitize, JoinPath, TempPath, ToByte, StatusByte, WellFormed, Stored, DiskHolds, Classify,
      Mark, ReadsComplete, Rename, RenameCompletes, WriteAt, WriteCompletes, ChunkBytes, Offset;
    if p.header.packetType == Packets.Start {
      StartKeepsDisk(setup, fs, s, p, io);
    } else if s.started && s.sessionId == p.header.sessionId == setup.sender.sessionId {
      if p.header.packetType == Data {
        DataKeepsDisk(setup, fs, s, p, io);
      } else if p.header.packetType == Fin {
        FinKeepsDisk(setup, fs, s, p, io);
      }
    }
  }

  // ------------------------------------------------------------------------
  // The whole transfer
  // ------------------------------------------------------------------------

  ghost predicate Done(setup: Setup, s: State) {
    s.published && s.sessionId == setup.sender.sessionId
  }

  ghost predicate ClaimsSuccess(c: SenderConfig, d: seq<byte>) {
    Serializer.Decode(d).Ok? && Serializer.Decode(d).value.header.packetType == FinAck &&
    Serializer.Decode(d).value.header.sessionId == c.sessionId
  }

  ghost predicate OursIfRead(c: SenderConfig, d: seq<byte>)
    requires CanStart(c)
  {
    Serializer.Decode(d).Ok? ==> Ours(c, Serializer.Decode(d).value)
  }

  /** What every reachable world satisfies. */
  ghost predicate Exact(setup: Setup, w: World)
    requires CanStart(setup.sender)
  {
    && SenderInv(setup.sender, w.sender)
    && WellFormedState(setup.receiver, w.session)
    && OurDisk(setup, w.fs, w.session)
    && Intact(w.toReceiver) && Intact(w.toSender)
    && (forall d <- w.toReceiver :: OursIfRead(setup.sender, d))
    && (forall d <- w.toSender :: ClaimsSuccess(setup.sender, d) ==> Done(setup, w.session))
    && (w.sender.phase == Ended(NoError) ==> Done(setup, w.session))
  }

  lemma WireIsOurs(c: SenderConfig, p: Packet)
    requires CanStart(c) && Serializer.ValidHeader(p.header) && Ours(c, p)
    ensures (Wire(p) == [] || Serializer.Decode(Wire(p)).Ok?) && OursIfRead(c, Wire(p))
  {
    hide Serializer.Decode, Serializer.Encode, Serializer.ChecksumOf, Serializer.ValidHeader, Total,
      ChunkBytes, Offset;
    WireReads(p.header, p.payload);
    EmptyDoesNotRead();
  }

  lemma EmptyDoesNotRead()
    ensures Serializer.Decode([]).Err?
  {
  }

  lemma PacketsAreOurs(c: SenderConfig, k: nat)
    requires CanStart(c)
    ensures Ours(c, StartPacket(c)) && Serializer.ValidHeader(StartPacket(c).header)
    ensures Ours(c, FinPacket(c)) && Serializer.ValidHeader(FinPacket(c).header)
    ensures k < Total(c) ==> Ours(c, DataPacket(c, k)) && Serializer.ValidHeader(DataPacket(c, k).header)
  {
    hide ChunkBytes, Offset;
  }

  lemma EmittedIsOurs(c: SenderConfig, s: SState, e: Event)
    requires CanStart(c) && Emitted(c, s, e).Some?
    ensures var d := Emitted(c, s, e).value;
            (d == [] || Serializer.Decode(d).Ok?) && OursIfRead(c, d)
  {
    PacketsAreOurs(c, if e.SendChunk? || e.Resend? then e.k else 0);
    WireIsOurs(c, StartPacket(c));
    WireIsOurs(c, FinPacket(c));
    if (e.SendChunk? || e.Resend?) && e.k < Total(c) {
      WireIsOurs(c, DataPacket(c, e.k));
    }
    hide Wire, OursIfRead, Serializer.Decode, StartPacket, FinPacket, DataPacket;
  }

  lemma SenderMovesExact(setup: Setup, w: World, e: Event)
    requires CanStart(setup.sender) && Exact(setup, w) && CanHappen(setup, w, SenderMoves(e))
    ensures Exact(setup, After(setup, w, SenderMoves(e)))
  {
    hide OurDisk, OursIfRead, WellFormedState, ClaimsSuccess, Serializer.Decode, SenderInv, Emitted, Enabled, Apply;
    StepKeepsInv(setup.sender, w.sender, e);
    if Emitted(setup.sender, w.sender, e).Some? {
      EmittedIsOurs(setup.sender, w.sender, e);
    }
    NoSuccessByMoving(setup.sender, w.sender, e);
  }

  lemma NoSuccessByMoving(c: SenderConfig, s: SState, e: Event)
    requires CanStart(c) && Enabled(c, s, e) && !e.Receive?
    ensures Apply(c, s, e).phase != Ended(NoError)
  {
  }

  /** Success is reported only on hearing a FIN_ACK under the transfer's own id. */
  lemma SuccessIsHeard(c: SenderConfig, s: SState, d: seq<byte>)
    requires CanStart(c) && Enabled(c, s, Receive(d)) && OnDatagram(c, s, d).phase == Ended(NoError)
    ensures ClaimsSuccess(c, d)
  {
    hide Serializer.Decode, Total, SenderWindows.Acked;
  }

  lemma SenderHearsExact(setup: Setup, w: World, d: seq<byte>)
    requires CanStart(setup.sender) && Exact(setup, w) && CanHappen(setup, w, SenderHears(d))
    ensures Exact(setup, After(setup, w, SenderHears(d)))
  {
    hide OurDisk, OursIfRead, WellFormedState, Serializer.Decode, SenderInv, OnDatagram, Enabled;
    StepKeepsInv(setup.sender, w.sender, Receive(d));
    var t := OnDatagram(setup.sender, w.sender, d);
    assert Apply(setup.sender, w.sender, Receive(d)) == t;
    if t.phase == Ended(NoError) {
      SuccessIsHeard(setup.sender, w.sender, d);
      ArrivedWasSent(w.toSender, d);
    }
  }

  lemma ReplyReads(h: Header, reply: Reply)
    ensures forall d <- Replied(h, reply) :: d == [] || Serializer.Decode(d).Ok?
    ensures forall d <- Replied(h, reply) :: Serializer.Decode(d).Ok? ==>
              reply.Reply? && Serializer.Decode(d).value.header.packetType == reply.packetType &&
              Serializer.Decode(d).value.header.sessionId == h.sessionId
  {
    EmptyDoesNotRead();
    if reply.Reply? {
      WireReads(MakeHeader(reply.packetType, h.sessionId, reply.sequence, reply.sequence, 0), reply.payload);
    }
    hide Serializer.Decode, Serializer.Encode;
  }

  lemma DoneStays(setup: Setup, fs: FileSystem, s: State, p: Packet, io: Io)
    requires WellFormedState(setup.receiver, s) && Done(setup, s)
    ensures Done(setup, HandlePacket(setup.receiver, fs, s, p, io).state)
  {
    SessionSafety.SettledIsFinal(setup.receiver, fs, s, p, io);
  }

  /** What the receiver gets to read is this transfer's, or another session's. */
  lemma ReadIsOursOrForeign(setup: Setup, w: World, d: seq<byte>, io: Io)
    requires CanStart(setup.sender) && Exact(setup, w) && CanHappen(setup, w, ReceiverHears(d, io))
    requires Serializer.Decode(d).Ok?
    ensures var p := Serializer.Decode(d).value;
            && |p.payload| <= MAX_PAYLOAD_SIZE
            && (Ours(setup.sender, p) || p.header.sessionId != setup.sender.sessionId)
  {
    hide OurDisk, WellFormedState, Serializer.Decode, SenderInv, Ours;
    Serializer.EncodeDecode(d);
    if Arrives(w.toReceiver, d) {
      ArrivedWasSent(w.toReceiver, d);
      assert OursIfRead(setup.sender, d);
    }
  }

  lemma ReceiverHearsExact(setup: Setup, w: World, d: seq<byte>, io: Io)
    requires CanStart(setup.sender) && Exact(setup, w) && CanHappen(setup, w, ReceiverHears(d, io))
    ensures Exact(setup, After(setup, w, ReceiverHears(d, io)))
  {
    hide OurDisk, WellFormedState, Serializer.Decode, SenderInv, HandlePacket, Replied, Ours, OursIfRead,
      CanHappen, Arrives;
    if Serializer.Decode(d).Ok? {
      ReadIsOursOrForeign(setup, w, d, io);
      var p := Serializer.Decode(d).value;
      HandleWellFormed(setup.receiver, w.fs, w.session, p, io);
      HandleKeepsDisk(setup, w.fs, w.session, p, io);
      if Done(setup, w.session) {
        DoneStays(setup, w.fs, w.session, p, io);
      }
      ReplyReads(p.header, HandlePacket(setup.receiver, w.fs, w.session, p, io).reply);
    }
  }

  lemma StartExact(setup: Setup, fs: FileSystem)
    requires CanStart(setup.sender)
    ensures Exact(setup, Transfers.Start(setup, fs))
  {
    InitialInv(setup.sender);
    FreshWellFormed(setup.receiver);
    hide SenderInv, WellFormedState;
  }

  lemma {:induction false} ReachableExact(setup: Setup, fs: FileSystem, actions: Schedule)
    requires CanStart(setup.sender) && Possible(setup, fs, actions)
    ensures Exact(setup, WorldAfter(setup, fs, actions))
    decreases |actions|
  {
    hide Exact, CanHappen, After, Transfers.Start;
    if actions == [] {
      StartExact(setup, fs);
    } else {
      var front := actions[..|actions| - 1];
      var w := WorldAfter(setup, fs, front);
      ReachableExact(setup, fs, front);
      match actions[|actions| - 1]
      case SenderMoves(e) => SenderMovesExact(setup, w, e);
      case SenderHears(d) => SenderHearsExact(setup, w, d);
      case ReceiverHears(d, io) => ReceiverHearsExact(setup, w, d, io);
    }
  }

  /** End-to-end exactness. In every run over a network that loses, repeats, delays, reorders
      and corrupts, and that lets in datagrams of other sessions and stray acknowledgements:
      if the sender reports success, the receiver has published, under the sanitized name the
      sender advertised, a file equal to the source. No property of the digest is used, nor
      any bound on sizes, counts or windows. */
  lemma SuccessMeansExactCopy(setup: Setup, fs: FileSystem, actions: Schedule)
    requires CanStart(setup.sender) && Possible(setup, fs, actions)
    requires WorldAfter(setup, fs, actions).sender.phase == Ended(NoError)
    ensures var w := WorldAfter(setup, fs, actions);
            && w.session.published && Sanitize(setup.sender.name).Ok?
            && var path := JoinPath(setup.receiver.directory, Sanitize(setup.sender.name).value);
               path in w.fs && w.fs[path] == setup.sender.file
  {
    ReachableExact(setup, fs, actions);
  }
}
