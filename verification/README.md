# SwiftLink, verified

SwiftLink moves a file over UDP with Selective Repeat. This project models its sender, its
receiving session, the two sliding windows, the wire format, both checksums and the concurrent
server, and proves what they promise: a sender that reports success has been copied byte for
byte, whatever the network does; and as long as the retry budget is not used up, success stays
possible.

## How it is put together

* `Common`, `BigEndian`, `Packets`, `Rings`, `Files`, `Filenames`: shared vocabulary.
* `Crc32`, `Serializer`: the table-driven CRC, the printer and the strict parser. `CrcStandard`
  says which polynomial division the CRC is, `WireFormat` and `Datagrams` which bytes go out and
  which are turned down, `FilenameRules` which names are accepted.
* `Sha256` is the hash as sections 4 to 6 of FIPS 180-4 define it; `Sha256Standard` says what its
  functions and constants are without their formulas, and `Sha256Examples` works through the
  standard's two example digests; `Hasher` is the streaming class with its buffer; `FileHash` is
  the read-and-hash loop of both ends.
* `ReceiverWindows`, `SenderWindows`: the rings and the timer heap, as classes that update their
  fields, proved against a set and a map. `Chunking`: how a file is cut.
* `Sessions` is one receiving session as a step function; `SessionSafety` is what holds of it
  against any sequence of packets, `SessionVerdicts` what it answers to which of them;
  `ReceiverSessions` is the object, proved to take those steps.
* `Senders` is the sender as a machine of small steps that goes round by round as `send_file`
  does; `SenderRuns` is what holds of all its runs, `SenderVerdicts` says what ends them, what
  acknowledges a chunk and when one is sent again, `RetriesAttained` shows that the budgets
  are reached, `RetryLimits` says when success is out of reach, and `SendFile` has the loops of
  `send_file`, proved to produce such runs.
* `Transfers` puts sender, session, disk and network together; `Halves` shows that each side of
  a transfer is a run of its own machine; `Exactness`, `CrossWindow`, `Progress`, `Completion` and
  `WindowLimits` are the theorems about whole transfers.
* `Servers`, `ServerRuns`, `ServerTimes`, `ServerProjection`, `ServerCollisions`,
  `ServerShutdown` and `EpollServers` do the same for the server: the machine, its books, when it
  takes on and lets go of sessions, their isolation and its limits, what is left after shutdown,
  and the objects. `ServedTransfers` and
  `ServedProgress` put a sender in front of that server.

The network is the set of datagrams ever sent each way. Delivering one does not use it up and
nothing has to be delivered, so loss, repetition, delay and reordering are built in; a datagram
may also arrive with one bit inverted, and anything else may arrive that does not forge this
session's packets: garbage, other sessions' packets, and, at the sender, any acknowledgement or
error whatever. Calls to the operating system may fail at any time, in any combination, and a
failing write may leave a prefix behind. The sender's clock is any sequence of readings from
zero on that never goes back; the server is handed any times at all. The digest function is a
parameter of the protocol theorems, so none of them assumes that SHA-256 has no collisions; the
classes run SHA-256 itself.

## Where the code and its comments differ

The model follows the code; each difference is stated exactly.

* `chunk_count` adds in 64 bits and can wrap; it then plans no chunks at all
  (`Chunking.ChunkCountExact`).
* `classify` adds in 32 bits and can wrap; it then refuses every new packet
  (`ReceiverWindows.ClassifyExact`).
* A chunk is transmitted at most `max(1, max_retries)` times, START and FIN at most
  `max_retries + 1` times (`SenderRuns.RetryBudget`, `SenderRuns.SendsAreBounded`); the bounds
  for each chunk, for START and for FIN are reached (`RetriesAttained.BudgetIsAttained`,
  `RetriesAttained.StartExchangeIsAttained`, `RetriesAttained.FinExchangeIsAttained`).
* "A name in the output directory is always a complete, verified file" holds for a sender whose
  chunks tile the file (`Exactness.SuccessMeansExactCopy`). For any peer at all, with n the offset
  that FIN names: the first n bytes are verified; they are the whole published file if and only
  if nothing was stored beyond n before FIN came (`SessionSafety.VerifiedWhole`); the file is
  never longer than START declared, and as long if and only if some stored bytes end there
  (`SessionSafety.FullLength`); and it is verified as a whole and has the declared size if
  and only if n is that size (`SessionSafety.CompleteAndVerified`). The code compares n with the
  bytes it has counted, and never with the declared size. So a peer that leaves a hole gets a
  file published whose last byte nothing vouches for (`SessionSafety.UnverifiedTail`), and a peer
  that stops early and says so gets a file published that is too short
  (`SessionSafety.ShortFile`), although `tests/session_tests.cpp:391` has it that arriving early
  is not completion.
* An ERROR is said to answer whichever control packet provoked it, however often that one is
  repeated. It does so under the id on record only: that of the START which opened the session,
  or else of the START which was refused (`SessionVerdicts.VerdictRepeated`). Before any START no
  id is on record, so a FIN is turned down once and then met with silence
  (`SessionVerdicts.EarlyFinUnanswered`).
* The timer heap is said to stay within the window plus the retransmissions. It is smaller:
  whenever the sender waits it holds fewer than two windows of entries, not counting those that
  fall due at the same instant as the earliest one (`SenderWindows.HeapIsSmall`).
* That a chunk never falls outside the receiver's window takes more than the two windows being
  configured: the ring must be as large as the sender's window or have room for all chunks, and
  the limit must not wrap. Without that some undisturbed run has a new chunk refused
  (`WindowLimits.FitIsExact`).
* The control exchanges check the session id of a reply; the data phase does not
  (`src/transfer/sender.cpp:160` and `src/transfer/sender.cpp:312-316`). So an acknowledgement of
  another session retires a chunk that the receiver never stored (`CrossWindow.StrayAckRetires`).
  "Acknowledged means stored" survives a datagram heard in the data phase if and only if that
  datagram is not an ACK for an outstanding chunk that is not stored
  (`CrossWindow.OnlyPrematureAcksMislead`). Even so no such transfer is reported as
  a success without an exact copy: `Exactness.SuccessMeansExactCopy` covers these runs too.
* Sessions are kept apart by session id and by the shape of temporary names, but the table lets
  two peers use one id, and a peer may advertise a temporary name. From the first packets of the
  second peer on, the first session is not what it would be alone
  (`ServerCollisions.SharedIdBreaksIsolation`, `ServerCollisions.ReservedNameBreaksIsolation`).
  Opening a session disturbs another exactly when it empties the temporary file that the other
  is still using (`ServerCollisions.OpeningDisturbs`). Isolation is proved of every run in which
  each session, when it is opened, has an id that no session still in the table uses and a name
  that is not a temporary one (`ServerProjection.EachSessionIsAlone`).

## Model

| member | source | states |
|---|---|---|
| BigEndian.ReadAfterWrite | src/protocol/serializer.cpp:72-113 | a number that fits the field is read back as itself, for any field width |
| BigEndian.WriteAfterRead | src/protocol/serializer.cpp:72-113 | writing what was read restores the bytes, for any field width |
| BigEndian.WriteBeAt | src/protocol/serializer.cpp:84-89 | the recursive big-endian form is the shift-and-mask loop, byte by byte |
| BigEndian.WordBytesOfRead | src/crypto/sha256.cpp:33-45 | splitting a word that was read restores its four bytes |
| Crc32.MakeTable | src/protocol/crc32.cpp:17-29 | the nested loops leave entry i equal to eight division steps on i |
| Crc32.ComputeCrc | src/protocol/crc32.cpp:39-48 | the byte loop computes the CRC function that the lemmas below are about |
| Crc32.ComputeCrcExcludingChecksum | src/protocol/crc32.cpp:50-62 | skipping the field equals the CRC of the packet with those four bytes zeroed, wherever the field is |
| Crc32.UpdateIsEightSteps | src/protocol/crc32.cpp:31-35 | one table lookup equals eight bit-at-a-time steps, for every register and byte |
| Crc32.CrcIsDivision | src/protocol/crc32.cpp:39-48 | the whole CRC is bit-at-a-time reflected polynomial division (section 3.2.9 of IEEE 802.3) of any input |
| Crc32.FoldInjective | src/protocol/crc32.cpp:31-48 | after the same data, different registers stay different |
| Crc32.BurstInjective | src/protocol/crc32.cpp:31-48 | up to four bytes are determined by the register before and after them |
| Crc32.BurstDetected | src/protocol/crc32.cpp:39-48 | changing up to four consecutive bytes of an input of any length changes its CRC |
| CrcStandard.PolynomialIsGenerator | src/protocol/crc32.cpp:9-12 | the constant is the IEEE 802.3 generator, given by its exponents, reflected and without the leading term |
| CrcStandard.RegisterIsRemainder | src/protocol/crc32.cpp:17-48 | polynomial division over GF(2): for every message there is a quotient such that the dividend is generator times quotient plus register, and the register has degree below 32 |
| CrcStandard.CrcIsRemainder | src/protocol/crc32.cpp:39-48 | so the uninverted CRC of any message is the remainder of the message polynomial, lowest bit of each byte first, with 32 ones added in front |
| CrcStandard.CheckValue | src/protocol/crc32.cpp:39-48 | the CRC of "123456789" is CBF43926, which fixes the initial register and the inversion |
| Serializer.Serialize | src/protocol/serializer.cpp:137-187 | the in-place printer fills the buffer with exactly the specified bytes, or refuses an oversized payload |
| Serializer.DecodeEncode | src/protocol/serializer.cpp:137-254 | every valid header and payload decodes to itself with length and checksum filled in |
| Serializer.EncodeDecode | src/protocol/serializer.cpp:189-254 | every accepted buffer is re-serialized to the same bytes, and its header is valid |
| Serializer.AcceptedIsPrinted | src/protocol/serializer.cpp:189-254 | the parser accepts exactly the image of the printer on valid headers |
| Serializer.BurstRejected | src/protocol/serializer.cpp:181-246 | changing up to four consecutive bytes of a decodable datagram, inside or outside the checksum field, makes it undecodable |
| Serializer.BitFlipRejected | tools/delay_proxy.cpp:41-41 | inverting any single bit of a decodable datagram of any length makes it undecodable |
| WireFormat.Layout | src/protocol/serializer.cpp:115-187 | each field of a datagram lies at its place in network byte order, with the packet type as its number |
| WireFormat.Preamble | include/swiftlink/protocol/packet.hpp:21-80 | every datagram of the two drivers begins with "SWLK", version 1 and header length 40, and has no flags |
| WireFormat.ChecksumField | src/protocol/serializer.cpp:172-187 | the checksum field holds the CRC of the datagram with that field blank |
| WireFormat.Longest | src/protocol/serializer.cpp:139-144 | serialization is refused exactly for payloads longer than 65535 bytes |
| WireFormat.DecodeErrors | src/protocol/serializer.cpp:189-254 | the parser turns a datagram down for the first check on its bytes that fails, in order, and accepts it if none does |
| WireFormat.StatusCodes | include/swiftlink/protocol/status.hpp:16-26 | the numbers of the status codes |
| Datagrams.StartOnWire | src/transfer/sender.cpp:207-235 | START on the wire: type 1, the name, the size of the file, and zero in the other fields |
| Datagrams.ChunkOnWire | src/transfer/sender.cpp:256-285 | chunk k on the wire: type 3, number k, offset k times the chunk size, and the bytes of the file from there |
| Datagrams.FinOnWire | src/transfer/sender.cpp:346-366 | FIN on the wire: type 5, the chunk count, the size and the digest of the file |
| Datagrams.ReplyOnWire | src/server/epoll_server.cpp:358-371 | a reply on the wire: under the session id of the packet it answers, naming its sequence number twice |
| Sha256.PaddingIsShortest | src/crypto/sha256.cpp:139-165 | padding brings the message to whole blocks with the least number of zeros (section 5.1.1 of FIPS 180-4) |
| Sha256.PadInjective | src/crypto/sha256.cpp:139-165 | different messages below 2^64 bits are padded differently |
| Sha256.BlocksExtend | src/crypto/sha256.cpp:127-130 | the hash state after n blocks depends on those blocks only |
| Sha256Standard.ChChooses | src/crypto/sha256.cpp:79-80 | Ch takes the bits of its second argument where the first has ones and of the third where it has zeros |
| Sha256Standard.MajIsMajority | src/crypto/sha256.cpp:83-83 | Maj takes the bits that two of its arguments have |
| Sha256Standard.RotrStep | src/crypto/sha256.cpp:25-28 | rotation by n + 1 places is rotation by n and then by one |
| Sha256Standard.RotrOne | src/crypto/sha256.cpp:25-28 | rotation by one moves each bit down and the lowest to the top |
| Sha256Standard.RoundConstantsAreRoots | src/crypto/sha256.cpp:10-22 | the t-th round constant holds the first 32 fractional bits of the cube root of the t-th prime |
| Sha256Standard.InitialAreRoots | include/swiftlink/crypto/sha256.hpp:41-43 | the initial hash value holds those of the square roots of the first eight primes |
| Sha256Examples.OneBlockExample | tests/crypto_tests.cpp:68-71 | the digest of "abc" |
| Sha256Examples.TwoBlockExample | tests/crypto_tests.cpp:73-79 | the digest of the 56-byte example, which takes two blocks |
| Hasher.StreamingHasher.ComputeSchedule | src/crypto/sha256.cpp:49-65 | both loops together fill the array with the FIPS message schedule |
| Hasher.StreamingHasher.RunRounds | src/crypto/sha256.cpp:67-94 | the 64 in-place rounds compute the FIPS round function |
| Hasher.AddOrder | src/crypto/sha256.cpp:80-93 | the code's order of the modular sums does not matter |
| Hasher.StreamingHasher.CompressBlock | src/crypto/sha256.cpp:49-104 | one block updates the state array as section 6.2.2 of FIPS 180-4 says |
| Hasher.StreamingHasher.Update | src/crypto/sha256.cpp:106-137 | any chunk of data, empty or spanning blocks, extends the message absorbed so far by exactly that chunk |
| Hasher.StreamingHasher.Finish | src/crypto/sha256.cpp:139-172 | whatever the calls to update were, the digest is the one-shot hash of the whole message |
| FileHash.HashPrefix | src/transfer/sender.cpp:67-88 | the buffer loop succeeds exactly when every read does, and then returns the digest of the bytes read, so the buffer size does not show |
| Chunking.ChunkCountExact | include/swiftlink/transfer/transfer.hpp:47-57 | the count is the exact ceiling, or none above 2^32 - 1, if and only if the 64-bit sum does not wrap; when it wraps the answer is zero |
| Chunking.PlannedChunksExist | src/transfer/sender.cpp:256-262 | every planned chunk starts inside the file, is not empty and ends inside the file, so the subtraction never underflows |
| Chunking.ChunksTile | src/transfer/sender.cpp:256-262 | every byte of the file lies in exactly one planned chunk |
| Chunking.FullyStored | src/transfer/receiver_session.cpp:156-156 | stored lengths that add up to the file size leave out no chunk and no byte |
| Chunking.AllChunksStored | src/transfer/receiver_session.cpp:146-146 | all chunks stored add up to exactly the file size |
| Filenames.SanitizedIsBare | src/transfer/filename.cpp:50-108 | an accepted name has no separator, is neither dot name, and is accepted unchanged again |
| Filenames.TempPathsDiffer | src/transfer/receiver_session.cpp:86-89 | two sessions have the same temporary path exactly when they have the same id |
| Filenames.OutputHitsTemp | src/transfer/filename.cpp:110-118 | an output path is a session's temporary path exactly when the name is that session's temporary name |
| Filenames.ReservedIsAccepted | src/transfer/filename.cpp:40-46 | every temporary name passes the filename check |
| FilenameRules.SanitizeExactly | src/transfer/filename.cpp:50-108 | a raw name is accepted as what follows its last slash if nothing is wrong with it, and refused for the first thing that is, in order |
| FilenameRules.PermittedCharacters | src/transfer/filename.cpp:40-46 | letters, digits and . - _ + @ = are permitted and nothing else |
| FilenameRules.ControlCharacters | src/transfer/filename.cpp:57-64 | control characters are those below the space, and 127 |
| FilenameRules.JoinedIsLast | src/transfer/filename.cpp:110-118 | a joined name comes last in the path, with exactly one slash before it unless the directory is empty |
| FilenameRules.TempNameText | src/transfer/receiver_session.cpp:86-89 | a temporary name is ".swiftlink-", sixteen hexadecimal digits that stand for the id, and ".partial" |
| Files.SpliceBytes | src/io/file.cpp:87-111 | after a positional write each byte is the new one, the old one, or zero in a hole |
| Files.LargeOffsets | src/io/file.cpp:87-111 | with a disk that works a write fails exactly at offsets of 2^63 and more |
| Files.ReadCalls | src/transfer/sender.cpp:67-88 | one failing read spoils a read-back exactly if it is at a multiple of 65536 below the size |
| Files.AnyPrefixRemains | src/io/file.cpp:87-111 | a write that fails may leave any part of the data from the front |
| ReceiverWindows.ClassifyExact | src/transfer/window.cpp:119-136 | classification agrees with the set of stored numbers, for every number, if and only if base + capacity does not wrap in 32 bits |
| ReceiverWindows.AcceptedIsNew | src/transfer/window.cpp:119-136 | what is accepted was not stored and lies in the window, and the window does not wrap, so a wrapped sum can only refuse |
| ReceiverWindows.MarkWellFormed | src/transfer/window.cpp:138-151 | marking adds exactly that number and keeps the base the least missing one, which never decreases |
| ReceiverWindows.ReceiverWindow.ClassifySequence | src/transfer/window.cpp:119-136 | the ring gives the answer of the set |
| ReceiverWindows.ReceiverWindow.SlideBase | src/transfer/window.cpp:145-150 | the slide loop ends at the least missing number and leaves every vacated slot clean |
| ReceiverWindows.ReceiverWindow.MarkReceived | src/transfer/window.cpp:138-151 | the ring after marking stands for the set with the number added |
| SenderWindows.AckedWellFormed | src/transfer/window.cpp:37-64 | an acknowledgement removes one packet for good, moves the base forward only, is idempotent, and is ignored exactly when the packet is not outstanding |
| SenderWindows.BaseIsLeast | src/transfer/window.cpp:56-61 | the base is the least unacknowledged packet, or the next one when there is none |
| SenderWindows.AckOrder | src/transfer/window.cpp:37-64 | acknowledgements may arrive in any order |
| SenderWindows.BumpKeepsTimers | src/transfer/window.cpp:51-54 | bumping a generation turns every heap entry of that slot into a ghost and no other slot's |
| SenderWindows.ArmKeepsTimers | src/transfer/window.cpp:98-110 | pushing an entry of the new generation arms exactly that packet; slot reuse revives nothing |
| SenderWindows.PopKeepsTimers | src/transfer/window.cpp:19-23 | removing a ghost changes no timer |
| SenderWindows.GhostsAreAcknowledged | include/swiftlink/transfer/window.hpp:39-50 | while no packet has two entries, an entry is a ghost exactly when its packet has been acknowledged |
| SenderWindows.HeapIsSmall | include/swiftlink/transfer/window.hpp:48-50 | used as send_file does, a pruned heap holds at most 2 * capacity - 2 entries besides those tied with the earliest, however much was retransmitted; fewer than 2 * capacity when no two tie |
| SenderWindows.SenderWindow.HasRoom | include/swiftlink/transfer/window.hpp:56-58 | the subtraction decides whether a packet may be sent |
| SenderWindows.SenderWindow.OnSent | src/transfer/window.cpp:25-35 | ring and heap then stand for the map with the next packet added and armed |
| SenderWindows.SenderWindow.OnAck | src/transfer/window.cpp:37-64 | ring and heap then stand for the map with the packet removed and the base slid; the result says whether it was there |
| SenderWindows.SenderWindow.Prune | src/transfer/window.cpp:19-23 | only ghosts are removed; what is left on top is the earliest running timer |
| SenderWindows.SenderWindow.EarliestDeadline | src/transfer/window.cpp:66-72 | the minimum of the map's deadlines, or none exactly when no timer runs; afterwards the heap is as small as stated above |
| SenderWindows.SenderWindow.Expire | src/transfer/window.cpp:74-96 | exactly the armed packets that are due, each once, in order of deadline; exactly those are disarmed |
| SenderWindows.SenderWindow.Reschedule | src/transfer/window.cpp:98-110 | an outstanding packet gets the new deadline, anything else is ignored; no second entry appears for a packet that had no running timer |
| Senders.StepKeepsInv | src/transfer/sender.cpp:252-344 | every step keeps each unacknowledged packet armed or due and never both, the attempts within budget and the packet counts exact |
| SenderRuns.RunInv | src/transfer/sender.cpp:176-373 | that holds in every state of every run |
| SenderRuns.DeadlineExists | src/transfer/sender.cpp:288-291 | with the window filled and chunks unacknowledged a timer runs for each outstanding packet, so the no-deadline exit cannot happen |
| SenderRuns.FinMeansAcknowledged | src/transfer/sender.cpp:346-366 | FIN goes out only when every chunk has been sent and acknowledged |
| SenderRuns.AttemptsAreTransmissions | src/transfer/sender.cpp:276-285 | the attempt counter is the number of transmissions of that chunk in the run |
| SenderRuns.RetryBudget | src/transfer/sender.cpp:330-343 | in any run each chunk is transmitted at most max(1, max_retries) times |
| RetriesAttained.BudgetIsAttained | src/transfer/sender.cpp:330-343 | and for every chunk of every file some run transmits it exactly that often |
| SenderRuns.PacketAccounting | src/transfer/sender.cpp:48-54 | packets sent are the datagrams handed over; they equal retransmissions plus distinct packets, which on success are all chunks plus two |
| SenderRuns.SendsAreBounded | src/transfer/sender.cpp:96-172 | every datagram is a chunk's, START or FIN; START and FIN each go out at most max_retries + 1 times, and within their exchanges exactly as often as there were tries |
| RetriesAttained.StartExchangeIsAttained | src/transfer/sender.cpp:96-172 | some run sends START exactly that often |
| RetriesAttained.FinExchangeIsAttained | src/transfer/sender.cpp:346-366 | and some run sends FIN exactly that often |
| SenderRuns.SendBound | src/transfer/sender.cpp:176-373 | no run sends more than two exchanges and one budget for each chunk |
| SenderRuns.WorkIsBounded | src/transfer/sender.cpp:252-344 | the steps that send, retire or expire anything are bounded in every run, however long |
| SenderVerdicts.ErrorEndsExchange | src/transfer/sender.cpp:146-154 | in any run an ERROR of any session heard in a control exchange ends the run with RemoteError, and nothing more is sent |
| SenderVerdicts.HowItEnds | src/transfer/sender.cpp:96-373 | every run that has ended was ended by the event that goes with its result: the FIN_ACK of its own session, an ERROR, a used-up exchange or budget, or a call that failed |
| SenderVerdicts.WhatEndsIt | src/transfer/sender.cpp:96-373 | and each of those events does end it with that result |
| SenderVerdicts.AcknowledgedExactly | src/transfer/sender.cpp:307-325 | in any run exactly those chunks count as acknowledged for which an ACK was heard in the data phase after they were sent |
| SenderVerdicts.TimerIsTimeout | src/transfer/sender.cpp:276-285 | a running timer ends one timeout after its chunk's last transmission |
| SenderVerdicts.LookExactly | src/transfer/sender.cpp:327-330 | a look at the timers finds exactly the unacknowledged chunks last sent at least one timeout ago, the oldest first |
| SenderVerdicts.ResentInOrder | src/transfer/sender.cpp:327-343 | what was found is resent in that order, and nothing else is |
| SenderVerdicts.OneWaitPerRound | src/transfer/sender.cpp:252-330 | the data phase waits only with the window filled to its configured size or every chunk sent, and then looks at the timers |
| SenderVerdicts.LookAfterWait | src/transfer/sender.cpp:286-330 | and it looks at them only after a wait |
| SendFile.FileSender.SendPacket | src/transfer/sender.cpp:44-57 | each datagram is counted and logged, whether or not it survives |
| SendFile.FileSender.ExchangeControl | src/transfer/sender.cpp:96-172 | stop and wait: it ends by the last datagram heard exactly if that is the reply or an ERROR of any session, none before it being either, and otherwise with the budget or a failed call; the log stays a run |
| SendFile.FileSender.AwaitReply | src/transfer/sender.cpp:114-168 | undecodable, foreign and unexpected replies are skipped; the first ERROR ends the wait and the exchange, and so does the first reply that is expected |
| SendFile.FileSender.FillWindow | src/transfer/sender.cpp:256-285 | afterwards the window is full or every chunk has been sent, and the base has not moved |
| SendFile.FileSender.HeapAtLoopHead | src/transfer/sender.cpp:252-288 | between rounds each outstanding packet has exactly one entry in the heap, which is live, and every other entry belongs to an acknowledged packet |
| SendFile.FileSender.TimerRuns | src/transfer/sender.cpp:288-291 | the real window has a running timer whenever the loop waits |
| SendFile.FileSender.AwaitAck | src/transfer/sender.cpp:286-325 | the break is never taken; any acknowledgement is applied to the window, whatever session it names |
| SendFile.FileSender.RetransmitDue | src/transfer/sender.cpp:327-343 | everything that expired is resent in order, or the transfer ends |
| SendFile.FileSender.RetransmitOne | src/transfer/sender.cpp:330-343 | the slot of an expired packet still holds that packet's bytes and attempts, and those bytes are what is resent |
| SendFile.RingUpdate | src/transfer/sender.cpp:276-279 | reusing one in-flight slot leaves every other outstanding packet's bytes in place |
| SendFile.FileSender.TransferData | src/transfer/sender.cpp:252-344 | the data phase ends with everything acknowledged, or with the error returned |
| SendFile.FileSender.Run | src/transfer/sender.cpp:207-373 | every execution leaves a log that is a run of the machine ending in the returned value; counters and datagrams are those of the run |
| SendFile.Send | src/transfer/sender.cpp:176-373 | unopenable, uncountable and unreadable files are refused before anything is sent; otherwise FIN carries the SHA-256 of the file, and the number of packets sent is bounded |
| Sessions.HandleWellFormed | src/transfer/receiver_session.cpp:220-286 | every packet keeps the verdict, the stored reply, the flags and the counters consistent |
| Sessions.CounterFits | src/transfer/receiver_session.cpp:146-146 | the 64-bit byte counter cannot wrap |
| SessionSafety.PublishedByVerifiedFin | src/transfer/receiver_session.cpp:153-218 | a session becomes published exactly by a FIN for the bytes written whose digest is that of this prefix, with every call succeeding; the whole temporary file is then at the output path |
| SessionSafety.SettledIsFinal | src/transfer/receiver_session.cpp:239-257 | after the verdict files and verdict stay, and every reply is the stored one, exactly for the packets that ask again, or silence |
| SessionSafety.StepAccounting | src/transfer/receiver_session.cpp:102-151 | a packet stores one new number with its bytes at its offset and its length counted, or changes neither the set nor the count nor a running session's file |
| SessionSafety.WriteStaysWithin | src/transfer/receiver_session.cpp:124-143 | no completed write passes the declared size, even when the 64-bit sum wraps |
| SessionSafety.HandleWithinDeclared | src/transfer/receiver_session.cpp:102-151 | the temporary file of a running session never exceeds the size declared at START |
| SessionSafety.RunWellFormed | src/transfer/receiver_session.cpp:220-286 | both hold after any sequence of packets and failures |
| SessionSafety.SettledForGood | src/transfer/receiver_session.cpp:223-257 | for the rest of any run a settled session's files and verdict do not change |
| SessionSafety.PublishedOnce | src/transfer/receiver_session.cpp:208-217 | in any run a session is published if and only if some step published it, and no two steps did |
| SessionSafety.PublishedStays | src/transfer/receiver_session.cpp:208-217 | what the publishing step renamed is what the output path holds at the end of the run |
| SessionSafety.FileEndsAtReach | src/transfer/receiver_session.cpp:102-151 | in any run the temporary file of a running session ends exactly where the furthest stored bytes end |
| SessionSafety.VerifiedWhole | src/transfer/receiver_session.cpp:156-217 | for every peer and every run: the digest vouches for the first n bytes of a published file, n being the offset of FIN, and the file has no other bytes if and only if no earlier packet stored any beyond n |
| SessionSafety.UnverifiedTail | src/transfer/receiver_session.cpp:156-191 | an input for which that condition fails: a peer that leaves a hole gets a file published whose last byte no digest vouches for |
| SessionSafety.DeclaredAtStart | src/transfer/receiver_session.cpp:52-100 | a session is opened by one START and keeps for good the size it declared |
| SessionSafety.CompleteAndVerified | src/transfer/receiver_session.cpp:153-217 | for every peer and every run: a published file lies between the offset of FIN and the size declared by the one START that opened the session, and is both complete and verified as a whole if and only if FIN names the declared size |
| SessionSafety.FullLength | src/transfer/receiver_session.cpp:129-151 | a published file has the declared size, verified or not, if and only if some stored bytes end there |
| SessionSafety.ShortFile | src/transfer/receiver_session.cpp:156-156 | an input for which that condition fails although nothing lies beyond FIN: two bytes declared, one stored and vouched for, one published |
| SessionSafety.BytesCountedOnce | src/transfer/receiver_session.cpp:105-150 | in any run the stored numbers are those of the storing steps, none stored twice, and the byte count is the sum of their payloads |
| SessionSafety.AbandonedLeavesNothing | src/transfer/receiver_session.cpp:21-30 | destroying an unpublished session after any run leaves the directory as it was before, without its temporary file |
| SessionVerdicts.RefusalTable | src/transfer/receiver_session.cpp:32-286 | a running session is settled without publishing for exactly six causes, each with its error, its status byte and the packet's sequence number, and with nothing else changed |
| SessionVerdicts.AnswerTable | src/transfer/receiver_session.cpp:52-286 | what every other packet is answered and what it changes: START once and again, chunks new, known and out of reach, and packets that are not for a receiver |
| SessionVerdicts.VerdictRepeated | src/transfer/receiver_session.cpp:220-257 | in any run the verdict is repeated exactly to a FIN, or after an error also to a START, under the id on record; to everything else a settled session is silent for good |
| SessionVerdicts.EarlyFinUnanswered | src/transfer/receiver_session.cpp:239-262 | a FIN before any START is turned down once and then met with silence |
| SessionVerdicts.CountersCount | src/transfer/receiver_session.cpp:102-257 | in any run the counters count the packets received, those answered although they changed nothing, and the chunks that were not next in line |
| SessionVerdicts.RingSize | src/transfer/window.cpp:116-117 | in any run the ring is as large as configured, but at least one |
| ReceiverSessions.ReceiverSession.Handle | src/transfer/receiver_session.cpp:220-286 | the object takes exactly the specified step and stays consistent |
| ReceiverSessions.ReceiverSession.HandleStart | src/transfer/receiver_session.cpp:52-100 | START on the object is START of the specification, including the fields set before a failure |
| ReceiverSessions.ReceiverSession.HandleData | src/transfer/receiver_session.cpp:102-151 | DATA on the object is DATA of the specification, including what a failed write leaves |
| ReceiverSessions.ReceiverSession.HandleFin | src/transfer/receiver_session.cpp:153-218 | FIN on the object is FIN of the specification, with the digest computed by the streaming loop |
| ReceiverSessions.ReceiverSession.Close | src/transfer/receiver_session.cpp:21-30 | the destructor removes the temporary file of an unpublished session and nothing else |
| Transfers.ArrivedWasSent | src/protocol/serializer.cpp:237-246 | whatever arrives and decodes was sent as it is: corruption only loses datagrams |
| Halves.HalvesAreRuns | src/transfer/sender.cpp:176-373 | in every transfer the sender's share is a run of its machine that sent what is in the network, and the session's share is a run of a session |
| Halves.TransferIsBounded | src/transfer/sender.cpp:176-373 | so retry budgets, packet counts and single publication hold inside every transfer |
| Exactness.SpliceHolds | src/transfer/receiver_session.cpp:129-148 | writing any prefix of a chunk where it belongs spoils no stored chunk, and writing all of it stores it |
| Exactness.CompleteDisk | src/transfer/receiver_session.cpp:153-191 | when the byte count is the file size, the temporary file is the source |
| Exactness.HandleKeepsDisk | src/transfer/receiver_session.cpp:102-218 | every packet of a tiling sender keeps the disk equal to the source on all stored chunks and the byte count equal to their sum |
| Exactness.ReachableExact | src/transfer/sender.cpp:252-373 | the invariant over sender, network, session and disk holds in every reachable state |
| Exactness.SuccessMeansExactCopy | src/transfer/sender.cpp:252-373 | in every run, if the sender reports success the receiver has published the source byte for byte under the sanitized name; no assumption on the digest |
| CrossWindow.ReachableLinked | src/transfer/window.cpp:37-151 | the invariant that ties both windows to the datagrams under way holds in every run in which the sender heard nothing that runs ahead of the receiver, whatever garbage and packets of other sessions arrive |
| CrossWindow.OnlyPrematureAcksMislead | src/transfer/sender.cpp:312-316 | hearing a datagram in the data phase keeps everything acknowledged stored if and only if it is not an ACK for an outstanding chunk that is not stored |
| CrossWindow.StrayAckRetires | src/transfer/sender.cpp:312-316 | whenever the data phase waits with a chunk outstanding and not stored, an ACK of any session can be heard and retires that chunk |
| CrossWindow.ArrivedNeverMisleads | src/transfer/receiver_session.cpp:105-150 | nothing the receiver sent does that, however delayed, repeated or corrupted |
| CrossWindow.WindowsAgree | src/transfer/window.cpp:37-151 | in all those runs every acknowledgement under way names a stored chunk, everything acknowledged is stored, and the sender's base never passes the receiver's |
| CrossWindow.NeverOutside | src/transfer/window.cpp:119-136 | in all those runs, if the receiver ring is as large as the sender's window or as the chunk count and the limit cannot wrap, whatever chunk arrives, however delayed, is accepted if new and a duplicate if not, never outside the window |
| WindowLimits.WrapStrands | src/transfer/window.cpp:119-136 | if the chunk count plus the ring exceeds 2^32, some undisturbed run, chunk after chunk, ends with a new chunk outside the window |
| WindowLimits.SmallRingStrands | src/transfer/window.cpp:119-136 | so does one with a ring smaller than the sender's window and than the chunk count |
| WindowLimits.FitIsExact | src/transfer/window.cpp:119-136 | so the condition is exact: a new chunk can arrive outside the window in some undisturbed run if and only if the windows do not fit |
| Progress.AlwaysAnswered | src/transfer/receiver_session.cpp:105-150 | in every undisturbed run whatever packet of the transfer arrives is answered in kind, never with an error or silence, and a FIN after publication gets the stored FIN_ACK |
| Progress.OthersEndRunning | src/transfer/receiver_session.cpp:271-277 | a packet of another session ends a running session with an error, which is why an undisturbed run has none before the verdict |
| Progress.NeverFails | src/transfer/receiver_session.cpp:32-50 | in an undisturbed run, garbage and harmless strays included, the session settles only by publishing and no ERROR is ever under way |
| RetryLimits.ExpiryExists | src/transfer/window.cpp:74-96 | whatever the clock says, the due timers can be listed in order of deadline, so looking at the timers is always possible |
| RetryLimits.OverdueHeard | src/transfer/sender.cpp:307-325 | one datagram saves at most one overdue chunk |
| RetryLimits.DoomedEvent | src/transfer/sender.cpp:327-343 | once an exhausted chunk is due, or more of them are overdue than can still be acknowledged before the timers are looked at, no step of the sender leads back |
| Completion.OneChunkLess | src/transfer/sender.cpp:307-325 | whenever the loop waits, delivering any outstanding chunk and its answer removes exactly that chunk from the unacknowledged ones |
| Completion.Finish | src/transfer/sender.cpp:252-373 | from any such state, going round by round as the loop does (resend, look at the timers, fill the window, wait), some schedule ends in success |
| Completion.SuccessStaysPossible | src/transfer/sender.cpp:252-344 | after any undisturbed run some continuation succeeds if and only if the sender has not failed, no exhausted chunk is due, and no more exhausted chunks are overdue than can still be acknowledged before the timers are looked at |
| Servers.ServeEntry | src/server/epoll_server.cpp:352-402 | one packet changes one entry; the session is counted when it first has a verdict and never again, as completed exactly when it published |
| Servers.AdmitKept | src/server/epoll_server.cpp:315-345 | admission keeps the active sessions within the limit and the table within twice the limit |
| Servers.RoomShape | src/server/epoll_server.cpp:333-338 | making room destroys no active session and leaves a free place, even if the product wraps |
| Servers.SweptShape | src/server/epoll_server.cpp:231-261 | the sweep removes exactly the idle and the retired sessions, leaves every other as it was, and counts exactly the idle ones |
| Servers.StepKept | src/server/epoll_server.cpp:205-404 | every datagram and every tick keep the bounds and the books |
| ServerRuns.BooksBalance | src/server/epoll_server.cpp:409-428 | in every run: active within the limit, table within twice the limit, and admitted equals completed plus failed plus timed out plus abandoned |
| ServerTimes.ActivityIsLastPacket | src/server/epoll_server.cpp:352-353 | in any run a session's activity time is that of the last datagram that decodes to its key |
| ServerTimes.CompletionIsVerdict | src/server/epoll_server.cpp:356-373 | and its completion time is that of the datagram that brought its verdict |
| ServerTimes.IdleExactly | src/server/epoll_server.cpp:240-260 | after any run a tick removes a running session if and only if its last datagram is more than the idle timeout old, in whole milliseconds |
| ServerTimes.RetiredExactly | src/server/epoll_server.cpp:240-260 | and a settled one if and only if its verdict is more than the linger time old |
| ServerTimes.StrangersExactly | src/server/epoll_server.cpp:302-345 | a packet for an unknown key is ignored unless it is START, which is refused with status 8 exactly when the limit of running sessions is reached |
| ServerTimes.PressureExactly | src/server/epoll_server.cpp:333-338 | opening a session drops another exactly when that one is settled and the table holds twice the limit, a product taken in 64 bits |
| ServerTimes.UnreadableIgnored | src/server/epoll_server.cpp:275-297 | datagrams that fail a check are ignored |
| ServerProjection.LooksOnlyAtTemp | src/transfer/receiver_session.cpp:220-286 | a session's behaviour depends on nothing on the disk but its own temporary file |
| ServerProjection.WritesOnlyOwn | src/transfer/receiver_session.cpp:220-286 | a session writes nowhere but to its temporary path and its output path |
| ServerProjection.EraseUndisturbed | src/server/epoll_server.cpp:240-260 | destroying some sessions removes no other session's temporary file |
| ServerProjection.OthersUndisturbed | src/server/epoll_server.cpp:298-404 | an event for one key changes neither the state nor the temporary file of any other |
| ServerProjection.EachSessionIsAlone | src/server/epoll_server.cpp:298-404 | if no session is opened under an id in use or a temporary name, every session in the table has the state, the replies and the temporary file of a lone session handed only its key's packets; ids may be used again once free |
| ServerProjection.PublishedInCompany | src/server/epoll_server.cpp:356-373 | so single, verified publication holds for every session of the server |
| ServerCollisions.ReservedNameDisturbs | src/transfer/filename.cpp:40-46 | after any run, two packets of a peer that advertises a running session's temporary name leave that session unlike a lone one |
| ServerCollisions.ReservedNameBreaksIsolation | src/transfer/filename.cpp:40-46 | so for any two ids there is a run after which a session in the table is not what it would be alone |
| ServerCollisions.SharedIdDisturbs | src/transfer/receiver_session.cpp:86-91 | after any run, a START of another peer under a running session's id leaves that session unlike a lone one |
| ServerCollisions.SharedIdBreaksIsolation | src/transfer/receiver_session.cpp:86-91 | so for any two peers with one id there is a run after which a session in the table is not what it would be alone |
| ServerCollisions.OpeningDisturbs | src/transfer/receiver_session.cpp:52-100 | after any orderly run, whatever session is opened next: each session that stays is what it would be alone if and only if the new one does not empty a temporary file it is still using |
| ServerShutdown.NothingLeftBehind | src/transfer/receiver_session.cpp:21-30 | after any such run and shutdown the directory holds no temporary file that it did not hold before |
| ServedTransfers.OthersKept | src/server/epoll_server.cpp:298-404 | no event for anybody else spoils what a client's session has stored |
| ServedTransfers.ServedDisk | src/transfer/receiver_session.cpp:220-286 | a packet of the client keeps its session to the source, and no FIN_ACK comes before the copy is published |
| ServedTransfers.SuccessMeansPublished | src/server/epoll_server.cpp:205-404 | end to end against the server, through sweeps, purges, refusals and re-admission under the same key: if the sender reports success, some event of the run published the source byte for byte under the sanitized name |
| ServedProgress.Projected | src/server/epoll_server.cpp:205-404 | every run against the server in which the client's session, once admitted, stays in the table is an undisturbed run of the transfer on its own, in the same state |
| ServedProgress.ServedNeverFails | src/server/epoll_server.cpp:298-402 | in such a run the client's session settles only by publishing and no ERROR is under way to the client |
| ServedProgress.ServedSuccessStaysPossible | src/server/epoll_server.cpp:205-404 | after any such run, with the session in the table or room to open it, some continuation at the server ends in success if and only if the sender is not doomed by its own timers and budgets |
| EpollServers.ServerSession.Take | src/server/epoll_server.cpp:352-402 | the session object handles a packet and starts lingering exactly on its first verdict |
| EpollServers.EpollServer.CountActive | src/server/epoll_server.cpp:315-320 | the scan counts exactly the sessions that do not linger |
| EpollServers.EpollServer.PurgeLingering | src/server/epoll_server.cpp:333-338 | the erasing scan removes every lingering session and no other, with their temporary files |
| EpollServers.EpollServer.Arrive | src/server/epoll_server.cpp:302-402 | found, admitted, refused or ignored exactly as specified, on objects that no two sessions share |
| EpollServers.EpollServer.Receive | src/server/epoll_server.cpp:275-402 | one datagram is one step of the machine; undecodable ones change nothing |
| EpollServers.EpollServer.Sweep | src/server/epoll_server.cpp:231-261 | the erasing scan is one tick of the machine |
| EpollServers.EpollServer.CloseAll | src/transfer/receiver_session.cpp:21-30 | destroying the table destroys every session left in it, each with its temporary file unless it published |
| EpollServers.EpollServer.Run | src/server/epoll_server.cpp:205-428 | any list of events leaves the objects in the state the machine reaches, the report at shutdown balances, and every session left is then destroyed |

## Left out

- SenderWindows.SenderWindow.OnSent: asks for one sequence number more to exist in 32 bits, which the cap in `chunk_count` guarantees; `send_file` is proved to meet it.
- SenderRuns.DeadlineExists: speaks of the machine between two rounds; that the real heap agrees is `SendFile.FileSender.TimerRuns`.
- Exactness.SuccessMeansExactCopy: the network may not forge a FIN_ACK of this session to the sender, nor this session's packets to the receiver; a forged FIN_ACK would be believed. The same goes for `ServedTransfers.SuccessMeansPublished`.
- CrossWindow.WindowsAgree: is about runs in which the sender heard nothing that runs ahead of the receiver; `CrossWindow.OnlyPrematureAcksMislead` says exactly which datagrams do.
- Completion.SuccessStaysPossible: in an undisturbed run the receiver's calls succeed, no packet of another session reaches the session before its verdict, and the sender hears no ERROR from outside during a handshake and nothing that runs ahead of the receiver; losses, repeats, delays, corruption, garbage and all other strays are allowed. The timeout must be positive.
- RetriesAttained.BudgetIsAttained: asks for a retry limit that is not negative, without which no chunk is sent, and, but for the first chunk, for a positive timeout; `RetriesAttained.FinExchangeIsAttained` asks for a positive timeout unless the file has no chunks.
- SenderWindows.HeapIsSmall: says nothing of how many entries tie with the earliest; a clock that stands still may let them add up, depending on the order in which the binary heap keeps equal deadlines.
- ServedProgress.ServedSuccessStaysPossible: is about a client that is not swept or purged between its admission and now, whose calls succeed, and that opens its session at a server with room for it.
- ServerProjection.EachSessionIsAlone: compares paths, not open descriptors; they differ only when two sessions share a path, which its condition excludes.
- ServedTransfers.SuccessMeansPublished: is about runs that meet the condition of isolation; what the output path holds later is up to whoever publishes under that name next.
- Sockets, epoll, timerfd, signalfd and descriptor ownership: the caller delivers datagrams, ticks and call results in any order.
- Real durations: a clock reading, a deadline and a timeout are integers, so no claim is made about how long anything takes.
- The loss simulator and the proxy's random models: any of their outcomes is a possible run.
- The text behind the status byte of an ERROR payload, `remote_status`, logging, throughput, and the sender's timeout, duplicate and receive counters.
- The binary heap inside `std::priority_queue`: a multiset whose top is some entry with the earliest deadline.
- The ring of slots in `SenderWindow` is a sequence that methods replace; the receiver's ring is an array updated in place.
- Generation counters and event counters do not wrap; 64 bits are not used up by one process.
- `sanitize_filename` is a function on values: its loops only search.
- The blocking driver `src/transfer/receiver.cpp`, the command line and the benchmarks: a loop around the session, and no property of their own.
- Durability: after a successful rename the file is at its new path; crashes of the host are not modelled.
