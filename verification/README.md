# A model of the BitTorrent client's piece engine and bencode parser

The client downloads a torrent with three threads: one io thread runs every peer message handler, a writer thread
moves verified pieces to disk, and a timeout thread takes unanswered requests back. They share one `PieceManager`.
A second component, the bencode parser, reads the .torrent file and remembers where the raw `info` value lies, because
its hash names the torrent. This project models both in Dafny and proves what they keep, over every input and every
interleaving.

## How the model is built

The piece engine appears in three forms, each proved against the next.

- **Steps as values.** `Layout`, `Bits`, `PieceCore` give the shape of a torrent, the state of the piece manager as a
  value `Core`, and the effect of each lock region on it. `PieceInvariant`, `CoreInvariant` and `Startup` prove what
  each effect keeps.
- **Objects.** Classes `Storage`, `PieceManager`, `PeerConnection` and its shared `InFlightCounter` and `Outbox` hold the program's fields and
  update them in place, with its loops and branches. Each method is proved to have exactly the effect of its step
  (`View() == ...`), down to the bytes handed to the socket. `FileMapping` and `Storage` show that the list of output
  files behaves as one flat byte array.
- **Interleavings.** `Swarm` is a transition system over the same steps: every lock region is one atomic label, the io
  thread has a program counter inside `add_block` and inside the request loop, the writer has one between pop, write
  and clear, the timeout thread may visit any piece at any time with any clock reading, connections come and go, and
  the process may crash between any two steps, keeping only the files and the resume records. `SwarmInvariant` proves
  an invariant of every step; `Runs`, `Grants`, `Scheduler`, `Ledger`, `Resume` and `Transfer` prove statements about whole runs,
  and `Seeding` about the runs of several instances that serve one another.
  `Uninterrupted` proves that handling a whole peer message without interruption is a run of this system that ends in
  the very state the connection's method produces, so the run-level results speak about the same code.

`Wire` and `Handlers` are the peer wire: message bodies, framing, and what each handler does to a connection.
`WireFormat`, `Dialogue` and `Effects` say once more, without the definitions they are about, what the messages are in
bytes, what the handlers make of them, and what the steps do to the bytes and blocks of a piece.

The parser is a specification on positions (`Bencode`) and a class with the mutable `pos` and info span that meets it
(`BencodeParser`). The specification keeps dictionary entries in input order, repeated keys included; `Denote` is the
value with its `std::map`. `BencodeRoundTrip` has the printer described in the "bencoding" section of BEP 3,
`BencodeValues` relates values to their texts without the parser's helpers, and `BencodeGrammar` says exactly what is
accepted; `BencodeInfo` has the info span, `TorrentFile` the metadata built from both.

## What is assumed

- A torrent has `piece_length > 0`, at least one piece, and `piece_length * (n - 1) < total <= piece_length * n`
  (`Torrent.Valid`). File paths are distinct.
- Peers name pieces in range, and a piece message answers a request that was once sent to that connection, with its
  offset and length. The code does not check this (`source/src/PeerConnection.cpp:324-338`), so it is a precondition
  (`Swarm.Enabled`, `Handlers.Acceptable`). The answer may come late, repeatedly, or after the block went to another peer.
- A file operation succeeds and is atomic. Files are byte sequences that read as zero past their end.
- SHA-1 is any function from byte sequences to digests. Clock readings are arbitrary integers.

## Where the code does less than it seems to promise

Each of these is kept as the code has it, with a proof of exactly when it goes wrong and a concrete case.

- After a hash failure `downloaded` is not reduced, so `left` can reach zero, and the `completed` event fire, on an
  incomplete torrent. `Ledger.Conservation` gives the exact condition, `Ledger.TrackerExact` the failure-free case, and
  `Witness.FailureFoolsTracker` a run of eleven steps.
- A late answer returns its credit a second time, and an answer from one peer to a block requested from another leaves
  that other peer's credit taken. `Ledger.CreditEquation` gives the exact condition, `Grants.PunctualCredit` the case
  where neither happens, `Witness.LateAnswer` and `Witness.OthersAnswer` runs in which they do.
- The length prefixes of the bitfield and piece messages are byte-swapped at `size_t` width and then cut to four bytes,
  so on a 64-bit little-endian host they are zero. `Wire.SizeTFrameMisread` says what a reader makes of any such frame;
  `Seeding.Exchange` is therefore about bodies.
- When the key `info` occurs again later in the file, the info hash is taken over the wrong bytes.
  `BencodeInfo.InfoSpanExact` says exactly when; `TorrentWitnesses.RepeatedInfoMisses` gives an accepted file.
- A tracker that is not a string is passed over by the test on it and then taken for a string by the line that reports
  it (`source/src/TorrentFile.cpp:27-28`), so the whole file is rejected. The contract of `TorrentFiles.ParseTorrent` says
  exactly when; `TorrentWitnesses.OddTrackerRejected` gives a file.

## Model

| member | source | states |
|---|---|---|
| Runs.DiskIntegrity | source/src/PieceManager.cpp:103-127 | A piece written by this process, or loaded by it and written by an earlier one, hashes to its digest on disk, and no later step of any thread changes its bytes |
| Runs.DiskIntegrityAcrossCrashes | source/src/PieceManager.cpp:255-282 | Across any crashes and restarts, a piece once written never stops matching its digest on disk, even if it is written again |
| Runs.DiskForGood | source/src/PieceManager.cpp:14-44 | Once a piece is written and recorded, its bytes never change again, whatever crashes and restarts follow |
| Runs.WriterReadsVerified | source/src/PieceManager.cpp:265 | What the writer reads without the piece lock is the very buffer that passed the hash check, and that is what it lays over the files |
| Runs.Verified | source/src/PieceManager.cpp:96-101 | In every reachable state a buffer that waits to be written has, under SHA-1, the digest of its own piece, and so has every piece ever written, on disk |
| Effects.StoreEffect | source/src/PieceManager.cpp:49-78 | In every run: a late or repeated block changes no byte and no count; a new one is copied to its place and nowhere else; the last missing one completes its piece if and only if the bytes then have the digest at that piece's index, and otherwise the piece starts over blank; no other piece changes |
| Effects.GrantEffect | source/src/PieceManager.cpp:160-199 | In every run a grant changes one block of one piece, blank-allocating it first if it was not, or nothing but the fast flag, which then says exactly whether every piece is complete |
| Effects.VisitEffect | source/src/PieceManager.cpp:292-307 | In every run a visit frees exactly the requested blocks sent more than 3 000 000 000 ns ago of one incomplete piece, and changes nothing else of any piece |
| Runs.HeldRun | source/src/PieceManager.cpp:65-90 | From completion until the clear, no interleaving changes a verified buffer |
| Runs.PipelineRun | source/src/PieceManager.cpp:80-93 | Between restarts completed pieces only join the pipeline at its end and keep their order in it |
| Runs.OneStage | source/src/PieceManager.cpp:80-93 | In every reachable state a complete piece is in exactly one stage and once only (loaded, cleared, with the writer, queued, in the io thread's hands); an incomplete one is in none |
| Runs.NeverOutOfRange | source/src/PieceManager.cpp:50-78 | The io thread's and the writer's next step is never blocked by a vector that is too short: any answer to a request ever sent, however late, finds its piece complete or fully allocated |
| Runs.RunInv | source/src/PieceManager.cpp:46-94 | Every reachable state satisfies the invariant |
| SwarmInvariant.StepKeeps | source/include/TorrentClient.hpp:62 | Every step of every thread, and a crash, keeps the run invariant |
| SwarmInvariant.StoreKeeps | source/src/PieceManager.cpp:49-78 | The critical section of `add_block` keeps the run invariant in all four outcomes: ignored, stored, completed, hash failed |
| SwarmInvariant.GrantKeeps | source/src/PieceManager.cpp:160-184 | Granting a block, lazy allocation and fast flag included, keeps the run invariant |
| SwarmInvariant.WriteKeeps | source/src/PieceManager.cpp:265 | The writer's write keeps the run invariant: every piece ever written still matches its digest on disk |
| SwarmInvariant.ClearKeeps | source/src/PieceManager.cpp:268-278 | Freeing a written piece's buffer keeps the run invariant |
| SwarmInvariant.VisitKeeps | source/src/PieceManager.cpp:292-307 | A timeout visit, at any moment and with any clock reading, keeps the run invariant, credits included |
| SwarmInvariant.CrashKeeps | source/src/PieceManager.cpp:14-38 | Stopping anywhere and starting again on the resume records keeps the run invariant |
| SwarmInvariant.InitInv | source/include/PieceManager.hpp:30-56 | The first start, on an empty resume file, satisfies the run invariant |
| Grants.GrantExclusivity | source/src/PieceManager.cpp:160-184 | Between two grants of the same block lies a timeout of that block, a hash failure of its piece, or a restart |
| Grants.GrantedBlock | source/src/PieceManager.cpp:170-178 | A grant takes a block that was free in an incomplete piece and records connection and send time |
| Grants.TakenRun | source/src/PieceManager.cpp:292-307 | A block that is taken stays taken until a timeout, a hash failure of its piece or a restart releases it |
| Grants.AwaitsRun | source/src/PieceManager.cpp:174-178 | A granted block keeps its connection and send time until it is answered or released |
| Grants.TimeoutFrees | source/src/PieceManager.cpp:294-305 | A visit makes an unanswered block grantable again if and only if more than 3 s passed since its grant, and then takes the connection's counter down |
| Grants.CompleteNotGranted | source/src/PieceManager.cpp:166-181 | No block of a complete piece is ever granted |
| Grants.CompleteStays | source/src/PieceManager.cpp:186-199 | No step turns a complete piece incomplete, in spite of the assignment in `maybe_init` |
| Grants.FastFlagSound | source/src/PieceManager.cpp:161-168 | Whenever `is_torrent_complete` is set, every piece is complete |
| Grants.FreshAnswer | source/src/PeerConnection.cpp:324-338 | The first answer to a request that was not released is never stale and disturbs no connection's account |
| Grants.PunctualCredit | source/include/PeerConnection.hpp:74-75 | If every stored answer is the first to its request and comes before its timeout or reset, each counter is exactly the number of blocks requested from that connection |
| Ledger.Conservation | source/src/PieceManager.cpp:57-76 | `downloaded` is the bytes held plus the length of every piece that failed its check since the last start; the tracker's tests `down >= tot` and `tot - down >= 0` hold if and only if the bytes thrown away reach, respectively do not exceed, the bytes missing |
| Ledger.TrackerExact | source/src/UdpTracker.cpp:8-13 | On a run without a failed check since the last start `left` never wraps, and the completion test holds exactly when every piece is complete |
| Ledger.PieceBytes | source/src/PieceManager.cpp:57-62 | A piece's byte count is the sum of its received blocks, the whole length once complete, and less before |
| Ledger.FailuresCounted | source/src/PieceManager.cpp:69-76 | The failures the byte statements count are, in every state of every run, the pieces whose last missing block was stored and whose bytes then did not have their digest, in order, since the last start |
| Ledger.CreditLimit | source/include/PeerConnection.hpp:74-75 | No interleaving takes a connection's counter above 20 |
| Ledger.CreditEquation | source/src/PieceManager.cpp:296-303 | On every run the counter is the blocks requested from the connection, plus those another connection's answer filled, minus its own answers for blocks not requested from it, up to the one in hand; so between handlers it is right if and only if those two kinds of steps were equally many |
| Ledger.BooksCounted | source/src/PeerConnection.cpp:324-338 | The two corrections count exactly the steps of the run that store such answers since the last start, for every connection, dropped and new ones included |
| Ledger.RequestDiscipline | source/src/PeerConnection.cpp:341-353 | Every request leaves while unchoked, interested and below the limit, for a piece the peer announced |
| Scheduler.GrantsLeast | source/src/PieceManager.cpp:160-184 | In every run each grant takes the lexicographically least block open to that peer at that moment, and only that; it takes none only when none is open |
| Scheduler.LoopEnds | source/src/PeerConnection.cpp:341-353 | Whatever the other threads do, the request loop ends only when choked, with twenty requests out, or with nothing open to the peer |
| Resume.RecordsSound | source/src/PieceManager.cpp:40-44 | The records stay distinct and in range and name complete pieces; the one complete piece that may lack a record is the one in hand; `completed_pieces` counts what it should |
| Resume.RestartRebuilds | source/src/PieceManager.cpp:14-38 | After a stop at any step, loading rebuilds exactly the recorded pieces, their bits and bytes, and reports the torrent complete if and only if every piece is |
| Resume.RecordsStay | source/src/PieceManager.cpp:40-44 | Records are only ever appended, across crashes too |
| Resume.BitfieldExact | source/src/PieceManager.cpp:325-332 | A bit is set if and only if its piece is complete, outside the window between completion and the bitfield update, and never past the last piece |
| Resume.BitfieldRoundTrip | source/src/PeerConnection.cpp:312-321 | A peer reading our bitfield into an empty one learns exactly the complete pieces (less the one in that window) |
| Startup.BootRebuilds | source/src/PieceManager.cpp:14-38 | Loading distinct records sets exactly those pieces complete, their bits, the byte count once each, and the fast flag if and only if all are there |
| Startup.LoadedPieces | source/src/PieceManager.cpp:19-30 | After any number of records, a piece is loaded if it was named and untouched if not |
| Startup.LoadedBits | source/src/PieceManager.cpp:27 | The bitfield has the bits of the records read so far and no others |
| Startup.LoadedBytes | source/src/PieceManager.cpp:28 | Bytes counted at start-up are the lengths of the distinct records and the sum over the pieces |
| Distinct.Pigeonhole | source/src/PieceManager.cpp:34 | Distinct in-range records are as many as the pieces exactly when every piece is among them |
| Transfer.HonestTransfer | source/src/PieceManager.cpp:46-101 | For one piece and every interleaving, crashes included: from any state in which nothing of it has come in, if its answers from then on are blocks of one content matching its digest, its check never fails, and its verified buffer and its bytes once written are that content's, whatever other answers were |
| Transfer.WholeContent | source/src/PieceManager.cpp:216-248 | When every piece was written in such a stretch of its own, the files hold that content byte for byte |
| Seeding.TransferBetween | source/src/PieceManager.cpp:216-248 | Per piece, between runs of several instances, restarts included: from any state of the leecher in which nothing of the piece has come in, if every answer for it from then on was read from the files of seeders that agree on it, its check never fails, and its verified buffer and its bytes once written are what every seeder of it has on disk, and some seeder has it; answers for other pieces and earlier ones for this piece may have been wrong |
| Seeding.TransferFromOne | source/src/PieceManager.cpp:46-127 | From a single seeder, with nothing asked about agreement: in such a stretch no check of the piece fails, and once written its bytes on disk are the ones the seeder holds |
| Seeding.SeededCompletes | source/src/PieceManager.cpp:64-68 | In such a stretch a stored block completes the piece, by passing its check, if and only if it was the last one missing |
| Seeding.WholeTransfer | source/src/PieceManager.cpp:46-127 | When every piece was written in such a stretch of its own, the leecher's files equal the seeder's |
| Seeding.DigestsDecide | source/src/PieceManager.cpp:96-101 | Seeders of a piece agree on it, whatever their runs were, when no two contents of equal length have equal digests |
| Seeding.ServedIsHeld | source/src/PieceManager.cpp:216-248 | What a seeder read for an answer, of a piece written by it or by an earlier process, is still what it holds at the end, after any restarts if the piece is recorded, and matches the digest |
| Seeding.Exchange | source/src/PeerConnection.cpp:324-338 | A seeder in mid-run handles the leecher's request and the leecher handles the very body the seeder built: that handling is a run that starts with this answer, served by that seeder, and ends in the handler's state |
| Transfer.LastBlockCompletes | source/src/PieceManager.cpp:64-68 | In such a stretch a stored block completes its piece if and only if it was the last one missing |
| Transfer.FailureCleans | source/src/PieceManager.cpp:69-76 | A failed check leaves nothing of its piece, so such a stretch can start right after it |
| Transfer.RestartCleans | source/src/PieceManager.cpp:14-38 | A restart that does not find the piece in the records leaves nothing of it either |
| Transfer.RequestServed | source/src/PeerConnection.cpp:426-457 | A request for any part of a piece, decoded by the seeder and answered from its files, is read by the leecher as the same piece and offset with exactly those bytes; a request for nothing is not answered |
| Transfer.ServedBytes | source/src/PieceManager.cpp:216-248 | Those bytes are the ones that far into the piece's place in the content |
| Transfer.StoreFromSource | source/src/PieceManager.cpp:57-68 | Storing a block of the source never fails the check and completes the piece exactly with the last missing block, in any order |
| Transfer.BlocksMakePiece | source/src/PieceManager.cpp:65-66 | A buffer all of whose blocks are the source's is the source's piece |
| Witness.FailureFoolsTracker | source/src/PieceManager.cpp:70-75 | For every digest function, on a torrent of one byte other than 7: a run with one wrong answer after which the completion test holds and the piece is incomplete |
| Witness.LateAnswer | source/src/PieceManager.cpp:296-303 | On the same torrents a run of twelve steps in which an answer after its timeout takes a counter to -1 with nothing requested |
| Witness.OthersAnswer | source/src/PeerConnection.cpp:324-338 | On the same torrents a run of twenty-one steps after which a second connection counts one request in flight with nothing requested from it |
| Uninterrupted.MessageRuns | source/src/PeerConnection.cpp:165-199 | Handling one message with nothing else running is the run the message stands for by its first byte (choke, unchoke, have, the set bits, the answer), followed by nothing but the io thread's own steps, and ends in the state the handler leaves |
| Dialogue.Flags | source/src/PeerConnection.cpp:165-199 | By the number in its first byte: a choke chokes, an unchoke unchokes, interest is noted and answered with the bytes 0 0 0 1 1, its end is noted; unknown, empty and short messages change nothing |
| Dialogue.Unchoked | source/src/PeerConnection.cpp:341-353 | An unchoke of an interested connection starts the asking, which goes on until twenty requests are out or nothing is left to ask this peer |
| Dialogue.Asking | source/src/PeerConnection.cpp:223-262 | What asking puts on the wire: for each block granted, in order, one 17-byte frame naming its piece, its offset in multiples of 16384 and its whole length, and one credit |
| Dialogue.NewsHandled | source/src/PeerConnection.cpp:265-299 | A have or bitfield adds exactly the announced pieces, the first bit of a byte being its highest; the five bytes of interest are sent if and only if they were not before; then the asking |
| Dialogue.AnswerHandled | source/src/PeerConnection.cpp:324-338 | A piece message returns one credit, sends the nine bytes of a have for its piece to a registered connection exactly when it completed the piece, and then the asking |
| Dialogue.FirstRequests | source/src/PeerConnection.cpp:202-220 | Two connections in bytes: the frame of the first have makes the other side send its interest, that frame, handled back, makes this side unchoke it, and that frame makes it ask for what was announced |
| Uninterrupted.LoopRuns | source/src/PeerConnection.cpp:341-353 | The request loop is a run of test, grant and send steps with the same grants |
| Uninterrupted.PieceRuns | source/src/PeerConnection.cpp:324-338 | `handle_piece` with all of `add_block` is a run of its lock regions, in their order |
| PieceInvariant.StoreBlockOk | source/src/PieceManager.cpp:53-77 | Storing an expected block keeps the piece sound; it completes only on a matching whole buffer, and a failure leaves it freshly allocated with all bytes uncounted |
| PieceInvariant.MaybeInitOk | source/src/PieceManager.cpp:186-199 | Lazy allocation of an incomplete piece yields vectors of the right sizes and changes nothing that was allocated |
| PieceInvariant.GrantedOk | source/src/PieceManager.cpp:171-178 | A grant keeps the piece sound and its byte count |
| PieceInvariant.AfterVisitOk | source/src/PieceManager.cpp:293-306 | A timeout visit keeps the piece sound, its data, its byte count and its completion |
| PieceInvariant.OwnedAfterStore | source/src/PieceManager.cpp:57-76 | An answer takes exactly that block from the connection that had it, whether stored, ignored, completing or failing |
| PieceInvariant.OwnedAfterVisit | source/src/PieceManager.cpp:295-305 | A visit takes from a connection exactly as many blocks as it returns credits |
| PieceInvariant.OwnedAfterGrant | source/src/PieceManager.cpp:174-178 | A grant gives one block to the asking connection and none to any other |
| PieceInvariant.ReceivedWhole | source/src/PieceManager.cpp:60-65 | Received bytes reach the piece's length exactly when every block is received |
| PieceInvariant.WrittenTotalBound | source/src/PieceManager.cpp:57-76 | Bytes held never exceed the content and reach it exactly when every piece is complete |
| CoreInvariant.StoreSound | source/src/PieceManager.cpp:49-78 | The critical section keeps the manager sound, and a late block for a complete piece changes nothing at all |
| CoreInvariant.FinishSound | source/src/PieceManager.cpp:80-93 | The whole of `add_block` keeps the manager sound: pieces, fast flag, and a queue that names distinct verified buffers |
| CoreInvariant.NextBlockSound | source/src/PieceManager.cpp:160-184 | Granting the next block keeps the manager sound, with the fast flag set only when every piece is complete |
| CoreInvariant.ScanStep | source/src/PieceManager.cpp:166-181 | One round of the scan either passes a piece with the running count and flag right, or grants what the scheduler's specification grants |
| CoreInvariant.VisitSound | source/src/PieceManager.cpp:292-307 | A timeout visit keeps the manager sound |
| CoreInvariant.DrainedNext | source/src/PieceManager.cpp:262-280 | Writing and clearing one more piece extends what the writer has got to the files |
| PieceManagers.PieceManager.constructor | source/include/PieceManager.hpp:30-56 | Leaves the manager in the state rebuilt from the records, and sound when they are distinct |
| PieceManagers.PieceManager.LoadResumeData | source/src/PieceManager.cpp:14-38 | Refines the record-by-record specification of start-up |
| PieceManagers.PieceManager.MaybeInit | source/src/PieceManager.cpp:186-199 | Changes one piece, as the allocation step says |
| PieceManagers.PieceManager.StoreBlock | source/src/PieceManager.cpp:49-78 | The critical section in place has exactly the effect and outcome of its step and keeps the manager sound |
| PieceManagers.PieceManager.AddBlock | source/src/PieceManager.cpp:46-94 | The whole call has the effect of its lock regions in order, and if and only if it completes the piece every registered connection gets one HAVE frame naming it |
| PieceManagers.PieceManager.NotifyAllPeers | source/src/PieceManager.cpp:311-323 | Every registered connection gets exactly one frame naming the piece |
| PieceManagers.PieceManager.NextBlockRequest | source/src/PieceManager.cpp:160-184 | The nested scan in place answers and changes exactly what its specification does (least open block, or none and the flag) |
| PieceManagers.PieceManager.GrantFreeBlock | source/src/PieceManager.cpp:171-180 | Grants the first free block of the piece, or only allocates it |
| PieceManagers.PieceManager.VisitPiece | source/src/PieceManager.cpp:293-306 | Resets exactly the overdue blocks and takes each live connection's counter down by exactly its own |
| PieceManagers.PieceManager.TimeoutSweep | source/src/PieceManager.cpp:290-307 | One sweep does that to every piece, and each counter drops by the sum over all pieces |
| PieceManagers.PieceManager.WriteFront | source/src/PieceManager.cpp:265 | The files change exactly on that piece's range of the flat content: no byte past a declared length and no other file |
| PieceManagers.PieceManager.DrainQueue | source/src/PieceManager.cpp:262-280 | Run without interruption, everything queued reaches the files and is freed; no other piece's bytes change, and nothing outside the content |
| PieceManagers.PieceManager.FetchBlock | source/src/PieceManager.cpp:216-248 | Returns the asked window of the flat content, zeros past its end |
| StorageFiles.Storage.InitFiles | source/src/PieceManager.cpp:133-158 | Lays the files end to end, creates the missing ones empty, keeps the others, and the total is the sum of the lengths |
| StorageFiles.Storage.WritePiece | source/src/PieceManager.cpp:103-127 | The loop over files refines one overlay on a flat byte array and changes no byte outside it, in no file |
| StorageFiles.Storage.FetchBlock | source/src/PieceManager.cpp:216-248 | The loop over files refines one window of the flat byte array |
| FileMapping.FlatWrite | source/src/PieceManager.cpp:114-119 | Writing a chunk into one file is the same chunk laid over the flat content at that file's start |
| FileMapping.WrittenBytes | source/src/PieceManager.cpp:117-119 | A file after a write, byte by byte, zeros in a gap included |
| FileMapping.ReadBytes | source/src/PieceManager.cpp:231-238 | A read gives the file's bytes from there on, fewer when it ends first |
| FileMapping.FlatAt | source/src/PieceManager.cpp:143-148 | Each file holds exactly its own range of the flat content, zero-length files included |
| FileMapping.WriteRound | source/src/PieceManager.cpp:110-126 | One round of the write loop extends the overlay by its chunk and leaves the rest of the disk alone |
| FileMapping.ReadRound | source/src/PieceManager.cpp:224-246 | One round of the read loop extends the window by its chunk |
| Layout.Tiling | source/src/PieceManager.cpp:129-131 | Every byte of the content lies in one block of one piece and in no other |
| Layout.TilingSums | source/src/PieceManager.cpp:194 | Piece lengths add up to the content, and the request lengths of the allocated blocks add up to the piece |
| Layout.BlocksPrefix | source/src/PeerConnection.cpp:346-350 | Every block but the last of a piece is full |
| Layout.PiecesPrefix | source/src/PieceManager.cpp:129-131 | The first pieces end where the next begins |
| Layout.SliceAfterWrite | source/src/PieceManager.cpp:106-123 | Writing a piece replaces its own bytes and no other piece's |
| Layout.FetchAfterWrite | source/src/PieceManager.cpp:216-248 | Any part of a written piece is read back as written |
| Bits.MarkPiece | source/src/PieceManager.cpp:325-332 | The bit of the given piece is set and every other bit stays |
| Bits.BitOrder | source/src/PeerConnection.cpp:312-321 | Piece 0 is the bit of weight 128 of byte 0, piece 7 that of weight 1, piece 8 the next byte's first |
| Handlers.ScanFindsLeast | source/src/PieceManager.cpp:166-183 | The scan finds the lexicographically least open block, and finds none only if there is none |
| Handlers.GrantTakesLeast | source/src/PieceManager.cpp:160-184 | A grant takes that block and leaves every other block as open as before, so lazy allocation cannot be observed |
| Handlers.RequestsInOrder | source/src/PeerConnection.cpp:341-353 | The loop asks for the first open blocks in order, passing none over, and exactly those stop being open |
| Handlers.RequestsStop | source/src/PeerConnection.cpp:341-353 | When the loop stops early, no open block is left |
| Handlers.StopReason | source/src/PeerConnection.cpp:341-353 | It stops only when choked, at 20 requests, or with nothing left to ask this peer, and never passes 20 |
| Handlers.RequestFrameReads | source/src/PeerConnection.cpp:223-262 | Each request frame decodes at the other end to a whole block inside its piece |
| PeerConnections.PeerConnection.constructor | source/include/PeerConnection.hpp:35-45 | A connection starts choked both ways, without interest, knowing of no piece, with no request out |
| PeerConnections.PeerConnection.SendInterested | source/src/PeerConnection.cpp:202-220 | Sends one correctly framed message |
| PeerConnections.PeerConnection.SendRequest | source/src/PeerConnection.cpp:223-262 | Sends one correctly framed request and counts it |
| PieceManagers.Outbox.SignalHave | source/src/PeerConnection.cpp:361-376 | Sends one correctly framed message naming the piece |
| PeerConnections.PeerConnection.SignalBitfield | source/src/PeerConnection.cpp:386-407 | Sends the bitfield body behind the prefix the code really builds |
| PeerConnections.PeerConnection.SignalUnchoke | source/src/PeerConnection.cpp:409-423 | Unchokes the peer and says so once |
| PeerConnections.PeerConnection.MaybeRequestNext | source/src/PeerConnection.cpp:341-353 | The loop in place terminates and has exactly the effect, frames included, the ordering lemmas are about |
| PeerConnections.PeerConnection.SetBitfield | source/src/PeerConnection.cpp:312-321 | The nested loops add exactly the pieces whose bits are set, most significant bit first |
| PeerConnections.PeerConnection.HandleHave | source/src/PeerConnection.cpp:265-287 | Learns one piece, declares interest once, then asks |
| PeerConnections.PeerConnection.HandleBitfield | source/src/PeerConnection.cpp:290-299 | Learns the announced pieces, declares interest once, then asks |
| PeerConnections.PeerConnection.HandlePiece | source/src/PeerConnection.cpp:324-338 | Returns one credit, stores the block, tells every registered peer if that completed the piece, then asks; a short payload is dropped |
| PeerConnections.PeerConnection.HandleRequest | source/src/PeerConnection.cpp:426-457 | Answers with the block the files hold, and with nothing to a short or empty request |
| PeerConnections.PeerConnection.HandleMessage | source/src/PeerConnection.cpp:165-199 | Dispatches on the id to the specification that `Uninterrupted.MessageRuns` ties to the runs; unknown ids change nothing |
| Wire.RequestRoundTrip | source/src/PeerConnection.cpp:426-431 | A request decodes to the numbers it was built from |
| Wire.HaveRoundTrip | source/src/PeerConnection.cpp:265-272 | A have decodes to the piece it was built from |
| Wire.HaveFrameReads | source/src/PeerConnection.cpp:361-371 | The frame of `signal_have` is read back as that piece, whatever follows it |
| Wire.PieceRoundTrip | source/src/PeerConnection.cpp:324-338 | A piece message decodes to its index, offset and block |
| Wire.ReadMessages | source/src/PeerConnection.cpp:123-163 | The reading loop hands over the bodies of the complete frames, in order, and skips keep-alives |
| Wire.FramingRoundTrip | source/src/PeerConnection.cpp:123-163 | Any sequence of bodies and keep-alives, correctly framed and followed by anything, is handed over exactly |
| Wire.SizeTFrameMisread | source/src/PeerConnection.cpp:438 | The prefix of a bitfield or piece message is never its length: a reader takes it for a keep-alive and the body for frames |
| WireFormat.RequestLayout | source/src/PeerConnection.cpp:223-252 | Byte by byte: length 13, id 6, then piece, offset and length, most significant byte first |
| WireFormat.RequestRead | source/src/PeerConnection.cpp:426-431 | A request is read from the same three places; a shorter payload is none |
| WireFormat.HaveLayout | source/src/PeerConnection.cpp:361-371 | Byte by byte: length 5, id 4, then the piece |
| WireFormat.PieceLayout | source/src/PeerConnection.cpp:440-451 | Byte by byte: id 7, piece, offset, and the block; a bitfield is id 5 and the bits |
| WireFormat.FrameLayout | source/src/PeerConnection.cpp:123-147 | A frame is the length of its body in four bytes and the body |
| WireFormat.NumbersAreBigEndian | source/src/PeerConnection.cpp:268-272 | The numbers read from four bytes, most significant first, and as signed ones above 2^31 |
| WireFormat.ShortFrames | source/src/PeerConnection.cpp:202-220 | The interested and the unchoke message in bytes |
| Bencode.ParseValue | source/src/Bencode.cpp:9-33 | A successful parse of any input advances and stays inside it, which is the measure of the mutual recursion |
| Bencode.ParseString | source/src/Bencode.cpp:48-63 | A successful string parse of any input advances and stays inside it |
| Bencode.ParseInt | source/src/Bencode.cpp:35-46 | A successful integer parse of any input advances and stays inside it |
| Bencode.ParseItems | source/src/Bencode.cpp:65-73 | A successful parse of list items advances past the closing 'e' and stays inside the input |
| Bencode.ParseEntries | source/src/Bencode.cpp:75-92 | A successful parse of dictionary entries advances past the closing 'e' and stays inside the input |
| BencodeParsers.BEncodeParser.Parse | source/src/Bencode.cpp:5-7 | Yields the value, or the error, of the specification at position 0, with its info span |
| BencodeParsers.BEncodeParser.ParseValue | source/src/Bencode.cpp:9-33 | The recursive descent over `pos` meets the specification: value or error, end position and span |
| BencodeParsers.BEncodeParser.ParseInt | source/src/Bencode.cpp:35-46 | Reading an integer in place meets the specification: value or error, and end position |
| BencodeParsers.BEncodeParser.ParseString | source/src/Bencode.cpp:48-63 | Reading a string in place meets the specification: bytes or error, and end position |
| BencodeParsers.BEncodeParser.ParseList | source/src/Bencode.cpp:65-73 | The list loop meets the specification: items or error, end position and span |
| BencodeParsers.BEncodeParser.ParseDict | source/src/Bencode.cpp:75-92 | The dictionary loop meets the specification: first value under a key kept, last `info` span kept |
| BencodeRoundTrip.RoundTrip | source/src/Bencode.cpp:9-92 | A printed value in any context parses to itself and the parser stops right behind it |
| BencodeRoundTrip.ValueAt | source/src/Bencode.cpp:9-33 | Wherever in an input a printed value stands, the parser reads that value and stops right behind it |
| BencodeRoundTrip.PrefixFree | source/src/Bencode.cpp:9-92 | No printed value is a prefix of another, and printing is injective |
| BencodeRoundTrip.NumberRoundTrip | source/src/Bencode.cpp:35-46 | A canonical decimal, signed or not, reads back as its number |
| BencodeRoundTrip.ValueShift | source/src/Bencode.cpp:9-92 | A successful parse depends only on the bytes it consumed: any input with those bytes, at any place, gives the same value and length |
| BencodeRoundTrip.AcceptedPrefixFree | source/src/Bencode.cpp:5-7 | Inputs accepted to their last byte are prefix-free, canonical or not |
| BencodeValues.ValueRoundTrip | source/src/Bencode.cpp:9-92 | The round trip on values: any text BEP 3 gives a value, with lists in order and keys in any order, is read in any context as that very value, and the parser stops right behind it |
| BencodeValues.TextsDecide | source/src/Bencode.cpp:9-92 | No such text is a text of two values, or the beginning of a text of another |
| BencodeValues.EncodePrints | source/src/Bencode.cpp:9-92 | Every value with distinct keys has such a text: the one the printer gives |
| BencodeGrammar.ParserExact | source/src/Bencode.cpp:9-92 | At any place of any input the parser reads a value up to a position if and only if those bytes spell that value in the grammar written down there, which allows what `std::stoll` and `std::stoull` allow and gives a repeated key its first value |
| BencodeGrammar.NumeralExact | source/src/Bencode.cpp:35-46 | A text is read as a number exactly if it is spaces, at most one sign and digits, whatever follows that is not a digit |
| BencodeInfo.InfoSpanExact | source/src/Bencode.cpp:83-89 | The info span covers exactly the bytes of the value kept under the first `info` if and only if no later top-level entry has or contains that key; and those bytes alone parse to that value |
| BencodeInfo.SpanOfEntry | source/src/Bencode.cpp:83-89 | From an `info` entry on, whatever the span was before, it ends as that entry's if and only if nothing later has or contains the key |
| BencodeInfo.ValueSpan | source/src/Bencode.cpp:75-92 | Parsing a value moves the span if and only if it contains the key, and then to bytes inside it |
| BencodeInfo.SpanAlone | source/src/TorrentFile.cpp:128-132 | The bytes consumed for a value parse alone to the same value, to the last byte |
| TorrentWitnesses.RepeatedInfoMisses | source/src/TorrentFile.cpp:126-132 | A concrete file that is accepted with one info dictionary while the hash is taken over the bytes of another |
| BencodeInfo.FirstWins | source/src/Bencode.cpp:75-92 | Under a repeated key the map keeps the first value |
| BencodeInfo.OrderIrrelevant | source/src/Bencode.cpp:75-92 | With unique keys neither the order of the entries matters nor how their values are written, as long as they mean the same |
| BencodeInfo.ReorderedSame | source/src/Bencode.cpp:65-92 | A value whose dictionaries, at any depth, list their entries in another order means the same |
| BencodeInfo.AnyOrderRead | source/src/Bencode.cpp:9-92 | A tree printed with its dictionaries in any order, in any context, is read as what the tree means, and the parser stops right behind it |
| TorrentFiles.ParseTorrent | source/src/TorrentFile.cpp:3-135 | For every input: it is rejected for each of the five reasons if and only if that reason's condition holds (for a tracker exactly when some list tier has one that is not a string, before `info` is looked at), and otherwise gives the metadata the dictionaries describe, with the hash taken over the info span, which lies inside the input |
| TorrentWitnesses.OddTrackerRejected | source/src/TorrentFile.cpp:23-30 | A concrete file with an info dictionary that is rejected for a tracker |
| TorrentFiles.ReadAnnounceList | source/src/TorrentFile.cpp:21-34 | If every tracker of every list tier is a string, the m-th non-empty list tier gives the m-th tier with its trackers in order; nothing otherwise |
| TorrentFiles.ReadInfo | source/src/TorrentFile.cpp:42-108 | The metadata the info dictionary describes, or the rejection of a path that is not made of strings |
| TorrentFiles.SplitHashes | source/src/TorrentFile.cpp:59-67 | Digest k is bytes 20k to 20k + 20 of the string, and there are as many as fit |
| TorrentFiles.ReadFiles | source/src/TorrentFile.cpp:70-100 | Rejected if and only if some path has a component that is not a string; otherwise the file table, the m-th dictionary of the list giving the m-th entry, and the 64-bit running total |
| TorrentFiles.FilesInOrder | source/src/TorrentFile.cpp:74-99 | The file table has an entry for each dictionary of the list, in order, with that dictionary's path and length, and no other |
| TorrentFiles.KeyNames | source/src/TorrentFile.cpp:12-103 | The keys looked up are those of the metainfo format, in characters |
| TorrentFiles.TotalIsGiven | source/src/TorrentFile.cpp:91-96 | The running total is the sum of the lengths given, modulo 2^64 |
| TorrentFiles.JoinPath | source/src/TorrentFile.cpp:80-88 | If all components are strings, component k stands in the path behind the lengths of the earlier ones and k slashes, and nothing else is in it |
| TorrentFiles.JoinInOrder | source/src/TorrentFile.cpp:82-85 | For every list of strings: the components in order, one slash between any two, and nothing else |
| TorrentFiles.TotalIsSum | source/src/TorrentFile.cpp:91-98 | When every file has a length the running total is their sum modulo 2^64 |
| TorrentFiles.TotalMatchesFiles | source/src/TorrentFile.cpp:69-108 | The metadata's total is the one `init_files` arrives at if and only if the lengths add up to less than 2^64 |

## Left out

- Sockets, asio callbacks, the handshake, end of stream and accepting connections: I/O plumbing.
- Trackers, DNS, TLS, compact peer lists and URL handling: only the event and `left` arithmetic enters, through the byte statements.
- SHA-1 itself is uninterpreted, and the info hash is that function of the span's bytes.
- In `Swarm` the notification is a step of the io thread without effect; the frames it sends are stated for the class method.
- Condition variables and an orderly shutdown: stopping is a crash between two steps, which may leave completed pieces unwritten, as the writer's loop test may too.
- Failed opens, failed or partial writes, and torn resume records.
- Records outside the torrent or repeated in a resume file not written by this program: start-up is modelled on any in-range records and proved sound on distinct ones, which is what every run leaves behind.
- A connection is dropped only between handlers; the program's weak pointers could expire within one.
- The machine widths of `int` and `size_t` in piece and file offsets, and the wrap of `pos + len` in the parser: these are unbounded integers. The 64-bit wrap of `total_size` is modelled.
- Memory ordering of the atomics: each lock region and each counter update is one step.
- Statistics other than downloaded bytes and completed pieces, console output and directory creation.
- Comment, creator and creation date of a torrent: plain copies.
- Liveness: nothing says that a thread gets to run; the statements are about every run as far as it got.
- PeerConnections.PeerConnection.MaybeRequestNext: as a method it runs alone; its interleavings with the other threads are the labels of `Swarm`.
- PieceManagers.PieceManager.TimeoutSweep: the whole sweep is stated with nothing in between; `Swarm` interleaves its single visits.
- PieceManagers.PieceManager.DrainQueue: likewise stated without pieces completing in between; `Swarm` interleaves pop, write and clear.
- BencodeRoundTrip.NumberRoundTrip: of the numbers `std::stoll` and `std::stoull` accept, only canonical decimals are printed; the reader itself takes spaces, a sign and trailing bytes as they do.
