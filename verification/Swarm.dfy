/**
 * All interleavings of the io thread, the writer thread and the timeout thread over one piece manager.
 * Each lock region is one atomic step. The io thread and the writer thread have program counters;
 * the timeout thread may visit any piece at any time with any clock reading, and the process may crash
 * between any two steps, keeping only the files and the resume records.
 */
module Swarm {
  import opened Bytes
  import opened Layout
  import opened Bits
  import opened Distinct
  import opened PieceCore
  import opened PieceInvariant

  /**
   * A connection. The last two fields are bookkeeping for the credit equation only: `stale` counts the answers that
   * found their block no longer requested from this connection, `stolen` the blocks requested from this
   * connection that another connection's answer filled.
   */
  datatype Conn = Conn(choked: bool, interested: bool, has: seq<bool>, inFlight: int, stolen: nat, stale: nat)

  datatype Request = Request(peer: nat, piece: nat, block: nat)

  /** Where the io thread stands. */
  datatype Io =
    | Ready                                                            // between message handlers
    | Storing(peer: nat, piece: nat, block: nat, bytes: seq<byte>)     // handle_piece, credit taken, lock not yet held
    | Marking(peer: nat, piece: nat)                                   // add_block completed the piece
    | Notifying(peer: nat, piece: nat)
    | Enqueueing(peer: nat, piece: nat)
    | Appending(peer: nat, piece: nat)
    | Scheduling(peer: nat)                                            // head of the loop in maybe_request_next
    | Picking(peer: nat)                                               // the loop condition held
    | Sending(peer: nat, piece: nat, block: nat)                       // block granted, request not yet counted

  datatype Writer = Idle | Popped(piece: nat) | Written(piece: nat)

  /** `asked` to `everWritten` record the past; no step of the program reads them. */
  datatype Sys = Sys(
    core: Core,
    flat: seq<byte>,              // the content as the files hold it
    io: Io,
    writer: Writer,
    conns: map<nat, Conn>,
    nextPeer: nat,
    asked: set<Request>,          // requests sent since start-up
    resumed: seq<nat>,            // pieces loaded from the resume file at start-up
    cleared: seq<nat>,            // pieces written and cleared since start-up
    failures: seq<nat>,           // hash failures since start-up
    everWritten: set<nat>)        // pieces ever written, across restarts

  datatype Label =
    | Connect
    | Drop(peer: nat)
    | Choke(peer: nat)
    | Unchoke(peer: nat)
    | Have(peer: nat, piece: nat)
    | Announce(peer: nat, bits: seq<bool>)
    | Answer(peer: nat, piece: nat, block: nat, bytes: seq<byte>)
    | Store | Mark | Notify | Enqueue | Append
    | Test | Grant(now: int) | Send
    | Pop | Write | Clear
    | Visit(piece: nat, now: int)
    | Crash

  // ---------------------------------------------------------------- the steps

  ghost predicate IoShaped(t: Torrent, io: Io, conns: map<nat, Conn>)
    requires t.Valid()
  {
    && (!io.Ready? ==> io.peer in conns)
    && (io.Storing? || io.Marking? || io.Notifying? || io.Enqueueing? || io.Appending? || io.Sending? ==> io.piece < |t.hashes|)
    && (io.Storing? || io.Sending? ==> io.block < t.BlockCount(io.piece))
  }

  /** The state has the shape every handler relies on: vectors are sized, indices in range, connections alive. */
  ghost predicate Shaped(t: Torrent, s: Sys)
    requires t.Valid()
  {
    && Sized(t, s.core)
    && |s.flat| == t.total
    && (forall p :: p in s.conns ==> |s.conns[p].has| == |t.hashes|)
    && IoShaped(t, s.io, s.conns)
    && (!s.writer.Idle? ==> s.writer.piece < |t.hashes|)
    && InRange(t, s.core.resume)
  }

  /**
   * When a step can happen. Besides the program counters: a peer names pieces in range, and a piece message
   * answers a request once sent to that peer, with its length.
   */
  ghost predicate Enabled(t: Torrent, s: Sys, l: Label)
    requires t.Valid()
  {
    && Shaped(t, s)
    && match l
       case Connect => s.io.Ready?
       case Drop(p) => s.io.Ready? && p in s.conns
       case Choke(p) => s.io.Ready? && p in s.conns
       case Unchoke(p) => s.io.Ready? && p in s.conns
       case Have(p, i) => s.io.Ready? && p in s.conns && i < |t.hashes|
       case Announce(p, bits) => s.io.Ready? && p in s.conns && |bits| == |t.hashes|
       case Answer(p, i, j, bytes) =>
         && s.io.Ready? && p in s.conns && Request(p, i, j) in s.asked
         && i < |t.hashes| && j < t.BlockCount(i) && |bytes| == t.RequestLen(i, j)
       case Store => s.io.Storing? && StoreInRange(s.core.pieces[s.io.piece], s.io.block * BLOCK, s.io.bytes)
       case Mark => s.io.Marking?
       case Notify => s.io.Notifying?
       case Enqueue => s.io.Enqueueing?
       case Append => s.io.Appending?
       case Test => s.io.Scheduling?
       case Grant(_) => s.io.Picking?
       case Send => s.io.Sending?
       case Pop => s.writer.Idle? && s.core.queue != [] && s.core.queue[0] < |t.hashes|
       case Write => s.writer.Popped?
       case Clear => s.writer.Written?
       case Visit(i, _) => i < |t.hashes|
       case Crash => true
  }

  function SetAll(has: seq<bool>, bits: seq<bool>): seq<bool>
    requires |has| == |bits|
  {
    seq(|has|, k requires 0 <= k < |has| => has[k] || bits[k])
  }

  /** An answer by `p` for block `j` of a piece is stale unless that block is still requested from `p`. */
  function Settle(conns: map<nat, Conn>, p: nat, piece: PieceBuffer, j: nat): map<nat, Conn>
    requires p in conns && |piece.status| == |piece.inFlight|
  {
    if j < |piece.status| && Owns(piece, j, p) then conns
    else
      map q | q in conns ::
        if q == p then conns[q].(stale := conns[q].stale + 1)
        else if j < |piece.status| && Owns(piece, j, q) then conns[q].(stolen := conns[q].stolen + 1)
        else conns[q]
  }

  function Credit(conns: map<nat, Conn>, piece: PieceBuffer, now: int): map<nat, Conn>
    requires |piece.status| == |piece.inFlight|
  {
    map q | q in conns :: conns[q].(inFlight := conns[q].inFlight - Returned(piece, q, now))
  }

  function NewConn(t: Torrent): Conn {
    Conn(true, false, seq(|t.hashes|, _ => false), 0, 0, 0)
  }

  function Restart(t: Torrent, records: seq<nat>, flat: seq<byte>, everWritten: set<nat>): Sys
    requires t.Valid() && InRange(t, records)
  {
    Sys(Boot(t, records), flat, Ready, Idle, map[], 0, {}, records, [], [], everWritten)
  }

  ghost function Step(t: Torrent, s: Sys, l: Label): Sys
    requires t.Valid() && Enabled(t, s, l)
  {
    match l
    case Connect => s.(conns := s.conns[s.nextPeer := NewConn(t)], nextPeer := s.nextPeer + 1)
    case Drop(p) => s.(conns := s.conns - {p})
    case Choke(p) => s.(conns := s.conns[p := s.conns[p].(choked := true)])
    case Unchoke(p) =>
      s.(conns := s.conns[p := s.conns[p].(choked := false)],
         io := if s.conns[p].interested then Scheduling(p) else Ready)
    case Have(p, i) =>
      s.(conns := s.conns[p := s.conns[p].(has := s.conns[p].has[i := true], interested := true)], io := Scheduling(p))
    case Announce(p, bits) =>
      s.(conns := s.conns[p := s.conns[p].(has := SetAll(s.conns[p].has, bits), interested := true)], io := Scheduling(p))
    case Answer(p, i, j, bytes) =>
      s.(conns := s.conns[p := s.conns[p].(inFlight := s.conns[p].inFlight - 1)], io := Storing(p, i, j, bytes))
    case Store =>
      var (c, r) := PieceCore.Store(t, s.core, s.io.piece, s.io.block * BLOCK, s.io.bytes);
      s.(core := c,
         conns := Settle(s.conns, s.io.peer, s.core.pieces[s.io.piece], s.io.block),
         io := if r == Completed then Marking(s.io.peer, s.io.piece) else Scheduling(s.io.peer),
         failures := if r == HashFailed then s.failures + [s.io.piece] else s.failures)
    case Mark => s.(core := PieceCore.Mark(s.core, s.io.piece), io := Notifying(s.io.peer, s.io.piece))
    case Notify => s.(io := Enqueueing(s.io.peer, s.io.piece))
    case Enqueue => s.(core := PieceCore.Enqueue(s.core, s.io.piece), io := Appending(s.io.peer, s.io.piece))
    case Append => s.(core := AppendRecord(s.core, s.io.piece), io := Scheduling(s.io.peer))
    case Test =>
      var c := s.conns[s.io.peer];
      s.(io := if !c.choked && c.inFlight < MAX_IN_FLIGHT then Picking(s.io.peer) else Ready)
    case Grant(now) =>
      var (c, r) := NextBlock(t, s.core, s.conns[s.io.peer].has, now, s.io.peer);
      s.(core := c, io := match r case Some(b) => Sending(s.io.peer, b.piece, b.block) case None => Ready)
    case Send =>
      var p := s.io.peer;
      s.(conns := s.conns[p := s.conns[p].(inFlight := s.conns[p].inFlight + 1)],
         asked := s.asked + {Request(p, s.io.piece, s.io.block)},
         io := Scheduling(p))
    case Pop => s.(core := PopFront(s.core), writer := Popped(s.core.queue[0]))
    case Write =>
      var i := s.writer.piece;
      s.(flat := Overlay(s.flat, t.Start(i), s.core.pieces[i].data),
         writer := Written(i),
         everWritten := s.everWritten + {i})
    case Clear =>
      s.(core := PieceCore.Clear(s.core, s.writer.piece), writer := Idle, cleared := s.cleared + [s.writer.piece])
    case Visit(i, now) =>
      s.(core := PieceCore.Visit(s.core, i, now), conns := Credit(s.conns, s.core.pieces[i], now))
    case Crash => Restart(t, s.core.resume, s.flat, s.everWritten)
  }

  /** The very first start: no resume records yet. */
  ghost predicate Init(t: Torrent, s: Sys)
    requires t.Valid()
  {
    |s.flat| == t.total && s == Restart(t, [], s.flat, {})
  }

  // ---------------------------------------------------------------- the invariant

  /** The completed piece the io thread has not queued yet. */
  function InHand(io: Io): seq<nat> {
    match io
    case Marking(_, i) => [i]
    case Notifying(_, i) => [i]
    case Enqueueing(_, i) => [i]
    case _ => []
  }

  /** The completed piece the io thread has not recorded in the resume file yet. */
  function Unrecorded(io: Io): seq<nat> {
    if io.Appending? then [io.piece] else InHand(io)
  }

  function WithWriter(w: Writer): seq<nat> {
    if w.Idle? then [] else [w.piece]
  }

  /** Pieces whose buffers are gone. */
  function Gone(s: Sys): seq<nat> {
    s.resumed + s.cleared
  }

  /** Complete pieces whose buffers are still held, the oldest first. */
  function Held(s: Sys): seq<nat> {
    WithWriter(s.writer) + s.core.queue + InHand(s.io)
  }

  /** All complete pieces: a piece moves along this line from the right end to the left and never leaves it. */
  function Pipeline(s: Sys): seq<nat> {
    Gone(s) + Held(s)
  }

  ghost predicate PipelineOk(pieces: seq<PieceBuffer>, pipe: seq<nat>) {
    && NoDup(pipe)
    && (forall i :: i in pipe ==> i < |pieces|)
    && (forall i :: 0 <= i < |pieces| ==> (pieces[i].isComplete <==> i in pipe))
  }

  ghost predicate BuffersOk(pieces: seq<PieceBuffer>, gone: seq<nat>, held: seq<nat>) {
    && (forall i :: i in gone ==> i < |pieces| && pieces[i].data == [])
    && (forall i :: i in held ==> i < |pieces| && pieces[i].data != [])
  }

  ghost predicate BitfieldOk(bitfield: seq<byte>, pipe: seq<nat>, io: Io) {
    forall i: nat :: HasPiece(bitfield, i) <==> i in pipe && !(io.Marking? && io.piece == i)
  }

  ghost predicate BytesOk(t: Torrent, downloaded: nat, pieces: seq<PieceBuffer>, failures: seq<nat>)
    requires t.Valid()
  {
    InRange(t, failures) && downloaded == WrittenTotal(pieces, |pieces|) + LengthSum(t, failures)
  }

  ghost predicate RequestsOk(t: Torrent, pieces: seq<PieceBuffer>, asked: set<Request>)
    requires t.Valid()
  {
    forall r :: r in asked ==> Indexable(t, pieces, r.piece, r.block)
  }

  ghost predicate IoOk(t: Torrent, pieces: seq<PieceBuffer>, io: Io, asked: set<Request>)
    requires t.Valid()
  {
    && (io.Storing? ==> Request(io.peer, io.piece, io.block) in asked && Indexable(t, pieces, io.piece, io.block))
    && (io.Storing? ==> |io.bytes| == t.RequestLen(io.piece, io.block))
    && (io.Sending? ==> Indexable(t, pieces, io.piece, io.block))
  }

  /** Credits a connection has outstanding in the io thread's hands. */
  function Pending(io: Io, p: nat): int {
    if (io.Storing? || io.Sending?) && io.peer == p then 1 else 0
  }

  /** The credit equation, for every connection and every run. */
  ghost predicate CreditsOk(pieces: seq<PieceBuffer>, conns: map<nat, Conn>, io: Io) {
    && Paired(pieces)
    && forall p :: p in conns ==>
         conns[p].inFlight == OwnedTotal(pieces, p, |pieces|) + conns[p].stolen - conns[p].stale - Pending(io, p)
  }

  ghost predicate OwnersOk(pieces: seq<PieceBuffer>, conns: map<nat, Conn>, nextPeer: nat) {
    && (forall p :: p in conns ==> p < nextPeer)
    && (forall i, j :: 0 <= i < |pieces| && 0 <= j < |pieces[i].inFlight| && pieces[i].inFlight[j].peer.Some? ==>
          pieces[i].inFlight[j].peer.value < nextPeer)
  }

  /** No request leaves the io thread above the limit, while choked, uninterested, or for a piece not announced. */
  ghost predicate ConnsOk(conns: map<nat, Conn>, io: Io) {
    && (forall p :: p in conns ==> conns[p].inFlight <= MAX_IN_FLIGHT)
    && (forall p, i :: p in conns && 0 <= i < |conns[p].has| && conns[p].has[i] ==> conns[p].interested)
    && ((io.Picking? || io.Sending?) && io.peer in conns ==>
          !conns[io.peer].choked && conns[io.peer].inFlight < MAX_IN_FLIGHT)
    && (io.Sending? && io.peer in conns ==>
          io.piece < |conns[io.peer].has| && conns[io.peer].has[io.piece])
  }

  ghost predicate DiskOk(t: Torrent, flat: seq<byte>, everWritten: set<nat>, cleared: seq<nat>, writer: Writer)
    requires t.Valid()
  {
    && (forall i :: i in everWritten ==> i < |t.hashes| && t.sha1(Slice(t, flat, i)) == t.hashes[i])
    && (forall i :: i in cleared ==> i in everWritten)
    && (writer.Written? ==> writer.piece in everWritten)
  }

  ghost predicate Inv(t: Torrent, s: Sys)
    requires t.Valid()
  {
    && Shaped(t, s)
    && PiecesOk(t, s.core.pieces)
    && PipelineOk(s.core.pieces, Pipeline(s))
    && BuffersOk(s.core.pieces, Gone(s), Held(s))
    && Pipeline(s) == s.core.resume + Unrecorded(s.io)
    && s.core.completed == |Pipeline(s)| - |InHand(s.io)|
    && BitfieldOk(s.core.bitfield, Pipeline(s), s.io)
    && BytesOk(t, s.core.downloaded, s.core.pieces, s.failures)
    && (s.core.allComplete ==> AllComplete(s.core.pieces))
    && RequestsOk(t, s.core.pieces, s.asked)
    && IoOk(t, s.core.pieces, s.io, s.asked)
    && CreditsOk(s.core.pieces, s.conns, s.io)
    && OwnersOk(s.core.pieces, s.conns, s.nextPeer)
    && ConnsOk(s.conns, s.io)
    && DiskOk(t, s.flat, s.everWritten, s.cleared, s.writer)
  }
}
