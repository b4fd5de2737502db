/**
 * The state of the piece manager as a value, and what each of its lock regions does to it.
 * Class `PieceManager` performs these steps in place; module `Swarm` interleaves them.
 */
module PieceCore {
  import opened Bytes
  import opened Layout
  import opened Bits

  datatype BlockState = NotRequested | Requested | Received

  /** `peer` names the connection a weak pointer refers to. */
  datatype InFlightBlock = InFlightBlock(sentTime: int, peer: Option<nat>)

  const NOT_IN_FLIGHT := InFlightBlock(0, None)

  datatype PieceBuffer = PieceBuffer(
    data: seq<byte>,
    status: seq<BlockState>,
    inFlight: seq<InFlightBlock>,
    bytesWritten: nat,
    isComplete: bool)

  const EMPTY_PIECE := PieceBuffer([], [], [], 0, false)

  /** Nanoseconds a request may stay unanswered. */
  const REQUEST_TIMEOUT: int := 3_000_000_000

  /** How many requests a connection keeps unanswered. */
  const MAX_IN_FLIGHT: int := 20

  /** How many requests may still leave a connection: none while choked or at the limit. */
  function Budget(choked: bool, inFlight: int): nat {
    if choked || inFlight >= MAX_IN_FLIGHT then 0 else MAX_IN_FLIGHT - inFlight
  }

  // ---------------------------------------------------------------- one piece

  predicate AllReceived(status: seq<BlockState>) {
    forall j :: 0 <= j < |status| ==> status[j] == Received
  }

  function MaybeInit(t: Torrent, i: nat, p: PieceBuffer): PieceBuffer
    requires t.Valid() && i < |t.hashes|
  {
    if p.data == [] then
      PieceBuffer(
        Zeros(t.PieceLen(i)),
        Resize(p.status, t.BlockCount(i), NotRequested),
        Resize(p.inFlight, t.BlockCount(i), NOT_IN_FLIGHT),
        0,
        false)
    else p
  }

  /** Ignored: the piece was complete already. */
  datatype StoreResult = Ignored | Stored | Completed | HashFailed

  datatype StoreOutcome = StoreOutcome(piece: PieceBuffer, added: nat, result: StoreResult)

  /** The indices used while storing a block stay inside the piece's vectors. */
  predicate StoreInRange(p: PieceBuffer, begin: nat, block: seq<byte>) {
    p.isComplete || (begin / BLOCK < |p.status| && begin + |block| <= |p.data|)
  }

  function Filled(p: PieceBuffer, begin: nat, block: seq<byte>): PieceBuffer
    requires begin / BLOCK < |p.status|
  {
    p.(data := Overlay(p.data, begin, block),
       status := p.status[begin / BLOCK := Received],
       bytesWritten := p.bytesWritten + |block|)
  }

  /** The piece with the block taken, if it is new. */
  function Kept(p: PieceBuffer, begin: nat, block: seq<byte>): PieceBuffer
    requires begin / BLOCK < |p.status|
  {
    if p.status[begin / BLOCK] != Received then Filled(p, begin, block) else p
  }

  function NewBytes(p: PieceBuffer, begin: nat, block: seq<byte>): nat
    requires begin / BLOCK < |p.status|
  {
    if p.status[begin / BLOCK] != Received then |block| else 0
  }

  /** The check after a block was stored: a piece whose blocks are all received completes, or is reset. */
  function Judged(t: Torrent, i: nat, q: PieceBuffer, added: nat): StoreOutcome
    requires t.Valid() && i < |t.hashes|
  {
    if !AllReceived(q.status) then StoreOutcome(q, added, Stored)
    else if t.HashMatches(i, q.data) then StoreOutcome(q.(isComplete := true), added, Completed)
    else StoreOutcome(MaybeInit(t, i, q.(data := [], status := [], inFlight := [], bytesWritten := 0)), added, HashFailed)
  }

  lemma JudgedAdds(t: Torrent, i: nat, q: PieceBuffer, added: nat)
    requires t.Valid() && i < |t.hashes|
    ensures Judged(t, i, q, added) == Judged(t, i, q, 0).(added := added)
  {
  }

  /** The critical section of `add_block`. */
  function StoreBlock(t: Torrent, i: nat, p: PieceBuffer, begin: nat, block: seq<byte>): StoreOutcome
    requires t.Valid() && i < |t.hashes| && StoreInRange(p, begin, block)
  {
    if p.isComplete then StoreOutcome(p, 0, Ignored)
    else Judged(t, i, Kept(p, begin, block), NewBytes(p, begin, block))
  }

  predicate Expired(p: PieceBuffer, j: nat, now: int)
    requires j < |p.status| == |p.inFlight|
  {
    p.status[j] == Requested && now - p.inFlight[j].sentTime > REQUEST_TIMEOUT
  }

  /** One piece after the timeout thread has looked at it. */
  function AfterVisit(p: PieceBuffer, now: int): (q: PieceBuffer)
    requires |p.status| == |p.inFlight|
    ensures |q.status| == |q.inFlight| == |p.status|
  {
    if p.isComplete then p
    else p.(
      status := seq(|p.status|, j requires 0 <= j < |p.status| => if Expired(p, j, now) then NotRequested else p.status[j]),
      inFlight := seq(|p.status|, j requires 0 <= j < |p.status| => if Expired(p, j, now) then NOT_IN_FLIGHT else p.inFlight[j]))
  }

  /** How many of the first `k` blocks are requested from connection `peer`. */
  function OwnedUpTo(p: PieceBuffer, peer: nat, k: nat): nat
    requires k <= |p.status| == |p.inFlight|
  {
    if k == 0 then 0
    else OwnedUpTo(p, peer, k - 1) + if p.status[k - 1] == Requested && p.inFlight[k - 1].peer == Some(peer) then 1 else 0
  }

  /** How many of the first `k` blocks time out and hand a credit back to connection `peer`. */
  function ExpiredUpTo(p: PieceBuffer, peer: nat, now: int, k: nat): nat
    requires k <= |p.status| == |p.inFlight|
  {
    if k == 0 then 0
    else ExpiredUpTo(p, peer, now, k - 1) + if Expired(p, k - 1, now) && p.inFlight[k - 1].peer == Some(peer) then 1 else 0
  }

  /** The credits connection `peer` gets back from a visit. */
  function Returned(p: PieceBuffer, peer: nat, now: int): nat
    requires |p.status| == |p.inFlight|
  {
    if p.isComplete then 0 else ExpiredUpTo(p, peer, now, |p.status|)
  }

  // ---------------------------------------------------------------- the scheduler's scan

  function FirstFree(status: seq<BlockState>, j: nat): (r: Option<nat>)
    requires j <= |status|
    ensures r.Some? ==> j <= r.value < |status| && status[r.value] == NotRequested
    ensures r.Some? ==> forall k :: j <= k < r.value ==> status[k] != NotRequested
    ensures r.None? ==> forall k :: j <= k < |status| ==> status[k] != NotRequested
    decreases |status| - j
  {
    if j == |status| then None
    else if status[j] == NotRequested then Some(j)
    else FirstFree(status, j + 1)
  }

  datatype BlockId = BlockId(piece: nat, block: nat)

  /** The first piece from `i` on that is wanted, offered by the peer and has a free block, with that block. */
  function FirstOpen(t: Torrent, pieces: seq<PieceBuffer>, has: seq<bool>, i: nat): (r: Option<BlockId>)
    requires t.Valid() && i <= |pieces| == |has| == |t.hashes|
    decreases |pieces| - i
  {
    if i == |pieces| then None
    else if !pieces[i].isComplete && has[i] then
      match FirstFree(MaybeInit(t, i, pieces[i]).status, 0)
      case Some(j) => Some(BlockId(i, j))
      case None => FirstOpen(t, pieces, has, i + 1)
    else FirstOpen(t, pieces, has, i + 1)
  }

  // ---------------------------------------------------------------- all pieces

  datatype Core = Core(
    pieces: seq<PieceBuffer>,
    allComplete: bool,         // is_torrent_complete
    downloaded: nat,           // stats: downloaded_bytes
    completed: nat,            // stats: completed_pieces
    bitfield: seq<byte>,
    queue: seq<nat>,           // completed_pieces_
    resume: seq<nat>)          // the records of the resume file

  /** The vectors have the sizes the constructor gave them. */
  ghost predicate Sized(t: Torrent, c: Core) {
    && |c.pieces| == |t.hashes|
    && |c.bitfield| == (|t.hashes| + 7) / 8
    && (forall i :: 0 <= i < |c.pieces| ==> |c.pieces[i].status| == |c.pieces[i].inFlight|)
  }

  predicate AllComplete(pieces: seq<PieceBuffer>) {
    forall i :: 0 <= i < |pieces| ==> pieces[i].isComplete
  }

  function Granted(t: Torrent, i: nat, p: PieceBuffer, j: nat, now: int, peer: nat): PieceBuffer
    requires t.Valid() && i < |t.hashes|
    requires j < |MaybeInit(t, i, p).status| == |MaybeInit(t, i, p).inFlight|
  {
    var q := MaybeInit(t, i, p);
    q.(status := q.status[j := Requested], inFlight := q.inFlight[j := InFlightBlock(now, Some(peer))])
  }

  lemma FirstOpenFound(t: Torrent, pieces: seq<PieceBuffer>, has: seq<bool>, i: nat)
    requires t.Valid() && i <= |pieces| == |has| == |t.hashes|
    requires forall k :: 0 <= k < |pieces| ==> |pieces[k].status| == |pieces[k].inFlight|
    ensures var r := FirstOpen(t, pieces, has, i);
            r.Some? ==>
              && i <= r.value.piece < |pieces| && !pieces[r.value.piece].isComplete && has[r.value.piece]
              && var q := MaybeInit(t, r.value.piece, pieces[r.value.piece]);
              && r.value.block < |q.status| == |q.inFlight| && q.status[r.value.block] == NotRequested
    decreases |pieces| - i
  {
  }

  /** `next_block_request`. */
  function NextBlock(t: Torrent, c: Core, has: seq<bool>, now: int, peer: nat): (r: (Core, Option<BlockId>))
    requires t.Valid() && Sized(t, c) && |has| == |t.hashes|
    ensures r.0 == c.(pieces := r.0.pieces, allComplete := r.0.allComplete)
  {
    if c.allComplete then (c, None)
    else
      match FirstOpen(t, c.pieces, has, 0)
      case None => (c.(allComplete := AllComplete(c.pieces)), None)
      case Some(b) =>
        FirstOpenFound(t, c.pieces, has, 0);
        (c.(pieces := c.pieces[b.piece := Granted(t, b.piece, c.pieces[b.piece], b.block, now, peer)]), Some(b))
  }

  function Store(t: Torrent, c: Core, i: nat, begin: nat, block: seq<byte>): (Core, StoreResult)
    requires t.Valid() && Sized(t, c) && i < |t.hashes| && StoreInRange(c.pieces[i], begin, block)
  {
    var o := StoreBlock(t, i, c.pieces[i], begin, block);
    (c.(pieces := c.pieces[i := o.piece], downloaded := c.downloaded + o.added), o.result)
  }

  function Mark(c: Core, i: nat): Core
    requires i / 8 < |c.bitfield|
  {
    c.(bitfield := MarkPiece(c.bitfield, i))
  }

  function Enqueue(c: Core, i: nat): Core {
    c.(completed := c.completed + 1, queue := c.queue + [i])
  }

  function AppendRecord(c: Core, i: nat): Core {
    c.(resume := c.resume + [i])
  }

  function PopFront(c: Core): Core
    requires c.queue != []
  {
    c.(queue := c.queue[1..])
  }

  function Cleared(p: PieceBuffer): PieceBuffer {
    p.(isComplete := true, data := [], status := [], inFlight := [])
  }

  function Clear(c: Core, i: nat): Core
    requires i < |c.pieces|
  {
    c.(pieces := c.pieces[i := Cleared(c.pieces[i])])
  }

  function Visit(c: Core, i: nat, now: int): Core
    requires i < |c.pieces| && |c.pieces[i].status| == |c.pieces[i].inFlight|
  {
    c.(pieces := c.pieces[i := AfterVisit(c.pieces[i], now)])
  }

  // ---------------------------------------------------------------- start-up

  predicate InRange(t: Torrent, records: seq<nat>) {
    forall k :: 0 <= k < |records| ==> records[k] < |t.hashes|
  }

  function Fresh(t: Torrent, records: seq<nat>): (c: Core)
    ensures Sized(t, c)
  {
    Core(seq(|t.hashes|, _ => EMPTY_PIECE), false, 0, 0, Zeros((|t.hashes| + 7) / 8), [], records)
  }

  /** The effect of reading one resume record. */
  function LoadRecord(t: Torrent, c: Core, i: nat): (r: Core)
    requires t.Valid() && Sized(t, c) && i < |t.hashes|
    ensures Sized(t, r)
  {
    var p := c.pieces[i].(bytesWritten := t.PieceLen(i), isComplete := true);
    c.(pieces := c.pieces[i := p], bitfield := MarkPiece(c.bitfield, i), downloaded := c.downloaded + t.PieceLen(i))
  }

  function LoadUpTo(t: Torrent, records: seq<nat>, k: nat): (c: Core)
    requires t.Valid() && InRange(t, records) && k <= |records|
    ensures Sized(t, c)
  {
    if k == 0 then Fresh(t, records) else LoadRecord(t, LoadUpTo(t, records, k - 1), records[k - 1])
  }

  /** The constructor run on a resume file. */
  function Boot(t: Torrent, records: seq<nat>): (c: Core)
    requires t.Valid() && InRange(t, records)
    ensures Sized(t, c)
  {
    LoadUpTo(t, records, |records|).(completed := |records|, allComplete := |records| == |t.hashes|)
  }
}
