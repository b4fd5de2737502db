/** What every step keeps of the piece manager's state, and how the scheduler's scan unfolds. */
module CoreInvariant {
  import opened Bytes
  import opened Distinct
  import opened Layout
  import opened Bits
  import opened PieceCore
  import opened PieceInvariant
  import opened Startup

  /** `add_block` run to its end without interruption. */
  ghost function AddBlockWhole(t: Torrent, c: Core, i: nat, begin: nat, block: seq<byte>): Core
    requires t.Valid() && Sized(t, c) && i < |t.hashes| && StoreInRange(c.pieces[i], begin, block)
  {
    var (c', r) := PieceCore.Store(t, c, i, begin, block);
    if r == Completed then PieceCore.AppendRecord(PieceCore.Enqueue(PieceCore.Mark(c', i), i), i) else c'
  }

  /** What every method keeps of the state: sound pieces, a sound flag, and a queue of verified buffers. */
  ghost predicate CoreOk(t: Torrent, c: Core)
    requires t.Valid()
  {
    && PiecesOk(t, c.pieces)
    && |c.bitfield| == (|t.hashes| + 7) / 8
    && (c.allComplete ==> AllComplete(c.pieces))
    && (forall i :: i in c.queue ==> i < |c.pieces| && c.pieces[i].isComplete && c.pieces[i].data != [])
    && NoDup(c.queue)
  }

  lemma CoreOkPieces(t: Torrent, c: Core)
    requires t.Valid() && CoreOk(t, c)
    ensures Sized(t, c)
    ensures PiecesOk(t, c.pieces)
  {
    assert forall i :: 0 <= i < |c.pieces| ==> PieceOk(t, i, c.pieces[i]);
  }

  lemma BootOk(t: Torrent, records: seq<nat>)
    requires t.Valid() && InRange(t, records) && NoDup(records)
    ensures CoreOk(t, Boot(t, records))
  {
    BootRebuilds(t, records);
  }

  lemma NextBlockCases(t: Torrent, c: Core, has: seq<bool>, now: int, peer: nat)
    requires t.Valid() && Sized(t, c) && |has| == |t.hashes|
    ensures var scan := FirstOpen(t, c.pieces, has, 0);
            && (c.allComplete ==> NextBlock(t, c, has, now, peer) == (c, None))
            && (!c.allComplete && scan.None? ==>
                  NextBlock(t, c, has, now, peer) == (c.(allComplete := AllComplete(c.pieces)), None))
            && (!c.allComplete && scan.Some? ==>
                  && scan.value.piece < |c.pieces|
                  && var i, q := scan.value.piece, MaybeInit(t, scan.value.piece, c.pieces[scan.value.piece]);
                  && scan.value.block < |q.status| == |q.inFlight|
                  && NextBlock(t, c, has, now, peer)
                     == (c.(pieces := c.pieces[i := Granted(t, i, c.pieces[i], scan.value.block, now, peer)]), scan))
  {
    FirstOpenFound(t, c.pieces, has, 0);
  }

  /** How many of the first `k` pieces are complete. */
  function CompleteUpTo(pieces: seq<PieceBuffer>, k: nat): nat
    requires k <= |pieces|
  {
    if k == 0 then 0 else CompleteUpTo(pieces, k - 1) + if pieces[k - 1].isComplete then 1 else 0
  }

  lemma {:induction false} CompleteCount(pieces: seq<PieceBuffer>, k: nat)
    requires k <= |pieces|
    ensures CompleteUpTo(pieces, k) <= k
    ensures CompleteUpTo(pieces, k) == k <==> forall i :: 0 <= i < k ==> pieces[i].isComplete
  {
    if k == 0 {
    } else {
      CompleteCount(pieces, k - 1);
    }
  }

  /** One round of the scan: the count of complete pieces, and whether the scan stops at piece `i` or goes on. */
  lemma ScanRound(t: Torrent, pieces: seq<PieceBuffer>, has: seq<bool>, i: nat)
    requires t.Valid() && PiecesOk(t, pieces) && i < |pieces| == |has|
    ensures PieceOk(t, i, pieces[i])
    ensures CompleteUpTo(pieces, i + 1) == CompleteUpTo(pieces, i) + if pieces[i].isComplete then 1 else 0
    ensures CompleteUpTo(pieces, i + 1) == |pieces| <==> i + 1 == |pieces| && AllComplete(pieces)
    ensures pieces[i].isComplete || !has[i] ==> FirstOpen(t, pieces, has, i) == FirstOpen(t, pieces, has, i + 1)
    ensures !pieces[i].isComplete ==> !AllComplete(pieces)
    ensures !pieces[i].isComplete && has[i] ==>
              var q := MaybeInit(t, i, pieces[i]);
              && |q.status| == |q.inFlight|
              && (FirstFree(q.status, 0).Some? ==>
                    FirstOpen(t, pieces, has, i) == Some(BlockId(i, FirstFree(q.status, 0).value)))
              && (FirstFree(q.status, 0).None? ==>
                    q == pieces[i] && FirstOpen(t, pieces, has, i) == FirstOpen(t, pieces, has, i + 1))
  {
    CompleteCount(pieces, i + 1);
    if !pieces[i].isComplete {
      MaybeInitOk(t, i, pieces[i]);
    }
  }

  /** The scan has passed the first `i` pieces: `count` of them are complete, and it has found nothing. */
  ghost predicate Scanned(t: Torrent, pieces: seq<PieceBuffer>, has: seq<bool>, i: nat, count: nat, flag: bool)
    requires t.Valid()
  {
    && i <= |pieces| == |has| == |t.hashes|
    && count == CompleteUpTo(pieces, i)
    && (flag <==> i == |pieces| && AllComplete(pieces))
    && FirstOpen(t, pieces, has, 0) == FirstOpen(t, pieces, has, i)
  }

  lemma ScanStarts(t: Torrent, c: Core, has: seq<bool>)
    requires t.Valid() && CoreOk(t, c) && |has| == |t.hashes| && !c.allComplete
    ensures Scanned(t, c.pieces, has, 0, 0, c.allComplete)
  {
  }

  /** One round of the scan: it passes piece `i`, or grants its first free block. */
  lemma ScanStep(t: Torrent, c: Core, has: seq<bool>, i: nat, count: nat, now: int, peer: nat)
    requires t.Valid() && CoreOk(t, c) && Scanned(t, c.pieces, has, i, count, c.allComplete) && i < |c.pieces|
    ensures PieceOk(t, i, c.pieces[i]) && Sized(t, c)
    ensures var p := c.pieces[i];
            var count' := count + if p.isComplete then 1 else 0;
            var flag' := c.allComplete || count' == |t.hashes|;
            && (p.isComplete || !has[i] ==> Scanned(t, c.pieces, has, i + 1, count', flag'))
            && (!p.isComplete && has[i] ==>
                  var q := MaybeInit(t, i, p);
                  && |q.status| == |q.inFlight| && !flag'
                  && match FirstFree(q.status, 0)
                     case None => q == p && Scanned(t, c.pieces, has, i + 1, count', flag')
                     case Some(j) =>
                       NextBlock(t, c, has, now, peer) == (c.(pieces := c.pieces[i := Granted(t, i, p, j, now, peer)]), Some(BlockId(i, j))))
  {
    hide PiecesOk, PieceOk, MaybeInit, NextBlock, FirstFree, Granted;
    CoreOkPieces(t, c);
    ScanRound(t, c.pieces, has, i);
    NextBlockCases(t, c, has, now, peer);
  }

  lemma ScanEnds(t: Torrent, c: Core, has: seq<bool>, count: nat, now: int, peer: nat)
    requires t.Valid() && Sized(t, c) && Scanned(t, c.pieces, has, |c.pieces|, count, c.allComplete)
    ensures NextBlock(t, c.(allComplete := false), has, now, peer) == (c, None)
  {
  }

  // ---------------------------------------------------------------- each step keeps the state sound

  lemma StoreSound(t: Torrent, c: Core, i: nat, begin: nat, block: seq<byte>)
    requires t.Valid() && CoreOk(t, c) && Sized(t, c)
    requires begin % BLOCK == 0 && Indexable(t, c.pieces, i, begin / BLOCK) && |block| == t.RequestLen(i, begin / BLOCK)
    requires StoreInRange(c.pieces[i], begin, block)
    ensures CoreOk(t, PieceCore.Store(t, c, i, begin, block).0)
    ensures c.pieces[i].isComplete ==> PieceCore.Store(t, c, i, begin, block).0 == c
  {
    hide PieceCore.StoreBlock, StoreInRange, NoDup;
    assert begin == begin / BLOCK * BLOCK;
    StoreBlockOk(t, i, c.pieces[i], begin / BLOCK, block);
    assert c.pieces[i].isComplete ==> c.pieces[i := c.pieces[i]] == c.pieces;
  }

  /** The block is what a request for its place asked for, and its piece was granted before. */
  ghost predicate Answers(t: Torrent, c: Core, i: int, begin: int, block: seq<byte>)
    requires t.Valid()
  {
    && Sized(t, c)
    && 0 <= i < |t.hashes| && 0 <= begin && begin % BLOCK == 0
    && Indexable(t, c.pieces, i, begin / BLOCK)
    && |block| == t.RequestLen(i, begin / BLOCK)
    && StoreInRange(c.pieces[i], begin, block)
  }

  /** This answer completes its piece. */
  predicate Completes(t: Torrent, c: Core, i: nat, begin: nat, block: seq<byte>)
    requires t.Valid() && Sized(t, c) && i < |t.hashes| && StoreInRange(c.pieces[i], begin, block)
  {
    PieceCore.Store(t, c, i, begin, block).1 == Completed
  }

  lemma FinishSound(t: Torrent, c: Core, i: nat, begin: nat, block: seq<byte>)
    requires t.Valid() && CoreOk(t, c) && Sized(t, c)
    requires begin % BLOCK == 0 && Indexable(t, c.pieces, i, begin / BLOCK) && |block| == t.RequestLen(i, begin / BLOCK)
    requires StoreInRange(c.pieces[i], begin, block)
    ensures i / 8 < |c.bitfield| && CoreOk(t, AddBlockWhole(t, c, i, begin, block))
  {
    hide PieceCore.StoreBlock, StoreInRange, MarkPiece;
    StoreSound(t, c, i, begin, block);
    StoreBlockOk(t, i, c.pieces[i], begin / BLOCK, block);
    assert begin == begin / BLOCK * BLOCK;
  }

  lemma VisitSound(t: Torrent, c: Core, i: nat, now: int)
    requires t.Valid() && CoreOk(t, c) && Sized(t, c) && i < |c.pieces|
    ensures CoreOk(t, PieceCore.Visit(c, i, now))
  {
    AfterVisitOk(t, i, c.pieces[i], now);
  }

  lemma NextBlockSound(t: Torrent, c: Core, has: seq<bool>, now: int, peer: nat)
    requires t.Valid() && CoreOk(t, c) && Sized(t, c) && |has| == |t.hashes|
    ensures CoreOk(t, NextBlock(t, c, has, now, peer).0)
  {
    hide NoDup, Granted, MaybeInit;
    NextBlockCases(t, c, has, now, peer);
    FirstOpenFound(t, c.pieces, has, 0);
    var scan := FirstOpen(t, c.pieces, has, 0);
    if !c.allComplete && scan.Some? {
      GrantedOk(t, scan.value.piece, c.pieces[scan.value.piece], scan.value.block, now, peer);
    }
  }

  // ---------------------------------------------------------------- the writer's loop

  /** The pieces `done` are on disk with the bytes they held and have given up their buffers; nothing else differs. */
  ghost predicate Drained(t: Torrent, p0: seq<PieceBuffer>, c0: seq<byte>, done: seq<nat>,
                          pieces: seq<PieceBuffer>, content: seq<byte>)
    requires t.Valid()
  {
    && |content| == |c0| == t.total && |pieces| == |p0| == |t.hashes|
    && forall i :: 0 <= i < |pieces| ==>
         && pieces[i] == (if i in done then Cleared(p0[i]) else p0[i])
         && Slice(t, content, i) == (if i in done then p0[i].data else Slice(t, c0, i))
  }

  lemma DrainStarts(t: Torrent, pieces: seq<PieceBuffer>, content: seq<byte>)
    requires t.Valid() && |pieces| == |t.hashes| && |content| == t.total
    ensures Drained(t, pieces, content, [], pieces, content)
  {
  }

  /** The front of the queue names a complete piece with a full verified buffer; taking it off and clearing it is sound. */
  lemma DrainSound(t: Torrent, c: Core)
    requires t.Valid() && CoreOk(t, c) && c.queue != []
    ensures var i := c.queue[0];
            && i < |c.pieces| && |c.pieces[i].data| == t.PieceLen(i) && t.sha1(c.pieces[i].data) == t.hashes[i]
            && CoreOk(t, PopFront(c)) && CoreOk(t, Clear(PopFront(c), i))
            && |c.pieces| == |t.hashes|
  {
    var i := c.queue[0];
    assert i in c.queue;
    assert PieceOk(t, i, c.pieces[i]);
    assert forall k :: k in c.queue[1..] ==> k in c.queue && k != i;
  }

  lemma DrainedNext(t: Torrent, p0: seq<PieceBuffer>, c0: seq<byte>, done: seq<nat>, c: Core, content: seq<byte>)
    requires t.Valid() && CoreOk(t, c) && c.queue != [] && Drained(t, p0, c0, done, c.pieces, content)
    requires c.queue[0] < |c.pieces|
    ensures var i := c.queue[0];
            Drained(t, p0, c0, done + [i], c.pieces[i := Cleared(c.pieces[i])],
                    Overlay(content, t.Start(i), c.pieces[i].data))
  {
    DrainSound(t, c);
    var i := c.queue[0];
    forall k | 0 <= k < |c.pieces|
      ensures Slice(t, Overlay(content, t.Start(i), c.pieces[i].data), k)
           == if k == i then c.pieces[i].data else Slice(t, content, k)
    {
      SliceAfterWrite(t, content, i, c.pieces[i].data, k);
    }
    assert c.pieces[i].data == p0[i].data;
  }
}
