/** Every step keeps the invariant. */
module SwarmInvariant {
  import opened Bytes
  import opened Layout
  import opened Bits
  import opened Distinct
  import opened PieceCore
  import opened PieceInvariant
  import opened Startup
  import opened Swarm

  // ---------------------------------------------------------------- message handlers: connections only

  lemma ConnectKeeps(t: Torrent, s: Sys)
    requires t.Valid() && Inv(t, s) && Enabled(t, s, Connect)
    ensures Inv(t, Step(t, s, Connect))
  {
    hide PiecesOk, PipelineOk, BuffersOk, BitfieldOk, BytesOk, RequestsOk, IoOk, DiskOk;
    var s' := Step(t, s, Connect);
    var pieces := s.core.pieces;
    forall i | 0 <= i < |pieces|
      ensures Owned(pieces[i], s.nextPeer) == 0
    {
      OwnedNone(pieces[i], s.nextPeer, |pieces[i].status|);
    }
    OwnedTotalNone(pieces, s.nextPeer, |pieces|);
    assert Pipeline(s') == Pipeline(s) && Gone(s') == Gone(s) && Held(s') == Held(s);
  }

  /** Flags of a connection and what its peer has do not enter the credit equation. */
  lemma ConnsChange(pieces: seq<PieceBuffer>, conns: map<nat, Conn>, io: Io, n: nat, conns': map<nat, Conn>, io': Io)
    requires CreditsOk(pieces, conns, io) && OwnersOk(pieces, conns, n)
    requires forall p :: p in conns' ==> p in conns
    requires forall p :: p in conns' ==>
               conns'[p].inFlight == conns[p].inFlight && conns'[p].stolen == conns[p].stolen && conns'[p].stale == conns[p].stale
    requires !io.Storing? && !io.Sending? && !io'.Storing? && !io'.Sending?
    ensures CreditsOk(pieces, conns', io') && OwnersOk(pieces, conns', n)
  {
  }

  lemma BitfieldStays(bitfield: seq<byte>, pipe: seq<nat>, io: Io, io': Io)
    requires BitfieldOk(bitfield, pipe, io) && !io.Marking? && !io'.Marking?
    ensures BitfieldOk(bitfield, pipe, io')
  {
  }

  lemma HandlerKeeps(t: Torrent, s: Sys, l: Label)
    requires t.Valid() && Inv(t, s) && Enabled(t, s, l)
    requires l.Drop? || l.Choke? || l.Unchoke? || l.Test?
    ensures Inv(t, Step(t, s, l))
  {
    hide PiecesOk, PipelineOk, BuffersOk, BytesOk, DiskOk, RequestsOk, CreditsOk, OwnersOk, BitfieldOk;
    var s' := Step(t, s, l);
    assert Pipeline(s') == Pipeline(s) && Gone(s') == Gone(s) && Held(s') == Held(s);
    ConnsChange(s.core.pieces, s.conns, s.io, s.nextPeer, s'.conns, s'.io);
    BitfieldStays(s.core.bitfield, Pipeline(s), s.io, s'.io);
  }

  lemma NewsKeeps(t: Torrent, s: Sys, l: Label)
    requires t.Valid() && Inv(t, s) && Enabled(t, s, l)
    requires l.Have? || l.Announce?
    ensures Inv(t, Step(t, s, l))
  {
    hide PiecesOk, PipelineOk, BuffersOk, BytesOk, DiskOk, RequestsOk, CreditsOk, OwnersOk, BitfieldOk;
    var s' := Step(t, s, l);
    assert Pipeline(s') == Pipeline(s) && Gone(s') == Gone(s) && Held(s') == Held(s);
    ConnsChange(s.core.pieces, s.conns, s.io, s.nextPeer, s'.conns, s'.io);
    BitfieldStays(s.core.bitfield, Pipeline(s), s.io, s'.io);
  }

  lemma AnswerKeeps(t: Torrent, s: Sys, l: Label)
    requires t.Valid() && Inv(t, s) && Enabled(t, s, l) && l.Answer?
    ensures Inv(t, Step(t, s, l))
  {
    hide PiecesOk, PipelineOk, BuffersOk, BytesOk, DiskOk, Paired;
    var s' := Step(t, s, l);
    assert Pipeline(s') == Pipeline(s) && Gone(s') == Gone(s) && Held(s') == Held(s);
  }

  lemma SendKeeps(t: Torrent, s: Sys)
    requires t.Valid() && Inv(t, s) && Enabled(t, s, Send)
    ensures Inv(t, Step(t, s, Send))
  {
    hide PiecesOk, PipelineOk, BuffersOk, BytesOk, DiskOk;
    var s' := Step(t, s, Send);
    assert Pipeline(s') == Pipeline(s) && Gone(s') == Gone(s) && Held(s') == Held(s);
  }

  // ---------------------------------------------------------------- the tail of add_block and the writer

  lemma MarkKeeps(t: Torrent, s: Sys)
    requires t.Valid() && Inv(t, s) && Enabled(t, s, Mark)
    ensures Inv(t, Step(t, s, Mark))
  {
    hide PiecesOk, BuffersOk, BytesOk, RequestsOk, DiskOk, OwnersOk, PieceOk;
    var s' := Step(t, s, Mark);
    assert Pipeline(s') == Pipeline(s) && Gone(s') == Gone(s) && Held(s') == Held(s);
    assert s.io.piece in Pipeline(s);
  }

  lemma TailKeeps(t: Torrent, s: Sys, l: Label)
    requires t.Valid() && Inv(t, s) && Enabled(t, s, l)
    requires l.Notify? || l.Enqueue? || l.Append?
    ensures Inv(t, Step(t, s, l))
  {
    hide PiecesOk, BytesOk, RequestsOk, DiskOk, OwnersOk, PipelineOk, BuffersOk;
    var s' := Step(t, s, l);
    assert Gone(s') == Gone(s) && Held(s') == Held(s);
    assert Pipeline(s') == Pipeline(s);
  }

  lemma PopKeeps(t: Torrent, s: Sys)
    requires t.Valid() && Inv(t, s) && Enabled(t, s, Pop)
    ensures Inv(t, Step(t, s, Pop))
  {
    hide PiecesOk, BytesOk, RequestsOk, OwnersOk, PipelineOk, BuffersOk, ConnsOk, CreditsOk, BitfieldOk;
    var s' := Step(t, s, Pop);
    assert s.core.queue == [s.core.queue[0]] + s.core.queue[1..];
    assert Gone(s') == Gone(s) && Held(s') == Held(s);
    assert Pipeline(s') == Pipeline(s);
  }

  lemma WriteKeeps(t: Torrent, s: Sys)
    requires t.Valid() && Inv(t, s) && Enabled(t, s, Write)
    ensures Inv(t, Step(t, s, Write))
  {
    hide BytesOk, RequestsOk, OwnersOk, ConnsOk, CreditsOk, BitfieldOk;
    var s' := Step(t, s, Write);
    var i := s.writer.piece;
    assert Gone(s') == Gone(s) && Held(s') == Held(s);
    assert Pipeline(s') == Pipeline(s);
    assert i in Held(s) && i in Pipeline(s);
    var data := s.core.pieces[i].data;
    assert |data| == t.PieceLen(i) && t.sha1(data) == t.hashes[i];
    forall k | k in s'.everWritten
      ensures k < |t.hashes| && t.sha1(Slice(t, s'.flat, k)) == t.hashes[k]
    {
      SliceAfterWrite(t, s.flat, i, data, k);
    }
  }

  // ---------------------------------------------------------------- steps that change a piece

  lemma PiecesUpdated(t: Torrent, pieces: seq<PieceBuffer>, i: nat, p: PieceBuffer)
    requires t.Valid() && PiecesOk(t, pieces) && i < |pieces| && PieceOk(t, i, p)
    ensures PiecesOk(t, pieces[i := p])
  {
  }

  lemma RequestsUpdated(t: Torrent, pieces: seq<PieceBuffer>, i: nat, p: PieceBuffer, asked: set<Request>, io: Io)
    requires t.Valid() && i < |pieces| == |t.hashes|
    requires RequestsOk(t, pieces, asked) && IoOk(t, pieces, io, asked)
    requires pieces[i].isComplete || Allocated(t, i, pieces[i]) ==> p.isComplete || Allocated(t, i, p)
    ensures RequestsOk(t, pieces[i := p], asked) && IoOk(t, pieces[i := p], io, asked)
  {
    var pieces' := pieces[i := p];
    assert forall k, j :: Indexable(t, pieces, k, j) ==> Indexable(t, pieces', k, j);
  }

  lemma BytesUpdated(t: Torrent, downloaded: nat, pieces: seq<PieceBuffer>, failures: seq<nat>, i: nat, p: PieceBuffer)
    requires t.Valid() && BytesOk(t, downloaded, pieces, failures) && i < |pieces|
    requires p.bytesWritten == pieces[i].bytesWritten
    ensures BytesOk(t, downloaded, pieces[i := p], failures)
  {
    WrittenTotalChange(pieces, i, p, |pieces|);
  }

  lemma CreditsAfterVisit(t: Torrent, pieces: seq<PieceBuffer>, conns: map<nat, Conn>, io: Io, i: nat, now: int)
    requires t.Valid() && PiecesOk(t, pieces) && CreditsOk(pieces, conns, io) && i < |pieces|
    ensures CreditsOk(pieces[i := AfterVisit(pieces[i], now)], Credit(conns, pieces[i], now), io)
  {
    hide PieceOk;
    var q := AfterVisit(pieces[i], now);
    forall peer | peer in conns
      ensures OwnedTotal(pieces[i := q], peer, |pieces|) == OwnedTotal(pieces, peer, |pieces|) - Returned(pieces[i], peer, now)
    {
      OwnedAfterVisit(t, i, pieces[i], now, peer);
      OwnedTotalChange(pieces, i, q, peer, |pieces|);
    }
  }

  lemma OwnersAfterVisit(pieces: seq<PieceBuffer>, conns: map<nat, Conn>, n: nat, i: nat, now: int)
    requires OwnersOk(pieces, conns, n) && i < |pieces| && |pieces[i].status| == |pieces[i].inFlight|
    ensures OwnersOk(pieces[i := AfterVisit(pieces[i], now)], Credit(conns, pieces[i], now), n)
  {
    hide Returned;
  }

  lemma BuffersKept(pieces: seq<PieceBuffer>, i: nat, p: PieceBuffer, gone: seq<nat>, held: seq<nat>)
    requires BuffersOk(pieces, gone, held) && i < |pieces| && p.data == pieces[i].data
    ensures BuffersOk(pieces[i := p], gone, held)
  {
  }

  lemma VisitKeeps(t: Torrent, s: Sys, i: nat, now: int)
    requires t.Valid() && Inv(t, s) && Enabled(t, s, Label.Visit(i, now))
    ensures Inv(t, Step(t, s, Label.Visit(i, now)))
  {
    hide BytesOk, RequestsOk, IoOk, BitfieldOk, DiskOk, PieceOk, CreditsOk, NoDup, Allocated, BuffersOk, PipelineOk, AfterVisit;
    var s' := Step(t, s, Label.Visit(i, now));
    var p := s.core.pieces[i];
    var q := AfterVisit(p, now);
    assert Pipeline(s') == Pipeline(s) && Gone(s') == Gone(s) && Held(s') == Held(s);
    AfterVisitOk(t, i, p, now);
    PiecesUpdated(t, s.core.pieces, i, q);
    RequestsUpdated(t, s.core.pieces, i, q, s.asked, s.io);
    BytesUpdated(t, s.core.downloaded, s.core.pieces, s.failures, i, q);
    CreditsAfterVisit(t, s.core.pieces, s.conns, s.io, i, now);
    PipelineStays(s.core.pieces, i, q, Pipeline(s));
    BuffersKept(s.core.pieces, i, q, Gone(s), Held(s));
    OwnersAfterVisit(s.core.pieces, s.conns, s.nextPeer, i, now);
  }

  lemma CreditsAfterClear(t: Torrent, pieces: seq<PieceBuffer>, conns: map<nat, Conn>, io: Io, i: nat)
    requires t.Valid() && PiecesOk(t, pieces) && CreditsOk(pieces, conns, io) && i < |pieces| && pieces[i].isComplete
    ensures CreditsOk(pieces[i := Cleared(pieces[i])], conns, io)
  {
    var q := Cleared(pieces[i]);
    forall peer | peer in conns
      ensures OwnedTotal(pieces[i := q], peer, |pieces|) == OwnedTotal(pieces, peer, |pieces|)
    {
      OwnedNone(pieces[i], peer, |pieces[i].status|);
      OwnedTotalChange(pieces, i, q, peer, |pieces|);
    }
  }

  lemma BuffersAfterClear(pieces: seq<PieceBuffer>, i: nat, q: PieceBuffer, gone: seq<nat>, held: seq<nat>)
    requires BuffersOk(pieces, gone, [i] + held) && NoDup(gone + ([i] + held)) && i < |pieces| && q.data == []
    ensures BuffersOk(pieces[i := q], gone + [i], held)
  {
    var pipe := gone + ([i] + held);
    assert pipe[|gone|] == i;
    forall x | x in held
      ensures x != i && x in [i] + held
    {
      var k :| 0 <= k < |held| && held[k] == x;
      assert pipe[|gone| + 1 + k] == x;
    }
  }

  lemma OwnersAfterClear(pieces: seq<PieceBuffer>, conns: map<nat, Conn>, n: nat, i: nat)
    requires OwnersOk(pieces, conns, n) && i < |pieces|
    ensures OwnersOk(pieces[i := Cleared(pieces[i])], conns, n)
  {
  }

  lemma PipelineMember(pieces: seq<PieceBuffer>, pipe: seq<nat>, i: nat)
    requires PipelineOk(pieces, pipe) && i in pipe
    ensures NoDup(pipe) && i < |pieces| && pieces[i].isComplete
  {
  }

  lemma ClearedOk(t: Torrent, i: nat, p: PieceBuffer)
    requires t.Valid() && i < |t.hashes| && PieceOk(t, i, p) && p.isComplete
    ensures PieceOk(t, i, Cleared(p))
  {
  }

  lemma ClearKeeps(t: Torrent, s: Sys)
    requires t.Valid() && Inv(t, s) && Enabled(t, s, Label.Clear)
    ensures Inv(t, Step(t, s, Label.Clear))
  {
    hide BytesOk, RequestsOk, IoOk, BitfieldOk, ConnsOk, CreditsOk, BuffersOk, NoDup, OwnersOk, PieceOk, PipelineOk;
    var s' := Step(t, s, Label.Clear);
    var i := s.writer.piece;
    var p := s.core.pieces[i];
    var q := Cleared(p);
    assert Pipeline(s') == Pipeline(s);
    assert Held(s) == [i] + Held(s') && Gone(s') == Gone(s) + [i];
    assert Pipeline(s)[|Gone(s)|] == i;
    PipelineMember(s.core.pieces, Pipeline(s), i);
    PipelineStays(s.core.pieces, i, q, Pipeline(s));
    ClearedOk(t, i, p);
    PiecesUpdated(t, s.core.pieces, i, q);
    RequestsUpdated(t, s.core.pieces, i, q, s.asked, s.io);
    BytesUpdated(t, s.core.downloaded, s.core.pieces, s.failures, i, q);
    CreditsAfterClear(t, s.core.pieces, s.conns, s.io, i);
    BuffersAfterClear(s.core.pieces, i, q, Gone(s), Held(s'));
    OwnersAfterClear(s.core.pieces, s.conns, s.nextPeer, i);
  }

  lemma CreditsAfterGrant(t: Torrent, pieces: seq<PieceBuffer>, conns: map<nat, Conn>, io: Io, b: BlockId, now: int)
    requires t.Valid() && PiecesOk(t, pieces) && CreditsOk(pieces, conns, io) && io.Picking?
    requires b.piece < |pieces| && !pieces[b.piece].isComplete
    requires var m := MaybeInit(t, b.piece, pieces[b.piece]);
             b.block < |m.status| == |m.inFlight| && m.status[b.block] == NotRequested
    ensures CreditsOk(pieces[b.piece := Granted(t, b.piece, pieces[b.piece], b.block, now, io.peer)], conns,
                      Sending(io.peer, b.piece, b.block))
  {
    hide PieceOk, MaybeInit;
    var q := Granted(t, b.piece, pieces[b.piece], b.block, now, io.peer);
    forall peer | peer in conns
      ensures Paired(pieces[b.piece := q])
      ensures OwnedTotal(pieces[b.piece := q], peer, |pieces|)
           == OwnedTotal(pieces, peer, |pieces|) + if peer == io.peer then 1 else 0
    {
      OwnedAfterGrant(t, b.piece, pieces[b.piece], b.block, now, io.peer, peer);
      OwnedTotalChange(pieces, b.piece, q, peer, |pieces|);
    }
    GrantedOk(t, b.piece, pieces[b.piece], b.block, now, io.peer);
  }

  lemma OwnersAfterGrant(t: Torrent, pieces: seq<PieceBuffer>, conns: map<nat, Conn>, n: nat, b: BlockId, now: int, peer: nat)
    requires t.Valid() && PiecesOk(t, pieces) && OwnersOk(pieces, conns, n) && peer < n
    requires b.piece < |pieces| && !pieces[b.piece].isComplete
    requires b.block < |MaybeInit(t, b.piece, pieces[b.piece]).status| == |MaybeInit(t, b.piece, pieces[b.piece]).inFlight|
    ensures OwnersOk(pieces[b.piece := Granted(t, b.piece, pieces[b.piece], b.block, now, peer)], conns, n)
  {
    MaybeInitOk(t, b.piece, pieces[b.piece]);
  }

  lemma BuffersUpdated(pieces: seq<PieceBuffer>, i: nat, p: PieceBuffer, gone: seq<nat>, held: seq<nat>)
    requires BuffersOk(pieces, gone, held) && i < |pieces| && i !in gone + held
    ensures BuffersOk(pieces[i := p], gone, held)
  {
  }

  /** A grant changes one incomplete piece. */
  lemma GrantTaken(t: Torrent, s: Sys, now: int)
    requires t.Valid() && Inv(t, s) && Enabled(t, s, Grant(now))
    requires !s.core.allComplete && FirstOpen(t, s.core.pieces, s.conns[s.io.peer].has, 0).Some?
    ensures Inv(t, Step(t, s, Grant(now)))
  {
    hide BytesOk, RequestsOk, CreditsOk, BuffersOk, BitfieldOk, NoDup, OwnersOk, DiskOk, FirstOpen, MaybeInit, Granted, PieceOk,
         PipelineOk, Allocated;
    var s' := Step(t, s, Grant(now));
    assert Pipeline(s') == Pipeline(s) && Gone(s') == Gone(s) && Held(s') == Held(s);
    var pieces := s.core.pieces;
    var has := s.conns[s.io.peer].has;
    var b := FirstOpen(t, pieces, has, 0).value;
    FirstOpenFound(t, pieces, has, 0);
    var p := pieces[b.piece];
    var q := Granted(t, b.piece, p, b.block, now, s.io.peer);
    GrantedOk(t, b.piece, p, b.block, now, s.io.peer);
    MaybeInitOk(t, b.piece, p);
    PiecesUpdated(t, pieces, b.piece, q);
    RequestsUpdated(t, pieces, b.piece, q, s.asked, s.io);
    BytesUpdated(t, s.core.downloaded, pieces, s.failures, b.piece, q);
    PipelineStays(pieces, b.piece, q, Pipeline(s));
    BuffersUpdated(pieces, b.piece, q, Gone(s), Held(s));
    BitfieldStays(s.core.bitfield, Pipeline(s), s.io, s'.io);
    CreditsAfterGrant(t, pieces, s.conns, s.io, b, now);
    PeerKnown(pieces, s.conns, s.nextPeer, s.io.peer);
    OwnersAfterGrant(t, pieces, s.conns, s.nextPeer, b, now, s.io.peer);
  }

  /** With nothing to grant only the fast flag may change. */
  lemma GrantNone(t: Torrent, s: Sys, now: int)
    requires t.Valid() && Inv(t, s) && Enabled(t, s, Grant(now))
    requires s.core.allComplete || FirstOpen(t, s.core.pieces, s.conns[s.io.peer].has, 0).None?
    ensures Inv(t, Step(t, s, Grant(now)))
  {
    hide BytesOk, RequestsOk, CreditsOk, BuffersOk, BitfieldOk, NoDup, OwnersOk, DiskOk, FirstOpen, PieceOk, PipelineOk;
    var s' := Step(t, s, Grant(now));
    assert Pipeline(s') == Pipeline(s) && Gone(s') == Gone(s) && Held(s') == Held(s);
    BitfieldStays(s.core.bitfield, Pipeline(s), s.io, s'.io);
    CreditsUnchanged(s.core.pieces, s.conns, s.io, s'.io);
  }

  lemma GrantKeeps(t: Torrent, s: Sys, now: int)
    requires t.Valid() && Inv(t, s) && Enabled(t, s, Grant(now))
    ensures Inv(t, Step(t, s, Grant(now)))
  {
    hide Inv, Step, FirstOpen;
    if !s.core.allComplete && FirstOpen(t, s.core.pieces, s.conns[s.io.peer].has, 0).Some? {
      GrantTaken(t, s, now);
    } else {
      GrantNone(t, s, now);
    }
  }

  lemma PeerKnown(pieces: seq<PieceBuffer>, conns: map<nat, Conn>, n: nat, peer: nat)
    requires OwnersOk(pieces, conns, n) && peer in conns
    ensures peer < n
  {
  }

  lemma CreditsUnchanged(pieces: seq<PieceBuffer>, conns: map<nat, Conn>, io: Io, io': Io)
    requires CreditsOk(pieces, conns, io)
    requires forall p :: p in conns ==> Pending(io, p) == Pending(io', p)
    ensures CreditsOk(pieces, conns, io')
  {
  }

  lemma CreditsAfterStore(t: Torrent, pieces: seq<PieceBuffer>, conns: map<nat, Conn>, io: Io, q: PieceBuffer, io': Io)
    requires t.Valid() && PiecesOk(t, pieces) && CreditsOk(pieces, conns, io) && io.Storing? && io.peer in conns
    requires Indexable(t, pieces, io.piece, io.block) && |io.bytes| == t.RequestLen(io.piece, io.block)
    requires StoreInRange(pieces[io.piece], io.block * BLOCK, io.bytes)
    requires q == StoreBlock(t, io.piece, pieces[io.piece], io.block * BLOCK, io.bytes).piece
    requires !io'.Storing? && !io'.Sending?
    ensures CreditsOk(pieces[io.piece := q], Settle(conns, io.peer, pieces[io.piece], io.block), io')
  {
    hide PieceOk, StoreBlock, Allocated, StoreInRange;
    var i, j := io.piece, io.block;
    var conns' := Settle(conns, io.peer, pieces[i], j);
    OwnedAfterStore(t, i, pieces[i], j, io.bytes, 0);
    forall peer | peer in conns'
      ensures Paired(pieces[i := q])
      ensures conns'[peer].inFlight == OwnedTotal(pieces[i := q], peer, |pieces|)
                                       + conns'[peer].stolen - conns'[peer].stale - Pending(io', peer)
    {
      OwnedAfterStore(t, i, pieces[i], j, io.bytes, peer);
      OwnedTotalChange(pieces, i, q, peer, |pieces|);
    }
  }

  lemma OwnersAfterStore(t: Torrent, pieces: seq<PieceBuffer>, conns: map<nat, Conn>, n: nat, io: Io)
    requires t.Valid() && PiecesOk(t, pieces) && OwnersOk(pieces, conns, n) && io.Storing? && io.peer in conns
    requires Indexable(t, pieces, io.piece, io.block) && |io.bytes| == t.RequestLen(io.piece, io.block)
    requires StoreInRange(pieces[io.piece], io.block * BLOCK, io.bytes)
    ensures OwnersOk(pieces[io.piece := StoreBlock(t, io.piece, pieces[io.piece], io.block * BLOCK, io.bytes).piece],
                     Settle(conns, io.peer, pieces[io.piece], io.block), n)
  {
  }

  lemma BytesAfterStore(t: Torrent, downloaded: nat, pieces: seq<PieceBuffer>, failures: seq<nat>, i: nat, o: StoreOutcome)
    requires t.Valid() && BytesOk(t, downloaded, pieces, failures) && i < |pieces| == |t.hashes|
    requires o.result != HashFailed ==> o.piece.bytesWritten == pieces[i].bytesWritten + o.added
    requires o.result == HashFailed ==> o.piece.bytesWritten == 0 && pieces[i].bytesWritten + o.added == t.PieceLen(i)
    ensures BytesOk(t, downloaded + o.added, pieces[i := o.piece],
                    if o.result == HashFailed then failures + [i] else failures)
  {
    hide WrittenTotal, Torrent.PieceLen;
    WrittenTotalChange(pieces, i, o.piece, |pieces|);
    assert (failures + [i])[..|failures|] == failures;
  }

  lemma PipelineGrows(pieces: seq<PieceBuffer>, i: nat, p: PieceBuffer, pipe: seq<nat>)
    requires PipelineOk(pieces, pipe) && i < |pieces| && !pieces[i].isComplete && p.isComplete
    ensures PipelineOk(pieces[i := p], pipe + [i]) && i !in pipe
  {
  }

  lemma PipelineStays(pieces: seq<PieceBuffer>, i: nat, p: PieceBuffer, pipe: seq<nat>)
    requires PipelineOk(pieces, pipe) && i < |pieces| && pieces[i].isComplete == p.isComplete
    ensures PipelineOk(pieces[i := p], pipe)
    ensures !p.isComplete ==> i !in pipe
  {
  }

  lemma BuffersGrow(pieces: seq<PieceBuffer>, i: nat, p: PieceBuffer, gone: seq<nat>, held: seq<nat>)
    requires BuffersOk(pieces, gone, held) && i < |pieces| && i !in gone + held && p.data != []
    ensures BuffersOk(pieces[i := p], gone, held + [i])
  {
  }

  lemma BitfieldAfterStore(bitfield: seq<byte>, pipe: seq<nat>, io: Io, io': Io)
    requires BitfieldOk(bitfield, pipe, io) && io.Storing?
    ensures !io'.Marking? ==> BitfieldOk(bitfield, pipe, io')
    ensures io'.Marking? && io'.piece !in pipe ==> BitfieldOk(bitfield, pipe + [io'.piece], io')
  {
  }

  lemma StoreKeeps(t: Torrent, s: Sys)
    requires t.Valid() && Inv(t, s) && Enabled(t, s, Label.Store)
    ensures Inv(t, Step(t, s, Label.Store))
  {
    hide BytesOk, RequestsOk, BitfieldOk, CreditsOk, BuffersOk, NoDup, OwnersOk, DiskOk, PieceOk, StoreInRange, StoreBlock,
         PipelineOk, Allocated;
    var s' := Step(t, s, Label.Store);
    var pieces, i, j := s.core.pieces, s.io.piece, s.io.block;
    var p := pieces[i];
    var o := StoreBlock(t, i, p, j * BLOCK, s.io.bytes);
    StoreBlockOk(t, i, p, j, s.io.bytes);
    PiecesUpdated(t, pieces, i, o.piece);
    RequestsUpdated(t, pieces, i, o.piece, s.asked, Ready);
    CreditsAfterStore(t, pieces, s.conns, s.io, o.piece, s'.io);
    OwnersAfterStore(t, pieces, s.conns, s.nextPeer, s.io);
    BytesAfterStore(t, s.core.downloaded, pieces, s.failures, i, o);
    BitfieldAfterStore(s.core.bitfield, Pipeline(s), s.io, s'.io);
    assert Gone(s') == Gone(s);
    if o.result == Completed {
      assert Held(s') == Held(s) + [i];
      assert Pipeline(s') == Pipeline(s) + [i];
      PipelineGrows(pieces, i, o.piece, Pipeline(s));
      BuffersGrow(pieces, i, o.piece, Gone(s), Held(s));
    } else {
      assert Held(s') == Held(s);
      assert Pipeline(s') == Pipeline(s);
      PipelineStays(pieces, i, o.piece, Pipeline(s));
      if o.result == Ignored {
        assert s'.core.pieces == pieces;
      } else {
        BuffersUpdated(pieces, i, o.piece, Gone(s), Held(s));
      }
    }
  }

  // ---------------------------------------------------------------- start-up

  lemma RestartInv(t: Torrent, records: seq<nat>, flat: seq<byte>, everWritten: set<nat>)
    requires t.Valid() && InRange(t, records) && NoDup(records) && |flat| == t.total
    requires forall i :: i in everWritten ==> i < |t.hashes| && t.sha1(Slice(t, flat, i)) == t.hashes[i]
    ensures Inv(t, Restart(t, records, flat, everWritten))
  {
    hide HasPiece, MarkPiece, Boot;
    BootRebuilds(t, records);
    var s := Restart(t, records, flat, everWritten);
    assert Gone(s) == records && Held(s) == [] && Pipeline(s) == records;
  }

  lemma CrashKeeps(t: Torrent, s: Sys)
    requires t.Valid() && Inv(t, s)
    ensures Inv(t, Restart(t, s.core.resume, s.flat, s.everWritten))
  {
    hide HasPiece, PieceOk;
    forall x, y | 0 <= x < y < |s.core.resume|
      ensures s.core.resume[x] != s.core.resume[y]
    {
      assert Pipeline(s)[x] == s.core.resume[x] && Pipeline(s)[y] == s.core.resume[y];
    }
    RestartInv(t, s.core.resume, s.flat, s.everWritten);
  }

  // ---------------------------------------------------------------- all steps

  lemma StepKeeps(t: Torrent, s: Sys, l: Label)
    requires t.Valid() && Inv(t, s) && Enabled(t, s, l)
    ensures Inv(t, Step(t, s, l))
  {
    hide Inv, Enabled;
    match l
    case Connect => ConnectKeeps(t, s);
    case Drop(_) => HandlerKeeps(t, s, l);
    case Choke(_) => HandlerKeeps(t, s, l);
    case Unchoke(_) => HandlerKeeps(t, s, l);
    case Test => HandlerKeeps(t, s, l);
    case Have(_, _) => NewsKeeps(t, s, l);
    case Announce(_, _) => NewsKeeps(t, s, l);
    case Answer(_, _, _, _) => AnswerKeeps(t, s, l);
    case Store => StoreKeeps(t, s);
    case Mark => MarkKeeps(t, s);
    case Notify => TailKeeps(t, s, l);
    case Enqueue => TailKeeps(t, s, l);
    case Append => TailKeeps(t, s, l);
    case Grant(now) => GrantKeeps(t, s, now);
    case Send => SendKeeps(t, s);
    case Pop => PopKeeps(t, s);
    case Write => WriteKeeps(t, s);
    case Clear => ClearKeeps(t, s);
    case Visit(i, now) => VisitKeeps(t, s, i, now);
    case Crash => CrashKeeps(t, s);
  }

  lemma InitInv(t: Torrent, s: Sys)
    requires t.Valid() && Init(t, s)
    ensures Inv(t, s)
  {
    RestartInv(t, [], s.flat, {});
  }
}
