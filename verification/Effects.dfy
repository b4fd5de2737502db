/** What the steps that change a piece do to it, in every run, byte by byte and block by block. */
module Effects {
  import opened Bytes
  import opened Layout
  import opened PieceCore
  import opened PieceInvariant
  import opened Swarm
  import opened Runs

  /** `data` with `bytes` copied to place `at`. */
  ghost predicate Copied(data: seq<byte>, at: nat, bytes: seq<byte>, result: seq<byte>) {
    && |result| == |data| && at + |bytes| <= |data|
    && (forall x :: 0 <= x < at ==> result[x] == data[x])
    && (forall x :: 0 <= x < |bytes| ==> result[at + x] == bytes[x])
    && (forall x :: at + |bytes| <= x < |data| ==> result[x] == data[x])
  }

  /** An allocated piece of which nothing is requested. */
  ghost predicate Blank(t: Torrent, i: nat, p: PieceBuffer)
    requires t.Valid() && i < |t.hashes|
  {
    && !p.isComplete && p.bytesWritten == 0
    && |p.data| == t.PieceLen(i) && (forall x :: 0 <= x < |p.data| ==> p.data[x] == 0)
    && |p.status| == |p.inFlight| == (t.PieceLen(i) + 16383) / 16384
    && (forall j :: 0 <= j < |p.status| ==> p.status[j] == NotRequested)
  }

  /** Nothing but piece `i` differs. */
  ghost predicate OnlyPiece(before: seq<PieceBuffer>, after: seq<PieceBuffer>, i: nat) {
    |after| == |before| && i < |before| && forall k :: 0 <= k < |before| && k != i ==> after[k] == before[k]
  }

  // ---------------------------------------------------------------- storing a block

  /** Some block but the `j`-th has not come in. */
  ghost predicate OtherMissing(status: seq<BlockState>, j: nat) {
    exists k :: 0 <= k < |status| && k != j && status[k] != Received
  }

  lemma LastMissing(status: seq<BlockState>, j: nat)
    requires j < |status|
    ensures AllReceived(status[j := Received]) <==> !OtherMissing(status, j)
  {
    var q := status[j := Received];
    if !AllReceived(q) {
      var k :| 0 <= k < |q| && q[k] != Received;
      assert k != j && status[k] != Received;
    }
    if OtherMissing(status, j) {
      var k :| 0 <= k < |status| && k != j && status[k] != Received;
      assert q[k] != Received;
    }
  }

  /** What storing `bytes` as block `j` makes of piece `i`. */
  ghost predicate StoredRight(t: Torrent, i: nat, p: PieceBuffer, j: nat, bytes: seq<byte>, q: PieceBuffer)
    requires t.Valid() && i < |t.hashes|
  {
    if p.isComplete then q == p
    else
      && j < |p.status|
      && if p.status[j] == Received then q == p
         else
           exists filled ::
             && Copied(p.data, j * 16384, bytes, filled)
             && var stored := p.(data := filled, status := p.status[j := Received], bytesWritten := p.bytesWritten + |bytes|);
             if OtherMissing(p.status, j) then q == stored
             else if t.sha1(filled) == t.hashes[i] then q == stored.(isComplete := true)
             else Blank(t, i, q)
  }

  lemma ResetIsBlank(t: Torrent, i: nat, p: PieceBuffer)
    requires t.Valid() && i < |t.hashes| && !p.isComplete
    ensures Blank(t, i, MaybeInit(t, i, p.(data := [], status := [], inFlight := [], bytesWritten := 0)))
  {
  }

  lemma StoreRight(t: Torrent, i: nat, p: PieceBuffer, j: nat, block: seq<byte>)
    requires t.Valid() && i < |t.hashes| && PieceOk(t, i, p) && (p.isComplete || Allocated(t, i, p))
    requires j < t.BlockCount(i) && |block| == t.RequestLen(i, j)
    ensures StoreInRange(p, j * BLOCK, block)
    ensures var o := StoreBlock(t, i, p, j * BLOCK, block);
            && StoredRight(t, i, p, j, block, o.piece)
            && o.added == (if p.isComplete || p.status[j] == Received then 0 else |block|)
            && (o.result == Completed <==> !p.isComplete && o.piece.isComplete)
  {
    hide OtherMissing, AllReceived, MaybeInit, Blank;
    StoreBlockOk(t, i, p, j, block);
    BlockOfBegin(j);
    if !p.isComplete && p.status[j] != Received {
      var filled := Overlay(p.data, j * BLOCK, block);
      assert Copied(p.data, j * 16384, block, filled);
      LastMissing(p.status, j);
      ResetIsBlank(t, i, Filled(p, j * BLOCK, block));
    }
  }

  /**
   * Storing a block, in every run. A late block of a complete piece, and one that was received already, change
   * nothing. A new one is copied to its place; when it is the last one missing, the piece completes if and only if
   * the bytes then have the digest of this piece, and starts over otherwise.
   */
  lemma StoreEffect(t: Torrent, ss: seq<Sys>, ls: seq<Label>, k: nat)
    requires t.Valid() && k < |ls| < |ss| && IsRun(t, ss, ls) && ls[k] == Label.Store
    ensures ss[k].io.Storing? && ss[k].io.piece < |t.hashes|
    ensures OnlyPiece(ss[k].core.pieces, ss[k + 1].core.pieces, ss[k].io.piece)
    ensures var io := ss[k].io;
            var p, q := ss[k].core.pieces[io.piece], ss[k + 1].core.pieces[io.piece];
            && StoredRight(t, io.piece, p, io.block, io.bytes, q)
            && (ss[k + 1].io == Marking(io.peer, io.piece) <==> !p.isComplete && q.isComplete)
            && (ss[k + 1].io != Marking(io.peer, io.piece) ==> ss[k + 1].io == Scheduling(io.peer))
            && ss[k + 1].core.downloaded - ss[k].core.downloaded
               == if p.isComplete || (io.block < |p.status| && p.status[io.block] == Received) then 0 else |io.bytes|
  {
    hide IsRun, StoreBlock, StoredRight, PipelineOk, BuffersOk, BitfieldOk, BytesOk, RequestsOk, CreditsOk, OwnersOk, ConnsOk, DiskOk,
         PieceOk, StoreInRange, Settle;
    RunInv(t, ss, ls, k);
    RunStep(t, ss, ls, k);
    var io := ss[k].io;
    StoreRight(t, io.piece, ss[k].core.pieces[io.piece], io.block, io.bytes);
    BlockThere(t, io.piece, ss[k].core.pieces[io.piece], io.block);
  }

  lemma BlockThere(t: Torrent, i: nat, p: PieceBuffer, j: nat)
    requires t.Valid() && i < |t.hashes| && PieceOk(t, i, p) && (p.isComplete || Allocated(t, i, p)) && j < t.BlockCount(i)
    ensures !p.isComplete ==> j < |p.status|
  {
  }

  // ---------------------------------------------------------------- granting a block

  /** What granting block `j` to `peer` at time `now` makes of piece `i`. */
  ghost predicate GrantedRight(t: Torrent, i: nat, p: PieceBuffer, j: nat, now: int, peer: nat, q: PieceBuffer)
    requires t.Valid() && i < |t.hashes|
  {
    && !p.isComplete
    && exists m: PieceBuffer ::
         && (if p.data == [] then Blank(t, i, m) else m == p)
         && j < |m.status| == |m.inFlight| && m.status[j] == NotRequested
         && q == m.(status := m.status[j := Requested], inFlight := m.inFlight[j := InFlightBlock(now, Some(peer))])
  }

  lemma GrantRight(t: Torrent, i: nat, p: PieceBuffer, j: nat, now: int, peer: nat)
    requires t.Valid() && i < |t.hashes| && PieceOk(t, i, p) && !p.isComplete
    requires j < |MaybeInit(t, i, p).status| == |MaybeInit(t, i, p).inFlight|
    requires MaybeInit(t, i, p).status[j] == NotRequested
    ensures GrantedRight(t, i, p, j, now, peer, Granted(t, i, p, j, now, peer))
  {
    MaybeInitOk(t, i, p);
    var m := MaybeInit(t, i, p);
    assert p.data == [] ==> Blank(t, i, m);
  }

  /**
   * A grant, in every run: it changes the granted piece alone, which is allocated if it was not, or nothing but the
   * fast flag, which then says exactly whether every piece is complete.
   */
  lemma GrantEffect(t: Torrent, ss: seq<Sys>, ls: seq<Label>, k: nat)
    requires t.Valid() && k < |ls| < |ss| && IsRun(t, ss, ls) && ls[k].Grant?
    ensures ss[k].io.Picking?
    ensures ss[k + 1].io.Sending? ==>
              var i, j := ss[k + 1].io.piece, ss[k + 1].io.block;
              && i < |t.hashes| && OnlyPiece(ss[k].core.pieces, ss[k + 1].core.pieces, i)
              && GrantedRight(t, i, ss[k].core.pieces[i], j, ls[k].now, ss[k].io.peer, ss[k + 1].core.pieces[i])
              && ss[k + 1].core.allComplete == ss[k].core.allComplete
    ensures !ss[k + 1].io.Sending? ==>
              && ss[k + 1].io.Ready? && ss[k + 1].core.pieces == ss[k].core.pieces
              && (ss[k + 1].core.allComplete <==>
                    forall i :: 0 <= i < |ss[k].core.pieces| ==> ss[k].core.pieces[i].isComplete)
  {
    hide IsRun, GrantedRight, PipelineOk, BuffersOk, BitfieldOk, BytesOk, RequestsOk, CreditsOk, OwnersOk, ConnsOk, DiskOk, PieceOk,
         FirstOpen, Granted, MaybeInit;
    RunInv(t, ss, ls, k);
    RunStep(t, ss, ls, k);
    var s := ss[k];
    FirstOpenFound(t, s.core.pieces, s.conns[s.io.peer].has, 0);
    var scan := FirstOpen(t, s.core.pieces, s.conns[s.io.peer].has, 0);
    if !s.core.allComplete && scan.Some? {
      GrantRight(t, scan.value.piece, s.core.pieces[scan.value.piece], scan.value.block, ls[k].now, s.io.peer);
    }
  }

  // ---------------------------------------------------------------- the timeout thread

  /**
   * A visit, in every run: exactly the requested blocks of an incomplete piece that were sent more than three seconds
   * ago are free again, and nothing else of any piece changes.
   */
  lemma VisitEffect(t: Torrent, ss: seq<Sys>, ls: seq<Label>, k: nat)
    requires t.Valid() && k < |ls| < |ss| && IsRun(t, ss, ls) && ls[k].Visit?
    ensures OnlyPiece(ss[k].core.pieces, ss[k + 1].core.pieces, ls[k].piece)
    ensures var p, q := ss[k].core.pieces[ls[k].piece], ss[k + 1].core.pieces[ls[k].piece];
            && q == p.(status := q.status, inFlight := q.inFlight)
            && |q.status| == |q.inFlight| == |p.status| == |p.inFlight|
            && forall j :: 0 <= j < |p.status| ==>
                 if !p.isComplete && p.status[j] == Requested && ls[k].now - p.inFlight[j].sentTime > 3_000_000_000
                 then q.status[j] == NotRequested && q.inFlight[j] == InFlightBlock(0, None)
                 else q.status[j] == p.status[j] && q.inFlight[j] == p.inFlight[j]
  {
    hide IsRun, Returned;
    RunStep(t, ss, ls, k);
  }
}
