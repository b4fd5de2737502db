/** What every step keeps true of a single piece, and the sums the run-level results count with. */
module PieceInvariant {
  import opened Bytes
  import opened Layout
  import opened PieceCore

  // ---------------------------------------------------------------- received bytes

  /** Sum of the lengths of the received blocks among the first `k`. */
  ghost function ReceivedUpTo(t: Torrent, i: nat, status: seq<BlockState>, k: nat): nat
    requires t.Valid() && i < |t.hashes| && k <= |status| == t.BlockCount(i)
  {
    if k == 0 then 0
    else ReceivedUpTo(t, i, status, k - 1) + if status[k - 1] == Received then t.RequestLen(i, k - 1) else 0
  }

  lemma {:induction false} ReceivedSame(t: Torrent, i: nat, s: seq<BlockState>, s': seq<BlockState>, k: nat)
    requires t.Valid() && i < |t.hashes| && k <= |s| == |s'| == t.BlockCount(i)
    requires forall j :: 0 <= j < k ==> (s[j] == Received <==> s'[j] == Received)
    ensures ReceivedUpTo(t, i, s, k) == ReceivedUpTo(t, i, s', k)
  {
    if k == 0 {
    } else {
      ReceivedSame(t, i, s, s', k - 1);
    }
  }

  lemma {:induction false} ReceivedOneMore(t: Torrent, i: nat, s: seq<BlockState>, j: nat, k: nat)
    requires t.Valid() && i < |t.hashes| && k <= |s| == t.BlockCount(i) && j < |s|
    requires s[j] != Received
    ensures ReceivedUpTo(t, i, s[j := Received], k)
         == ReceivedUpTo(t, i, s, k) + if j < k then t.RequestLen(i, j) else 0
  {
    if k == 0 {
    } else {
      ReceivedOneMore(t, i, s, j, k - 1);
    }
  }

  /** The received bytes reach the length of the blocks exactly when all of them are received. */
  lemma {:induction false} ReceivedBound(t: Torrent, i: nat, s: seq<BlockState>, k: nat)
    requires t.Valid() && i < |t.hashes| && k <= |s| == t.BlockCount(i)
    ensures ReceivedUpTo(t, i, s, k) <= BlocksUpTo(t, i, k)
    ensures ReceivedUpTo(t, i, s, k) == BlocksUpTo(t, i, k) <==> forall j :: 0 <= j < k ==> s[j] == Received
  {
    if k == 0 {
    } else {
      ReceivedBound(t, i, s, k - 1);
    }
  }

  lemma {:induction false} ReceivedNone(t: Torrent, i: nat, s: seq<BlockState>, k: nat)
    requires t.Valid() && i < |t.hashes| && k <= |s| == t.BlockCount(i)
    requires forall j :: 0 <= j < k ==> s[j] != Received
    ensures ReceivedUpTo(t, i, s, k) == 0
  {
    if k == 0 {
    } else {
      ReceivedNone(t, i, s, k - 1);
    }
  }

  lemma ReceivedWhole(t: Torrent, i: nat, s: seq<BlockState>)
    requires t.Valid() && i < |t.hashes| && |s| == t.BlockCount(i)
    ensures ReceivedUpTo(t, i, s, |s|) <= t.PieceLen(i)
    ensures ReceivedUpTo(t, i, s, |s|) == t.PieceLen(i) <==> AllReceived(s)
  {
    ReceivedBound(t, i, s, |s|);
    BlocksPrefix(t, i, |s|);
  }

  // ---------------------------------------------------------------- the invariant of a piece

  ghost predicate Allocated(t: Torrent, i: nat, p: PieceBuffer)
    requires t.Valid() && i < |t.hashes|
  {
    |p.data| == t.PieceLen(i) && |p.status| == t.BlockCount(i)
  }

  /**
   * A complete piece counts its full length and holds either verified data or nothing;
   * an incomplete piece is untouched, or allocated with its received bytes counted and a block still missing.
   */
  ghost predicate PieceOk(t: Torrent, i: nat, p: PieceBuffer)
    requires t.Valid() && i < |t.hashes|
  {
    && |p.inFlight| == |p.status|
    && (forall j :: 0 <= j < |p.status| && p.status[j] == Requested ==> p.inFlight[j].peer.Some?)
    && if p.isComplete then
         && p.bytesWritten == t.PieceLen(i)
         && AllReceived(p.status)
         && (p.data == [] ==> p.status == [])
         && (p.data != [] ==> |p.data| == t.PieceLen(i) && t.sha1(p.data) == t.hashes[i])
       else
         || p == EMPTY_PIECE
         || (&& Allocated(t, i, p)
             && p.bytesWritten == ReceivedUpTo(t, i, p.status, |p.status|)
             && !AllReceived(p.status))
  }

  ghost predicate PiecesOk(t: Torrent, pieces: seq<PieceBuffer>)
    requires t.Valid()
  {
    |pieces| == |t.hashes| && forall i :: 0 <= i < |pieces| ==> PieceOk(t, i, pieces[i])
  }

  /** A piece whose block was ever granted stays indexable: it is complete or allocated. */
  ghost predicate Indexable(t: Torrent, pieces: seq<PieceBuffer>, i: nat, j: nat)
    requires t.Valid()
  {
    i < |pieces| == |t.hashes| && j < t.BlockCount(i) && (pieces[i].isComplete || Allocated(t, i, pieces[i]))
  }

  lemma MaybeInitOk(t: Torrent, i: nat, p: PieceBuffer)
    requires t.Valid() && i < |t.hashes| && PieceOk(t, i, p) && !p.isComplete
    ensures var q := MaybeInit(t, i, p);
            && PieceOk(t, i, q) && Allocated(t, i, q) && !q.isComplete && q.bytesWritten == p.bytesWritten
            && (p.data == [] ==> forall j :: 0 <= j < |q.status| ==> q.status[j] == NotRequested)
            && (p.data != [] ==> q == p)
  {
    var q := MaybeInit(t, i, p);
    if p.data == [] {
      ReceivedNone(t, i, q.status, |q.status|);
      assert q.status[0] == NotRequested;
    }
  }

  lemma GrantedOk(t: Torrent, i: nat, p: PieceBuffer, j: nat, now: int, peer: nat)
    requires t.Valid() && i < |t.hashes| && PieceOk(t, i, p) && !p.isComplete
    requires j < |MaybeInit(t, i, p).status| == |MaybeInit(t, i, p).inFlight|
    requires MaybeInit(t, i, p).status[j] == NotRequested
    ensures var q := Granted(t, i, p, j, now, peer);
            PieceOk(t, i, q) && Allocated(t, i, q) && !q.isComplete && q.bytesWritten == p.bytesWritten
  {
    MaybeInitOk(t, i, p);
    var m := MaybeInit(t, i, p);
    var q := Granted(t, i, p, j, now, peer);
    ReceivedSame(t, i, m.status, q.status, |m.status|);
    assert q.status[j] == Requested;
  }

  lemma AfterVisitOk(t: Torrent, i: nat, p: PieceBuffer, now: int)
    requires t.Valid() && i < |t.hashes| && PieceOk(t, i, p)
    ensures var q := AfterVisit(p, now);
            && PieceOk(t, i, q) && q.isComplete == p.isComplete && q.bytesWritten == p.bytesWritten && q.data == p.data
            && (Allocated(t, i, p) ==> Allocated(t, i, q))
  {
    if !p.isComplete && p != EMPTY_PIECE {
      var q := AfterVisit(p, now);
      ReceivedSame(t, i, p.status, q.status, |p.status|);
      var j :| 0 <= j < |p.status| && p.status[j] != Received;
      assert q.status[j] != Received;
    }
  }

  lemma BlockOfBegin(j: nat)
    ensures j * BLOCK / BLOCK == j
  {
  }

  lemma FilledCount(t: Torrent, i: nat, p: PieceBuffer, j: nat, block: seq<byte>)
    requires t.Valid() && i < |t.hashes| && PieceOk(t, i, p) && !p.isComplete && Allocated(t, i, p)
    requires j < t.BlockCount(i) && |block| == t.RequestLen(i, j) && p.status[j] != Received
    ensures var q := Filled(p, j * BLOCK, block);
            && q.bytesWritten == ReceivedUpTo(t, i, q.status, |q.status|)
            && q.bytesWritten <= t.PieceLen(i)
            && (q.bytesWritten == t.PieceLen(i) <==> AllReceived(q.status))
  {
    ReceivedOneMore(t, i, p.status, j, |p.status|);
    ReceivedWhole(t, i, p.status[j := Received]);
  }

  /** Storing a block of the requested length keeps the invariant, and the counter moves by what is reported. */
  lemma StoreBlockOk(t: Torrent, i: nat, p: PieceBuffer, j: nat, block: seq<byte>)
    requires t.Valid() && i < |t.hashes| && PieceOk(t, i, p) && (p.isComplete || Allocated(t, i, p))
    requires j < t.BlockCount(i) && |block| == t.RequestLen(i, j)
    ensures StoreInRange(p, j * BLOCK, block)
    ensures var o := StoreBlock(t, i, p, j * BLOCK, block);
            && PieceOk(t, i, o.piece)
            && (o.result == Ignored <==> p.isComplete)
            && (o.result == Ignored ==> o.piece == p && o.added == 0)
            && (o.result == Stored ==> !o.piece.isComplete && Allocated(t, i, o.piece))
            && (o.result == Completed ==> o.piece.isComplete && o.piece.data != [])
            && (o.result == Stored || o.result == Completed ==> o.piece.bytesWritten == p.bytesWritten + o.added)
            && (o.result == HashFailed ==> !o.piece.isComplete && Allocated(t, i, o.piece))
            && (o.result == HashFailed ==> o.piece.bytesWritten == 0 && p.bytesWritten + o.added == t.PieceLen(i))
            && (o.result == HashFailed ==> forall k :: 0 <= k < |o.piece.status| ==> o.piece.status[k] == NotRequested)
  {
    if !p.isComplete {
      var isNew := p.status[j] != Received;
      var q := if isNew then Filled(p, j * BLOCK, block) else p;
      if isNew {
        FilledCount(t, i, p, j, block);
      }
      if AllReceived(q.status) && t.sha1(q.data) != t.hashes[i] {
        MaybeInitOk(t, i, EMPTY_PIECE);
      }
    }
  }

  // ---------------------------------------------------------------- owned blocks

  lemma {:induction false} OwnedNone(p: PieceBuffer, peer: nat, k: nat)
    requires k <= |p.status| == |p.inFlight|
    requires forall j :: 0 <= j < k ==> p.status[j] != Requested || p.inFlight[j].peer != Some(peer)
    ensures OwnedUpTo(p, peer, k) == 0
  {
    if k == 0 {
    } else {
      OwnedNone(p, peer, k - 1);
    }
  }

  predicate Owns(p: PieceBuffer, j: nat, peer: nat)
    requires j < |p.status| == |p.inFlight|
  {
    p.status[j] == Requested && p.inFlight[j].peer == Some(peer)
  }

  /** Changing block `j` alone changes the count by that block alone. */
  lemma {:induction false} OwnedChange(p: PieceBuffer, q: PieceBuffer, peer: nat, j: nat, k: nat)
    requires j < |p.status| == |p.inFlight| == |q.status| == |q.inFlight| && k <= |p.status|
    requires forall x :: 0 <= x < k && x != j ==> p.status[x] == q.status[x] && p.inFlight[x] == q.inFlight[x]
    ensures OwnedUpTo(q, peer, k) == OwnedUpTo(p, peer, k)
              + (if j < k && Owns(q, j, peer) then 1 else 0) - (if j < k && Owns(p, j, peer) then 1 else 0)
  {
    if k == 0 {
    } else {
      OwnedChange(p, q, peer, j, k - 1);
    }
  }

  /** A visit returns one credit for each owned block it gives up. */
  lemma {:induction false} OwnedVisit(p: PieceBuffer, peer: nat, now: int, k: nat)
    requires k <= |p.status| == |p.inFlight| && !p.isComplete
    ensures OwnedUpTo(AfterVisit(p, now), peer, k) == OwnedUpTo(p, peer, k) - ExpiredUpTo(p, peer, now, k)
  {
    if k == 0 {
    } else {
      OwnedVisit(p, peer, now, k - 1);
    }
  }

  function Owned(p: PieceBuffer, peer: nat): nat
    requires |p.status| == |p.inFlight|
  {
    OwnedUpTo(p, peer, |p.status|)
  }

  lemma OwnedAfterVisit(t: Torrent, i: nat, p: PieceBuffer, now: int, peer: nat)
    requires t.Valid() && i < |t.hashes| && PieceOk(t, i, p)
    ensures Owned(AfterVisit(p, now), peer) == Owned(p, peer) - Returned(p, peer, now)
  {
    if !p.isComplete {
      OwnedVisit(p, peer, now, |p.status|);
    }
  }

  lemma OwnedAfterGrant(t: Torrent, i: nat, p: PieceBuffer, j: nat, now: int, to: nat, peer: nat)
    requires t.Valid() && i < |t.hashes| && PieceOk(t, i, p) && !p.isComplete
    requires j < |MaybeInit(t, i, p).status| == |MaybeInit(t, i, p).inFlight|
    requires MaybeInit(t, i, p).status[j] == NotRequested
    ensures var q := Granted(t, i, p, j, now, to);
            |q.status| == |q.inFlight| && Owned(q, peer) == Owned(p, peer) + if peer == to then 1 else 0
  {
    var m := MaybeInit(t, i, p);
    MaybeInitOk(t, i, p);
    if p.data == [] {
      OwnedNone(m, peer, |m.status|);
    }
    OwnedChange(m, Granted(t, i, p, j, now, to), peer, j, |m.status|);
  }

  /** Storing a block releases that block alone; a completed or reset piece owns nothing. */
  lemma OwnedAfterStore(t: Torrent, i: nat, p: PieceBuffer, j: nat, block: seq<byte>, peer: nat)
    requires t.Valid() && i < |t.hashes| && PieceOk(t, i, p) && (p.isComplete || Allocated(t, i, p))
    requires j < t.BlockCount(i) && |block| == t.RequestLen(i, j)
    requires StoreInRange(p, j * BLOCK, block)
    ensures var q := StoreBlock(t, i, p, j * BLOCK, block).piece;
            && |q.status| == |q.inFlight|
            && Owned(q, peer) == Owned(p, peer) - if j < |p.status| && Owns(p, j, peer) then 1 else 0
  {
    StoreBlockOk(t, i, p, j, block);
    if !p.isComplete {
      var q := if p.status[j] != Received then Filled(p, j * BLOCK, block) else p;
      OwnedChange(p, q, peer, j, |p.status|);
      if AllReceived(q.status) {
        OwnedNone(q, peer, |q.status|);
        var o := StoreBlock(t, i, p, j * BLOCK, block).piece;
        OwnedNone(o, peer, |o.status|);
      }
    }
  }

  // ---------------------------------------------------------------- sums over all pieces

  ghost predicate Paired(pieces: seq<PieceBuffer>) {
    forall i :: 0 <= i < |pieces| ==> |pieces[i].status| == |pieces[i].inFlight|
  }

  ghost function OwnedTotal(pieces: seq<PieceBuffer>, peer: nat, n: nat): nat
    requires n <= |pieces| && Paired(pieces)
  {
    if n == 0 then 0 else OwnedTotal(pieces, peer, n - 1) + Owned(pieces[n - 1], peer)
  }

  lemma {:induction false} OwnedTotalChange(pieces: seq<PieceBuffer>, i: nat, p: PieceBuffer, peer: nat, n: nat)
    requires n <= |pieces| && i < |pieces| && Paired(pieces) && |p.status| == |p.inFlight|
    ensures Paired(pieces[i := p])
    ensures OwnedTotal(pieces[i := p], peer, n)
         == OwnedTotal(pieces, peer, n) + if i < n then Owned(p, peer) - Owned(pieces[i], peer) else 0
  {
    if n == 0 {
    } else {
      OwnedTotalChange(pieces, i, p, peer, n - 1);
    }
  }

  lemma {:induction false} OwnedTotalNone(pieces: seq<PieceBuffer>, peer: nat, n: nat)
    requires n <= |pieces| && Paired(pieces)
    requires forall i :: 0 <= i < n ==> Owned(pieces[i], peer) == 0
    ensures OwnedTotal(pieces, peer, n) == 0
  {
    if n == 0 {
    } else {
      OwnedTotalNone(pieces, peer, n - 1);
    }
  }

  ghost function WrittenTotal(pieces: seq<PieceBuffer>, n: nat): nat
    requires n <= |pieces|
  {
    if n == 0 then 0 else WrittenTotal(pieces, n - 1) + pieces[n - 1].bytesWritten
  }

  lemma {:induction false} WrittenTotalChange(pieces: seq<PieceBuffer>, i: nat, p: PieceBuffer, n: nat)
    requires n <= |pieces| && i < |pieces|
    ensures WrittenTotal(pieces[i := p], n)
         == WrittenTotal(pieces, n) + if i < n then p.bytesWritten - pieces[i].bytesWritten else 0
  {
    if n == 0 {
    } else {
      WrittenTotalChange(pieces, i, p, n - 1);
    }
  }

  /** Written bytes stay within the content, and fill it exactly when every piece is complete. */
  lemma {:induction false} WrittenTotalBound(t: Torrent, pieces: seq<PieceBuffer>, n: nat)
    requires t.Valid() && n <= |pieces| == |t.hashes|
    requires forall i :: 0 <= i < n ==> PieceOk(t, i, pieces[i])
    ensures WrittenTotal(pieces, n) <= PiecesUpTo(t, n)
    ensures WrittenTotal(pieces, n) == PiecesUpTo(t, n) <==> forall i :: 0 <= i < n ==> pieces[i].isComplete
  {
    if n == 0 {
    } else {
      WrittenTotalBound(t, pieces, n - 1);
      var p := pieces[n - 1];
      if !p.isComplete && p != EMPTY_PIECE {
        ReceivedWhole(t, n - 1, p.status);
      }
    }
  }

  /** Total length of the listed pieces. */
  ghost function LengthSum(t: Torrent, ids: seq<nat>): nat
    requires t.Valid() && InRange(t, ids)
  {
    if ids == [] then 0 else LengthSum(t, ids[..|ids| - 1]) + t.PieceLen(ids[|ids| - 1])
  }
}
