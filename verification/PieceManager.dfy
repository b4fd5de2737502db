/** The piece manager as the program has it: one object, its vectors updated in place, one method per lock region. */
module PieceManagers {
  import opened Bytes
  import opened Distinct
  import opened Layout
  import opened Bits
  import opened FileMapping
  import opened StorageFiles
  import opened PieceCore
  import opened PieceInvariant
  import opened Startup
  import opened CoreInvariant
  import opened Wire

  /** The atomic `in_flight_blocks_` of a connection, shared between the io thread and the timeout thread. */
  class InFlightCounter {
    var value: int

    constructor ()
      ensures value == 0
    {
      value := 0;
    }

    method Add(n: int)
      modifies this
      ensures value == old(value) + n
    {
      value := value + n;
    }
  }

  /** What a connection has handed to its socket. */
  class Outbox {
    var sent: seq<seq<byte>>

    constructor ()
      ensures sent == []
    {
      sent := [];
    }

    method Send(frame: seq<byte>)
      modifies this
      ensures sent == old(sent) + [frame]
    {
      sent := sent + [frame];
    }

    method SignalHave(piece: nat)
      modifies this
      ensures sent == old(sent) + [Frame(HaveBody(piece))]
    {
      var msg := Be32(5) + [ID_HAVE] + Be32(piece);
      assert msg == Frame(HaveBody(piece));
      Send(msg);
    }
  }

  /** The connections whose weak pointers still lock, each with its own counter. */
  type Owners = map<nat, InFlightCounter>

  ghost predicate Separate(owners: Owners) {
    forall p, q :: p in owners && q in owners && p != q ==> owners[p] != owners[q]
  }

  /** The credits connection `peer` gets back from visiting the first `n` pieces. */
  ghost function ReturnedTotal(pieces: seq<PieceBuffer>, peer: nat, now: int, n: nat): nat
    requires n <= |pieces| && Paired(pieces)
  {
    if n == 0 then 0 else ReturnedTotal(pieces, peer, now, n - 1) + Returned(pieces[n - 1], peer, now)
  }

  /** `after` is `before` with its first `n` pieces visited. */
  ghost predicate Swept(before: seq<PieceBuffer>, after: seq<PieceBuffer>, now: int, n: nat) {
    && Paired(before) && |after| == |before|
    && (forall i :: 0 <= i < |before| ==> after[i] == if i < n then AfterVisit(before[i], now) else before[i])
  }

  lemma SweptNone(pieces: seq<PieceBuffer>, now: int)
    requires Paired(pieces)
    ensures Swept(pieces, pieces, now, 0)
  {
  }

  lemma SweptNext(before: seq<PieceBuffer>, after: seq<PieceBuffer>, now: int, n: nat)
    requires Swept(before, after, now, n) && n < |before|
    ensures |after| == |before| && after[n] == before[n] && |before[n].status| == |before[n].inFlight|
    ensures Swept(before, after[n := AfterVisit(before[n], now)], now, n + 1)
  {
  }

  class PieceManager {
    const t: Torrent
    const storage: Storage
    const pieces: array<PieceBuffer>
    var allComplete: bool
    var downloaded: nat
    var completed: nat
    var bitfield: seq<byte>
    var queue: seq<nat>
    var resume: seq<nat>
    var peers: seq<Outbox>      // of the registered connections that are still there

    ghost predicate Valid()
      reads this, pieces, storage
    {
      && t.Valid()
      && pieces.Length == |t.hashes|
      && CoreOk(t, View())
      && storage.Valid()
      && TotalLength(storage.files) == t.total
      && forall x, y :: 0 <= x < y < |peers| ==> peers[x] != peers[y]
    }

    ghost function Peers(): set<Outbox>
      reads this
    {
      set o | o in peers
    }

    /** The abstract value the steps of module `PieceCore` work on. */
    ghost function View(): (c: Core)
      reads this, pieces
    {
      Core(pieces[..], allComplete, downloaded, completed, bitfield, queue, resume)
    }

    constructor (t: Torrent, storage: Storage, records: seq<nat>)
      requires t.Valid() && storage.Valid() && TotalLength(storage.files) == t.total
      requires InRange(t, records)
      ensures fresh(pieces) && this.t == t && this.storage == storage
      ensures View() == Boot(t, records) && peers == []
      ensures NoDup(records) ==> Valid()
    {
      this.t := t;
      this.storage := storage;
      this.pieces := new PieceBuffer[|t.hashes|](_ => EMPTY_PIECE);
      this.allComplete := false;
      this.downloaded := 0;
      this.completed := 0;
      this.bitfield := Zeros((|t.hashes| + 7) / 8);
      this.queue := [];
      this.resume := records;
      this.peers := [];
      new;
      hide *;
      assert View() == Fresh(t, records) by {
        assert pieces[..] == Fresh(t, records).pieces;
      }
      LoadResumeData();
      if NoDup(records) {
        BootOk(t, records);
      }
    }

    method LoadResumeData()
      requires t.Valid() && InRange(t, resume) && View() == Fresh(t, resume)
      modifies `allComplete, `downloaded, `completed, `bitfield, pieces
      ensures View() == Boot(t, old(resume))
    {
      hide NoDup, PieceOk, MarkPiece, HasPiece, PiecesOk, AllComplete;
      ghost var records := resume;
      var pieceCount := 0;
      while pieceCount < |resume|
        invariant pieceCount <= |records| && resume == records
        invariant View() == LoadUpTo(t, records, pieceCount)
      {
        var i := resume[pieceCount];
        var length := t.PieceLen(i);
        ghost var before := View();
        pieces[i] := pieces[i].(bytesWritten := length, isComplete := true);
        bitfield := MarkPiece(bitfield, i);
        downloaded := downloaded + length;
        assert View() == LoadRecord(t, before, i);
        pieceCount := pieceCount + 1;
      }
      LoadedPieces(t, records, |records|);
      completed := pieceCount;
      if pieceCount == |t.hashes| {
        allComplete := true;
      }
    }

    /** `maybe_init`. */
    method MaybeInit(i: nat)
      requires t.Valid() && pieces.Length == |t.hashes| && i < pieces.Length
      modifies pieces
      ensures pieces[..] == old(pieces[..])[i := PieceCore.MaybeInit(t, i, old(pieces[i]))]
    {
      if pieces[i].data == [] {
        var length := t.PieceLen(i);
        var numBlocks := (length + (BLOCK - 1)) / BLOCK;
        var p := pieces[i].(isComplete := false, data := Zeros(length));
        p := p.(status := Resize(p.status, numBlocks, NotRequested));
        p := p.(inFlight := Resize(p.inFlight, numBlocks, NOT_IN_FLIGHT));
        pieces[i] := p.(bytesWritten := 0);
      }
    }

    /** The critical section of `add_block`. */
    method StoreBlock(i: nat, begin: nat, block: seq<byte>) returns (pieceCompleted: bool)
      requires Valid() && Answers(t, View(), i, begin, block)
      modifies `downloaded, pieces
      ensures Valid()
      ensures Sized(t, old(View()))
      ensures View() == PieceCore.Store(t, old(View()), i, begin, block).0
      ensures pieceCompleted <==> PieceCore.Store(t, old(View()), i, begin, block).1 == Completed
    {
      CoreOkPieces(t, View());
      StoreSound(t, View(), i, begin, block);
      hide CoreOk, Contiguous, PiecesOk, Judged, Kept, NewBytes, Indexable;
      pieceCompleted := false;
      ghost var before := pieces[..];
      if pieces[i].isComplete {
        assert pieces[..] == before[i := pieces[i]];
        return;
      }
      FillBlock(i, begin, block);
      JudgedAdds(t, i, pieces[i], downloaded - old(downloaded));
      pieceCompleted := JudgePiece(i);
      assert pieces[..] == before[i := pieces[i]];
    }

    /** Its beginning: takes a block that is new. */
    method FillBlock(i: nat, begin: nat, block: seq<byte>)
      requires i < pieces.Length && !pieces[i].isComplete && StoreInRange(pieces[i], begin, block)
      modifies `downloaded, pieces
      ensures pieces[..] == old(pieces[..])[i := Kept(old(pieces[i]), begin, block)]
      ensures downloaded == old(downloaded) + NewBytes(old(pieces[i]), begin, block)
    {
      ghost var before := pieces[..];
      var blockIndex := begin / BLOCK;
      if pieces[i].status[blockIndex] != Received {
        var p := pieces[i].(data := Overlay(pieces[i].data, begin, block));
        p := p.(status := p.status[blockIndex := Received]);
        pieces[i] := p.(bytesWritten := p.bytesWritten + |block|);
        downloaded := downloaded + |block|;
      }
      assert pieces[..] == before[i := pieces[i]];
    }

    /** The end of the critical section: completes or resets a piece whose blocks are all received. */
    method JudgePiece(i: nat) returns (pieceCompleted: bool)
      requires t.Valid() && pieces.Length == |t.hashes| && i < pieces.Length
      modifies pieces
      ensures pieces[..] == old(pieces[..])[i := Judged(t, i, old(pieces[i]), 0).piece]
      ensures pieceCompleted <==> Judged(t, i, old(pieces[i]), 0).result == Completed
    {
      hide PieceCore.MaybeInit;
      pieceCompleted := false;
      ghost var before := pieces[..];
      if AllReceived(pieces[i].status) {
        if t.HashMatches(i, pieces[i].data) {
          pieces[i] := pieces[i].(isComplete := true);
          pieceCompleted := true;
        } else {
          pieces[i] := pieces[i].(data := [], status := [], inFlight := [], bytesWritten := 0);
          MaybeInit(i);
        }
      }
      assert pieces[..] == before[i := pieces[i]];
    }

    method UpdateMyBitfield(i: nat)
      requires i / 8 < |bitfield|
      modifies `bitfield
      ensures View() == PieceCore.Mark(old(View()), i)
    {
      bitfield := MarkPiece(bitfield, i);
    }

    /** Under the writer's lock: counts the piece and hands it to the writer. */
    method EnqueueCompleted(i: nat)
      modifies `completed, `queue
      ensures View() == PieceCore.Enqueue(old(View()), i)
    {
      completed := completed + 1;
      queue := queue + [i];
    }

    method SaveResumeData(i: nat)
      modifies `resume
      ensures View() == AppendRecord(old(View()), i)
    {
      resume := resume + [i];
    }

    /** A connection registers once, after its handshake. */
    method AddToPeerList(o: Outbox)
      requires Valid() && o !in peers
      modifies `peers
      ensures Valid() && peers == old(peers) + [o] && View() == old(View())
    {
      peers := peers + [o];
    }

    /** Tells every registered connection's peer of piece `i`. */
    method NotifyAllPeers(i: nat)
      requires forall x, y :: 0 <= x < y < |peers| ==> peers[x] != peers[y]
      modifies Peers()
      ensures forall o :: o in peers ==> o.sent == old(o.sent) + [Frame(HaveBody(i))]
    {
      hide Frame, HaveBody;
      for n := 0 to |peers|
        invariant forall x :: 0 <= x < n ==> peers[x].sent == old(peers[x].sent) + [Frame(HaveBody(i))]
        invariant forall x :: n <= x < |peers| ==> peers[x].sent == old(peers[x].sent)
      {
        peers[n].SignalHave(i);
      }
    }

    /** `add_block`, start to end. */
    method AddBlock(i: nat, begin: nat, block: seq<byte>)
      requires Valid() && Answers(t, View(), i, begin, block)
      modifies `downloaded, `completed, `bitfield, `queue, `resume, pieces, Peers()
      ensures Valid()
      ensures Sized(t, old(View())) && View() == AddBlockWhole(t, old(View()), i, begin, block)
      ensures forall o :: o in peers ==>
                o.sent == old(o.sent) + if Completes(t, old(View()), i, begin, block) then [Frame(HaveBody(i))] else []
    {
      CoreOkPieces(t, View());
      hide CoreOk, Contiguous, Frame, HaveBody;
      StoreSound(t, View(), i, begin, block);
      FinishSound(t, View(), i, begin, block);
      var pieceCompleted := StoreBlock(i, begin, block);
      if pieceCompleted {
        UpdateMyBitfield(i);
        NotifyAllPeers(i);
        EnqueueCompleted(i);
        SaveResumeData(i);
      }
    }

    /** The inner loop of `next_block_request`: allocates piece `i` if need be and grants its first free block. */
    method GrantFreeBlock(i: nat, sentTime: int, peer: nat) returns (r: Option<nat>)
      requires t.Valid() && i < pieces.Length == |t.hashes| && PieceOk(t, i, pieces[i]) && !pieces[i].isComplete
      modifies pieces
      ensures var q := PieceCore.MaybeInit(t, i, old(pieces[i]));
              && |q.status| == |q.inFlight|
              && r == FirstFree(q.status, 0)
              && pieces[..] == old(pieces[..])[i := if r.Some? then Granted(t, i, old(pieces[i]), r.value, sentTime, peer) else q]
    {
      hide PieceCore.MaybeInit;
      MaybeInitOk(t, i, pieces[i]);
      ghost var q := PieceCore.MaybeInit(t, i, pieces[i]);
      ghost var before := pieces[..];
      MaybeInit(i);
      for j := 0 to |pieces[i].status|
        invariant pieces[..] == before[i := q]
        invariant FirstFree(q.status, 0) == FirstFree(q.status, j)
      {
        assert pieces[i] == pieces[..][i] == q;
        if pieces[i].status[j] == NotRequested {
          var p := pieces[i].(status := pieces[i].status[j := Requested]);
          pieces[i] := p.(inFlight := p.inFlight[j := InFlightBlock(sentTime, Some(peer))]);
          assert pieces[..] == before[i := pieces[i]];
          return Some(j);
        }
      }
      r := None;
    }

    /** `next_block_request`: scans for the first block to ask a peer with the pieces `has` for, and grants it. */
    method NextBlockRequest(has: seq<bool>, sentTime: int, peer: nat) returns (r: Option<BlockId>)
      requires Valid() && |has| == pieces.Length
      modifies `allComplete, pieces
      ensures Valid()
      ensures Sized(t, old(View()))
      ensures View() == NextBlock(t, old(View()), has, sentTime, peer).0
      ensures r == NextBlock(t, old(View()), has, sentTime, peer).1
    {
      CoreOkPieces(t, View());
      hide CoreOk, PiecesOk, PieceOk, Contiguous, PieceCore.MaybeInit, Granted, AllComplete, Sized, NextBlock, FirstFree, Scanned;
      NextBlockSound(t, View(), has, sentTime, peer);
      NextBlockCases(t, View(), has, sentTime, peer);
      if allComplete {
        return None;
      }
      var pieceCount := 0;
      ghost var before := pieces[..];
      ScanStarts(t, View(), has);
      for i := 0 to pieces.Length
        invariant pieces[..] == before
        invariant Scanned(t, before, has, i, pieceCount, allComplete)
      {
        ScanStep(t, View(), has, i, pieceCount, sentTime, peer);
        assert pieces[i] == before[i];
        pieceCount := pieceCount + if pieces[i].isComplete then 1 else 0;
        if pieceCount == |t.hashes| {
          allComplete := true;
        }
        if !pieces[i].isComplete && has[i] {
          var j := GrantFreeBlock(i, sentTime, peer);
          if j.Some? {
            return Some(BlockId(i, j.value));
          }
          assert pieces[..] == before;
        }
      }
      ScanEnds(t, View(), has, pieceCount, sentTime, peer);
      r := None;
    }

    /** The timeout thread's look at one piece; connections that are gone get nothing back. */
    method VisitPiece(i: nat, now: int, owners: Owners)
      requires Valid() && i < pieces.Length && Separate(owners)
      modifies pieces, owners.Values
      ensures Valid()
      ensures Sized(t, old(View())) && View() == PieceCore.Visit(old(View()), i, now)
      ensures forall q :: q in owners ==> owners[q].value == old(owners[q].value) - Returned(old(pieces[i]), q, now)
    {
      CoreOkPieces(t, View());
      hide CoreOk, Contiguous, PieceOk, Returned;
      ghost var before := pieces[..];
      ghost var p0 := pieces[i];
      VisitSound(t, View(), i, now);
      if pieces[i].isComplete {
        ReturnedByComplete(p0, now);
        assert pieces[..] == before[i := p0];
        return;
      }
      VisitUpToEnds(p0, now);
      assert pieces[..] == before[i := VisitUpTo(p0, now, 0)];
      for j := 0 to |pieces[i].status|
        invariant pieces[..] == before[i := VisitUpTo(p0, now, j)]
        invariant forall q :: q in owners ==> owners[q].value == old(owners[q].value) - ExpiredUpTo(p0, q, now, j)
      {
        assert pieces[i] == pieces[..][i] == VisitUpTo(p0, now, j);
        VisitUpToNext(p0, now, j);
        if pieces[i].status[j] == Requested && now - pieces[i].inFlight[j].sentTime > REQUEST_TIMEOUT {
          var p := pieces[i].(status := pieces[i].status[j := NotRequested]);
          var peer := p.inFlight[j].peer;
          if peer.Some? && peer.value in owners {
            owners[peer.value].Add(-1);
          }
          pieces[i] := p.(inFlight := p.inFlight[j := NOT_IN_FLIGHT]);
        }
        assert pieces[..] == before[i := pieces[i]];
      }
    }

    /** One sweep of the timeout thread, run without interruption. */
    method TimeoutSweep(now: int, owners: Owners)
      requires Valid() && Separate(owners)
      modifies pieces, owners.Values
      ensures Valid() && Paired(old(pieces[..]))
      ensures Swept(old(pieces[..]), pieces[..], now, pieces.Length)
      ensures forall q :: q in owners ==>
                owners[q].value == old(owners[q].value) - ReturnedTotal(old(pieces[..]), q, now, pieces.Length)
    {
      CoreOkPieces(t, View());
      SweptNone(pieces[..], now);
      hide CoreOk, Contiguous, AfterVisit, Returned, PiecesOk, Sized, Swept;
      ghost var before := pieces[..];
      for i := 0 to pieces.Length
        invariant Valid()
        invariant Swept(before, pieces[..], now, i)
        invariant forall q :: q in owners ==>
                    owners[q].value == old(owners[q].value) - ReturnedTotal(before, q, now, i)
      {
        SweptNext(before, pieces[..], now, i);
        VisitPiece(i, now, owners);
      }
    }

    // ---------------------------------------------------------------- the writer thread

    method PopCompleted() returns (front: nat)
      requires queue != []
      modifies `queue
      ensures front == old(queue)[0] && View() == PopFront(old(View()))
    {
      front := queue[0];
      queue := queue[1..];
    }

    /** Reads the buffer without the lock and spreads it over the files. */
    method WriteFront(front: nat)
      requires Valid() && front < pieces.Length
      modifies storage`disk
      ensures Valid()
      ensures storage.Content() == Overlay(old(storage.Content()), t.Start(front), pieces[front].data)
      ensures SameOutside(storage.files, old(storage.disk), storage.disk)
    {
      storage.WritePiece(front * t.pieceLength, pieces[front].data);
    }

    method ClearPiece(front: nat)
      requires front < pieces.Length
      modifies pieces
      ensures View() == Clear(old(View()), front)
    {
      var p := pieces[front].(isComplete := true);
      pieces[front] := p.(data := [], status := [], inFlight := []);
    }

    /** `fetch_block`: part of a piece as the files hold it. */
    method FetchBlock(i: nat, begin: nat, length: nat) returns (out: seq<byte>)
      requires Valid()
      ensures out == Window(storage.Content(), t.Start(i) + begin, length)
    {
      out := storage.FetchBlock(i * t.pieceLength + begin, length);
    }

    /** The inner loop of the writer thread, run without interruption: everything queued reaches the files. */
    method DrainQueue()
      requires Valid()
      modifies `queue, pieces, storage`disk
      ensures Valid() && queue == []
      ensures |old(storage.Content())| == t.total
      ensures Drained(t, old(pieces[..]), old(storage.Content()), old(queue), pieces[..], storage.Content())
      ensures SameOutside(storage.files, old(storage.disk), storage.disk)
    {
      hide CoreOk, Contiguous, Drained, SameOutside;
      ghost var q0, p0, c0, d0 := queue, pieces[..], storage.Content(), storage.disk;
      SameOutsideReflexive(storage.files, d0);
      ghost var n := 0;
      DrainStarts(t, p0, c0);
      assert queue == q0[0..];
      while queue != []
        invariant Valid() && n <= |q0| && queue == q0[n..]
        invariant Drained(t, p0, c0, q0[..n], pieces[..], storage.Content())
        invariant SameOutside(storage.files, d0, storage.disk)
        decreases |queue|
      {
        DrainSound(t, View());
        DrainedNext(t, p0, c0, q0[..n], View(), storage.Content());
        assert q0[..n + 1] == q0[..n] + [queue[0]];
        var front := PopCompleted();
        ghost var d1 := storage.disk;
        WriteFront(front);
        SameOutsideTransitive(storage.files, d0, d1, storage.disk);
        ClearPiece(front);
        n := n + 1;
      }
      assert q0[..n] == q0;
    }
  }

  /** A piece with its first `j` blocks visited. */
  ghost function VisitUpTo(p: PieceBuffer, now: int, j: nat): PieceBuffer
    requires |p.status| == |p.inFlight|
  {
    p.(status := seq(|p.status|, k requires 0 <= k < |p.status| =>
                   if k < j && Expired(p, k, now) then NotRequested else p.status[k]),
       inFlight := seq(|p.status|, k requires 0 <= k < |p.status| =>
                     if k < j && Expired(p, k, now) then NOT_IN_FLIGHT else p.inFlight[k]))
  }

  lemma VisitUpToEnds(p: PieceBuffer, now: int)
    requires |p.status| == |p.inFlight|
    ensures VisitUpTo(p, now, 0) == p
    ensures !p.isComplete ==> VisitUpTo(p, now, |p.status|) == AfterVisit(p, now)
  {
    assert VisitUpTo(p, now, 0).status == p.status;
    assert VisitUpTo(p, now, 0).inFlight == p.inFlight;
    assert !p.isComplete ==> VisitUpTo(p, now, |p.status|).status == AfterVisit(p, now).status;
    assert !p.isComplete ==> VisitUpTo(p, now, |p.status|).inFlight == AfterVisit(p, now).inFlight;
  }

  lemma VisitUpToNext(p: PieceBuffer, now: int, j: nat)
    requires j < |p.status| == |p.inFlight|
    ensures var q, r := VisitUpTo(p, now, j), VisitUpTo(p, now, j + 1);
            && |q.status| == |q.inFlight| == |p.status|
            && q.status[j] == p.status[j] && q.inFlight[j] == p.inFlight[j]
            && r == if Expired(p, j, now)
                    then q.(status := q.status[j := NotRequested], inFlight := q.inFlight[j := NOT_IN_FLIGHT])
                    else q
  {
    var q, r := VisitUpTo(p, now, j), VisitUpTo(p, now, j + 1);
    if Expired(p, j, now) {
      assert r.status == q.status[j := NotRequested];
      assert r.inFlight == q.inFlight[j := NOT_IN_FLIGHT];
    } else {
      assert r.status == q.status;
      assert r.inFlight == q.inFlight;
    }
  }

  lemma ReturnedByComplete(p: PieceBuffer, now: int)
    requires |p.status| == |p.inFlight| && p.isComplete
    ensures forall q :: Returned(p, q, now) == 0
    ensures AfterVisit(p, now) == p
  {
  }
}
