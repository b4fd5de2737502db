/** Who holds which block, and for how long. */
module Grants {
  import opened Bytes
  import opened Layout
  import opened Bits
  import opened PieceCore
  import opened PieceInvariant
  import opened Swarm
  import opened Runs

  /** Block `j` of piece `i` is not up for grabs. */
  ghost predicate Taken(s: Sys, i: nat, j: nat) {
    && i < |s.core.pieces|
    && (s.core.pieces[i].isComplete
        || (j < |s.core.pieces[i].status| && s.core.pieces[i].status[j] != NotRequested))
  }

  /** This step grants block `j` of piece `i`. */
  ghost predicate Grants(t: Torrent, s: Sys, l: Label, i: nat, j: nat)
    requires t.Valid()
  {
    l.Grant? && Enabled(t, s, l) && Step(t, s, l).io.Sending? && Step(t, s, l).io.piece == i && Step(t, s, l).io.block == j
  }

  /** This step is a timeout of the block, a hash failure of its piece, or a crash. */
  ghost predicate Releases(t: Torrent, s: Sys, l: Label, i: nat, j: nat)
    requires t.Valid()
  {
    && Enabled(t, s, l)
    && match l
       case Visit(k, now) =>
         && k == i && !s.core.pieces[i].isComplete
         && j < |s.core.pieces[i].status| && Expired(s.core.pieces[i], j, now)
       case Store =>
         s.io.piece == i
         && StoreBlock(t, i, s.core.pieces[i], s.io.block * BLOCK, s.io.bytes).result == HashFailed
       case Crash => true
       case _ => false
  }

  lemma GrantedBlock(t: Torrent, s: Sys, l: Label, i: nat, j: nat)
    requires t.Valid() && Inv(t, s) && Grants(t, s, l, i, j)
    ensures i < |s.core.pieces| && !s.core.pieces[i].isComplete && !Taken(s, i, j)
    ensures Taken(Step(t, s, l), i, j)
    ensures var p := Step(t, s, l).core.pieces[i];
            && j < |p.status| == |p.inFlight| && p.status[j] == Requested
            && p.inFlight[j] == InFlightBlock(l.now, Some(s.io.peer))
  {
    hide PipelineOk, BuffersOk, BitfieldOk, BytesOk, RequestsOk, IoOk, CreditsOk, OwnersOk, ConnsOk, DiskOk, FirstOpen;
    FirstOpenFound(t, s.core.pieces, s.conns[s.io.peer].has, 0);
    MaybeInitOk(t, i, s.core.pieces[i]);
  }

  lemma StoreTaken(t: Torrent, i: nat, p: PieceBuffer, j: nat, block: seq<byte>, k: nat)
    requires t.Valid() && i < |t.hashes| && StoreInRange(p, j * BLOCK, block)
    requires p.isComplete || (k < |p.status| && p.status[k] != NotRequested)
    ensures var o := StoreBlock(t, i, p, j * BLOCK, block);
            o.result != HashFailed ==> o.piece.isComplete || (k < |o.piece.status| && o.piece.status[k] != NotRequested)
  {
  }

  lemma InvPiece(t: Torrent, s: Sys, i: nat)
    requires t.Valid() && Inv(t, s) && i < |s.core.pieces|
    ensures |s.core.pieces| == |t.hashes| && PieceOk(t, i, s.core.pieces[i])
  {
  }

  /** Granting another block of an allocated piece leaves this one alone. */
  lemma GrantElsewhere(t: Torrent, i: nat, p: PieceBuffer, j: nat)
    requires t.Valid() && i < |t.hashes| && PieceOk(t, i, p) && !p.isComplete && j < |p.status|
    ensures MaybeInit(t, i, p) == p && |p.status| == |p.inFlight|
    ensures forall k, now, peer :: 0 <= k < |p.status| && k != j && p.status[k] == NotRequested ==>
              Granted(t, i, p, k, now, peer) == p.(status := p.status[k := Requested], inFlight := p.inFlight[k := InFlightBlock(now, Some(peer))])
  {
    MaybeInitOk(t, i, p);
  }

  lemma TakenStep(t: Torrent, s: Sys, l: Label, i: nat, j: nat)
    requires t.Valid() && Inv(t, s) && Enabled(t, s, l) && Taken(s, i, j) && !Releases(t, s, l, i, j)
    ensures Taken(Step(t, s, l), i, j)
  {
    hide Inv, PieceOk, FirstOpen, StoreBlock, StoreInRange, MarkPiece;
    InvPiece(t, s, i);
    if l == Label.Store {
      if s.io.piece == i {
        StoreTaken(t, i, s.core.pieces[i], s.io.block, s.io.bytes, j);
      }
    } else if l.Grant? {
      FirstOpenFound(t, s.core.pieces, s.conns[s.io.peer].has, 0);
      if !s.core.pieces[i].isComplete {
        GrantElsewhere(t, i, s.core.pieces[i], j);
      }
    }
  }

  /** A block that is taken stays taken until a step releases it. */
  lemma {:induction false} TakenRun(t: Torrent, ss: seq<Sys>, ls: seq<Label>, a: nat, b: nat, i: nat, j: nat)
    requires t.Valid() && IsRun(t, ss, ls) && a <= b <= |ls| && Taken(ss[a], i, j)
    requires forall c :: a <= c < b ==> !Releases(t, ss[c], ls[c], i, j)
    ensures Taken(ss[b], i, j)
    decreases b
  {
    hide IsRun, Inv, Enabled, Step, Taken, Releases;
    if a == b {
    } else {
      TakenRun(t, ss, ls, a, b - 1, i, j);
      RunStep(t, ss, ls, b - 1);
      RunInv(t, ss, ls, b - 1);
      TakenStep(t, ss[b - 1], ls[b - 1], i, j);
    }
  }

  /**
   * Grant exclusivity: between two grants of the same block lies a timeout of that block, a hash failure of its
   * piece, or a restart.
   */
  lemma GrantExclusivity(t: Torrent, ss: seq<Sys>, ls: seq<Label>, a: nat, b: nat, i: nat, j: nat)
    requires t.Valid() && IsRun(t, ss, ls) && a < b < |ls|
    requires Grants(t, ss[a], ls[a], i, j) && Grants(t, ss[b], ls[b], i, j)
    ensures exists c :: a < c < b && Releases(t, ss[c], ls[c], i, j)
  {
    hide Inv, Enabled, Step, Taken, Releases, Grants;
    if forall c :: a < c < b ==> !Releases(t, ss[c], ls[c], i, j) {
      RunInv(t, ss, ls, a);
      RunInv(t, ss, ls, b);
      GrantedBlock(t, ss[a], ls[a], i, j);
      RunStep(t, ss, ls, a);
      TakenRun(t, ss, ls, a + 1, b, i, j);
      GrantedBlock(t, ss[b], ls[b], i, j);
    }
  }

  /** No block of a complete piece is ever granted. */
  lemma CompleteNotGranted(t: Torrent, ss: seq<Sys>, ls: seq<Label>, a: nat, b: nat, i: nat, j: nat)
    requires t.Valid() && IsRun(t, ss, ls) && a <= b < |ls| && NoCrash(ls, a, b)
    requires i < |ss[a].core.pieces| && ss[a].core.pieces[i].isComplete
    ensures !Grants(t, ss[b], ls[b], i, j)
  {
    hide Inv, Enabled, Step, Grants;
    RunInv(t, ss, ls, b);
    CompleteStays(t, ss, ls, a, b, i);
    if Grants(t, ss[b], ls[b], i, j) {
      GrantedBlock(t, ss[b], ls[b], i, j);
    }
  }

  /** Completion is monotone between restarts. */
  lemma CompleteStays(t: Torrent, ss: seq<Sys>, ls: seq<Label>, a: nat, b: nat, i: nat)
    requires t.Valid() && IsRun(t, ss, ls) && a <= b <= |ls| && NoCrash(ls, a, b)
    requires i < |ss[a].core.pieces| && ss[a].core.pieces[i].isComplete
    ensures i < |ss[b].core.pieces| && ss[b].core.pieces[i].isComplete
  {
    hide Enabled, Step;
    RunInv(t, ss, ls, a);
    RunInv(t, ss, ls, b);
    PipelineRun(t, ss, ls, a, b);
    assert i in Pipeline(ss[a]);
    assert i in Pipeline(ss[b]);
  }

  /** The fast flag tells the truth. */
  lemma FastFlagSound(t: Torrent, ss: seq<Sys>, ls: seq<Label>, k: nat)
    requires t.Valid() && IsRun(t, ss, ls) && k <= |ls|
    ensures ss[k].core.allComplete ==> AllComplete(ss[k].core.pieces)
  {
    RunInv(t, ss, ls, k);
  }

  // ---------------------------------------------------------------- a grant until it is answered or times out

  /** Block `j` of piece `i` is requested from `peer` since time `sent`. */
  ghost predicate Awaits(s: Sys, i: nat, j: nat, sent: int, peer: nat) {
    && i < |s.core.pieces|
    && !s.core.pieces[i].isComplete
    && j < |s.core.pieces[i].status| == |s.core.pieces[i].inFlight|
    && s.core.pieces[i].status[j] == Requested
    && s.core.pieces[i].inFlight[j] == InFlightBlock(sent, Some(peer))
  }

  /** Some answer for the block is stored by this step. */
  predicate Stores(s: Sys, l: Label, i: nat, j: nat) {
    l == Label.Store && s.io.Storing? && s.io.piece == i && s.io.block == j
  }

  /** Between steps `a` and `b` the block is neither answered nor released. */
  ghost predicate Untouched(t: Torrent, ss: seq<Sys>, ls: seq<Label>, a: nat, b: nat, i: nat, j: nat)
    requires t.Valid() && a < b <= |ls| < |ss|
  {
    forall c :: a < c < b ==> !Releases(t, ss[c], ls[c], i, j) && !Stores(ss[c], ls[c], i, j)
  }

  lemma StoreElsewhere(t: Torrent, i: nat, p: PieceBuffer, j: nat, block: seq<byte>, k: nat)
    requires t.Valid() && i < |t.hashes| && StoreInRange(p, j * BLOCK, block) && !p.isComplete
    requires k != j && k < |p.status| && p.status[k] == Requested
    ensures var o := StoreBlock(t, i, p, j * BLOCK, block);
            && !o.piece.isComplete && |o.piece.status| == |p.status| && o.piece.inFlight == p.inFlight
            && o.piece.status[k] == Requested
  {
    BlockOfBegin(j);
    var q := if p.status[j] != Received then Filled(p, j * BLOCK, block) else p;
    assert q.status[k] == Requested;
  }

  lemma AwaitsStep(t: Torrent, s: Sys, l: Label, i: nat, j: nat, sent: int, peer: nat)
    requires t.Valid() && Inv(t, s) && Enabled(t, s, l) && Awaits(s, i, j, sent, peer)
    requires !Releases(t, s, l, i, j) && !Stores(s, l, i, j)
    ensures Awaits(Step(t, s, l), i, j, sent, peer)
  {
    hide Inv, PieceOk, FirstOpen, StoreBlock, StoreInRange, MarkPiece, Granted;
    InvPiece(t, s, i);
    if l == Label.Store {
      if s.io.piece == i {
        StoreElsewhere(t, i, s.core.pieces[i], s.io.block, s.io.bytes, j);
      }
    } else if l.Grant? {
      FirstOpenFound(t, s.core.pieces, s.conns[s.io.peer].has, 0);
      GrantElsewhere(t, i, s.core.pieces[i], j);
    } else if l == Label.Clear {
      assert s.writer.piece in Held(s);
      HeldWhole(t, s, s.writer.piece);
    }
  }

  /** A granted block stays with its connection, with its send time, until it is answered or released. */
  lemma {:induction false} AwaitsRun(t: Torrent, ss: seq<Sys>, ls: seq<Label>, a: nat, b: nat, i: nat, j: nat)
    requires t.Valid() && a < b <= |ls| < |ss| && IsRun(t, ss, ls) && Grants(t, ss[a], ls[a], i, j)
    requires Untouched(t, ss, ls, a, b, i, j)
    ensures ls[a].Grant? && ss[a].io.Picking?
    ensures Awaits(ss[b], i, j, ls[a].now, ss[a].io.peer)
    decreases b
  {
    hide IsRun, Inv, Enabled, Step, Awaits, Releases, Stores, Grants;
    RunStep(t, ss, ls, b - 1);
    RunInv(t, ss, ls, b - 1);
    if a + 1 == b {
      GrantedAwaits(t, ss[a], ls[a], i, j);
    } else {
      AwaitsRun(t, ss, ls, a, b - 1, i, j);
      AwaitsStep(t, ss[b - 1], ls[b - 1], i, j, ls[a].now, ss[a].io.peer);
    }
  }

  lemma GrantedAwaits(t: Torrent, s: Sys, l: Label, i: nat, j: nat)
    requires t.Valid() && Inv(t, s) && Grants(t, s, l, i, j)
    ensures l.Grant? && s.io.Picking?
    ensures Awaits(Step(t, s, l), i, j, l.now, s.io.peer)
  {
    hide PipelineOk, BuffersOk, BitfieldOk, BytesOk, RequestsOk, IoOk, CreditsOk, OwnersOk, ConnsOk, DiskOk, FirstOpen;
    GrantedBlock(t, s, l, i, j);
    FirstOpenFound(t, s.core.pieces, s.conns[s.io.peer].has, 0);
    GrantedOk(t, i, s.core.pieces[i], j, l.now, s.io.peer);
  }

  /**
   * The first visit more than three seconds after the grant of an unanswered block makes it grantable again and
   * hands its connection the credit back; an earlier visit leaves it alone.
   */
  lemma TimeoutFrees(t: Torrent, ss: seq<Sys>, ls: seq<Label>, a: nat, b: nat, i: nat, j: nat)
    requires t.Valid() && a < b < |ls| < |ss| && IsRun(t, ss, ls) && Grants(t, ss[a], ls[a], i, j)
    requires Untouched(t, ss, ls, a, b, i, j)
    requires ls[b].Visit? && ls[b].piece == i
    ensures Taken(ss[b + 1], i, j) <==> ls[b].now - ls[a].now <= 3_000_000_000
    ensures !Taken(ss[b + 1], i, j) ==> Releases(t, ss[b], ls[b], i, j)
    ensures ls[a].Grant? && ss[a].io.Picking?
    ensures var p := ss[a].io.peer;
            !Taken(ss[b + 1], i, j) && p in ss[b].conns ==>
              p in ss[b + 1].conns && ss[b + 1].conns[p].inFlight < ss[b].conns[p].inFlight
  {
    hide Inv, Grants;
    AwaitsRun(t, ss, ls, a, b, i, j);
    RunStep(t, ss, ls, b);
    var p := ss[b].core.pieces[i];
    if Expired(p, j, ls[b].now) {
      SomeReturned(p, ss[a].io.peer, ls[b].now, j, |p.status|);
    }
  }

  lemma {:induction false} SomeReturned(p: PieceBuffer, peer: nat, now: int, j: nat, k: nat)
    requires j < k <= |p.status| == |p.inFlight| && Expired(p, j, now) && p.inFlight[j].peer == Some(peer)
    ensures ExpiredUpTo(p, peer, now, k) > 0
  {
    if j == k - 1 {
    } else {
      SomeReturned(p, peer, now, j, k - 1);
    }
  }

  /**
   * Step `k` stores an answer for a block that step `a` granted to the same connection, and nothing answered or
   * released it in between.
   */
  ghost predicate GrantBehind(t: Torrent, ss: seq<Sys>, ls: seq<Label>, a: nat, k: nat)
    requires t.Valid() && a < k < |ls| < |ss|
  {
    && ls[k] == Label.Store && ss[a].io.Picking? && ss[k].io.Storing? && ss[a].io.peer == ss[k].io.peer
    && Grants(t, ss[a], ls[a], ss[k].io.piece, ss[k].io.block)
    && Untouched(t, ss, ls, a, k, ss[k].io.piece, ss[k].io.block)
  }

  /** Such an answer is never stale: storing it touches no connection's books. */
  lemma FreshAnswer(t: Torrent, ss: seq<Sys>, ls: seq<Label>, a: nat, k: nat)
    requires t.Valid() && a < k < |ls| < |ss| && IsRun(t, ss, ls) && GrantBehind(t, ss, ls, a, k)
    ensures ss[k + 1].conns == ss[k].conns
  {
    hide Inv, Enabled, Step, Grants, Untouched, Awaits;
    AwaitsRun(t, ss, ls, a, k, ss[k].io.piece, ss[k].io.block);
    RunStep(t, ss, ls, k);
    AwaitedStore(t, ss[k], ls[a].now);
  }

  lemma AwaitedStore(t: Torrent, s: Sys, sent: int)
    requires t.Valid() && Enabled(t, s, Label.Store) && Awaits(s, s.io.piece, s.io.block, sent, s.io.peer)
    ensures Step(t, s, Label.Store).conns == s.conns
  {
  }

  /** Step `k`, if it stores an answer, stores one that is the first to its request and was not released before. */
  ghost predicate Punctual(t: Torrent, ss: seq<Sys>, ls: seq<Label>, k: nat)
    requires t.Valid() && k < |ls| < |ss|
  {
    ls[k] == Label.Store ==> exists a :: 0 <= a < k && GrantBehind(t, ss, ls, a, k)
  }

  ghost predicate CleanBooks(conns: map<nat, Conn>) {
    forall p :: p in conns ==> conns[p].stolen == 0 && conns[p].stale == 0
  }

  lemma BooksKept(t: Torrent, s: Sys, l: Label)
    requires t.Valid() && Enabled(t, s, l) && l != Label.Store && CleanBooks(s.conns)
    ensures CleanBooks(Step(t, s, l).conns)
  {
    hide NextBlock, MarkPiece, Boot, AfterVisit, Returned;
  }

  lemma {:induction false} PunctualBooks(t: Torrent, ss: seq<Sys>, ls: seq<Label>, k: nat)
    requires t.Valid() && IsRun(t, ss, ls) && k <= |ls| < |ss|
    requires forall c :: 0 <= c < k ==> Punctual(t, ss, ls, c)
    ensures CleanBooks(ss[k].conns)
  {
    hide Inv, Enabled, Step, GrantBehind, CleanBooks;
    if k == 0 {
      FirstBooks(t, ss, ls);
    } else {
      PunctualBooks(t, ss, ls, k - 1);
      RunStep(t, ss, ls, k - 1);
      assert Punctual(t, ss, ls, k - 1);
      if ls[k - 1] == Label.Store {
        var a :| 0 <= a < k - 1 && GrantBehind(t, ss, ls, a, k - 1);
        FreshAnswer(t, ss, ls, a, k - 1);
      } else {
        BooksKept(t, ss[k - 1], ls[k - 1]);
      }
    }
  }

  lemma FirstBooks(t: Torrent, ss: seq<Sys>, ls: seq<Label>)
    requires t.Valid() && IsRun(t, ss, ls)
    ensures CleanBooks(ss[0].conns)
  {
    hide Enabled, Step;
  }

  /**
   * When every request is answered at most once, and not after its timeout or the reset of its piece, the counter of
   * a connection is exactly the number of blocks requested from it.
   */
  lemma PunctualCredit(t: Torrent, ss: seq<Sys>, ls: seq<Label>, k: nat)
    requires t.Valid() && IsRun(t, ss, ls) && k <= |ls| < |ss|
    requires forall c :: 0 <= c < k ==> Punctual(t, ss, ls, c)
    ensures Paired(ss[k].core.pieces)
    ensures forall p :: p in ss[k].conns ==>
              ss[k].conns[p].inFlight == OwnedTotal(ss[k].core.pieces, p, |ss[k].core.pieces|) - Pending(ss[k].io, p)
  {
    hide Enabled, Step, Punctual, IsRun;
    PunctualBooks(t, ss, ls, k);
    RunInv(t, ss, ls, k);
    InvCredits(t, ss[k]);
  }

  lemma InvCredits(t: Torrent, s: Sys)
    requires t.Valid() && Inv(t, s)
    ensures CreditsOk(s.core.pieces, s.conns, s.io)
  {
  }
}
