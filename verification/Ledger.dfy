/** Byte and credit accounting over whole runs. */
module Ledger {
  import opened Bytes
  import opened Layout
  import opened PieceCore
  import opened PieceInvariant
  import opened Swarm
  import opened Runs

  // ---------------------------------------------------------------- bytes

  /** What `bytes_written` counts: a complete piece in full, otherwise the received blocks. */
  lemma PieceBytes(t: Torrent, ss: seq<Sys>, ls: seq<Label>, k: nat, i: nat)
    requires t.Valid() && IsRun(t, ss, ls) && k <= |ls| && i < |t.hashes|
    ensures i < |ss[k].core.pieces|
    ensures var p := ss[k].core.pieces[i];
            && (p.isComplete ==> p.bytesWritten == t.PieceLen(i))
            && (!p.isComplete && p.status != [] ==>
                  |p.status| == t.BlockCount(i) && p.bytesWritten == ReceivedUpTo(t, i, p.status, |p.status|))
            && (!p.isComplete ==> p.bytesWritten < t.PieceLen(i))
  {
    RunInv(t, ss, ls, k);
    var p := ss[k].core.pieces[i];
    assert PieceOk(t, i, p);
    if !p.isComplete && p != EMPTY_PIECE {
      ReceivedWhole(t, i, p.status);
    }
  }

  /** Bytes of the content still missing. */
  ghost function Missing(t: Torrent, s: Sys): int {
    t.total - WrittenTotal(s.core.pieces, |s.core.pieces|)
  }

  /**
   * Byte conservation: the download counter is the bytes held plus every byte thrown away by a hash failure.
   * So the tracker's tests on it mean what they say exactly as long as the bytes thrown away do not hide a gap.
   */
  lemma Conservation(t: Torrent, ss: seq<Sys>, ls: seq<Label>, k: nat)
    requires t.Valid() && IsRun(t, ss, ls) && k <= |ls|
    ensures k <= |ls| < |ss| && InRange(t, FailedChecks(t, ss, ls, k))
    ensures var s := ss[k];
            var lost := LengthSum(t, FailedChecks(t, ss, ls, k));
            && s.core.downloaded == WrittenTotal(s.core.pieces, |s.core.pieces|) + lost
            && 0 <= Missing(t, s)
            && (Missing(t, s) == 0 <==> AllComplete(s.core.pieces))
            && (s.core.downloaded >= t.total <==> Missing(t, s) <= lost)
            && (s.core.downloaded <= t.total <==> lost <= Missing(t, s))
  {
    FailuresCounted(t, ss, ls, k);
    RunInv(t, ss, ls, k);
    WrittenTotalBound(t, ss[k].core.pieces, |t.hashes|);
    TilingSums(t);
  }

  /** Without a hash failure, `left` never wraps and the `completed` event fires exactly when everything is there. */
  lemma TrackerExact(t: Torrent, ss: seq<Sys>, ls: seq<Label>, k: nat)
    requires t.Valid() && IsRun(t, ss, ls) && k <= |ls| < |ss| && FailedChecks(t, ss, ls, k) == []
    ensures t.total - ss[k].core.downloaded >= 0
    ensures ss[k].core.downloaded >= t.total <==> AllComplete(ss[k].core.pieces)
  {
    Conservation(t, ss, ls, k);
  }

  /**
   * This step stores the last missing block of a piece whose bytes, with that block in place, do not have the
   * piece's digest.
   */
  ghost predicate FailsCheck(t: Torrent, s: Sys, l: Label)
    requires t.Valid()
  {
    && l == Label.Store && s.io.Storing? && s.io.piece < |s.core.pieces| == |t.hashes|
    && var p := s.core.pieces[s.io.piece];
    && !p.isComplete && s.io.block < |p.status| && p.status[s.io.block] != Received
    && (forall j :: 0 <= j < |p.status| && j != s.io.block ==> p.status[j] == Received)
    && t.sha1(Overlay(p.data, s.io.block * BLOCK, s.io.bytes)) != t.hashes[s.io.piece]
  }

  /** The pieces that failed their check in the first `k` steps, since the last start, in order. */
  ghost function FailedChecks(t: Torrent, ss: seq<Sys>, ls: seq<Label>, k: nat): seq<nat>
    requires t.Valid() && k <= |ls| < |ss|
  {
    if k == 0 || ls[k - 1] == Crash then []
    else FailedChecks(t, ss, ls, k - 1) + if FailsCheck(t, ss[k - 1], ls[k - 1]) then [ss[k - 1].io.piece] else []
  }

  lemma FailsCheckIsHashFailed(t: Torrent, s: Sys)
    requires t.Valid() && Inv(t, s) && Enabled(t, s, Label.Store)
    ensures FailsCheck(t, s, Label.Store)
       <==> StoreBlock(t, s.io.piece, s.core.pieces[s.io.piece], s.io.block * BLOCK, s.io.bytes).result == HashFailed
  {
    hide PipelineOk, BuffersOk, BitfieldOk, BytesOk, RequestsOk, CreditsOk, OwnersOk, ConnsOk, DiskOk;
    var p, j := s.core.pieces[s.io.piece], s.io.block;
    BlockOfBegin(j);
    if !p.isComplete {
      assert forall x :: 0 <= x < |p.status| ==> Kept(p, j * BLOCK, s.io.bytes).status[x] == if x == j then Received else p.status[x];
    }
  }

  lemma FailureStep(t: Torrent, s: Sys, l: Label)
    requires t.Valid() && Inv(t, s) && Enabled(t, s, l)
    ensures Step(t, s, l).failures
         == if l == Crash then [] else s.failures + if FailsCheck(t, s, l) then [s.io.piece] else []
  {
    hide Inv, FailsCheck, StoreBlock, NextBlock, StoreInRange;
    if l == Label.Store {
      FailsCheckIsHashFailed(t, s);
    } else {
      OnlyStoresFail(t, s, l);
    }
  }

  lemma OnlyStoresFail(t: Torrent, s: Sys, l: Label)
    requires t.Valid() && l != Label.Store
    ensures !FailsCheck(t, s, l)
  {
  }

  /**
   * The failures the byte statements count are, in every state of every run, exactly the pieces whose last missing
   * block was stored and whose bytes did not have their digest, since the last start.
   */
  lemma {:induction false} FailuresCounted(t: Torrent, ss: seq<Sys>, ls: seq<Label>, k: nat)
    requires t.Valid() && k <= |ls| < |ss| && IsRun(t, ss, ls)
    ensures ss[k].failures == FailedChecks(t, ss, ls, k)
  {
    hide Inv, Enabled, Step, FailsCheck;
    if k == 0 {
    } else {
      FailuresCounted(t, ss, ls, k - 1);
      RunInv(t, ss, ls, k - 1);
      RunStep(t, ss, ls, k - 1);
      FailureStep(t, ss[k - 1], ls[k - 1]);
    }
  }

  // ---------------------------------------------------------------- credits

  /** The limit is never exceeded, by any interleaving. */
  lemma CreditLimit(t: Torrent, ss: seq<Sys>, ls: seq<Label>, k: nat, p: nat)
    requires t.Valid() && IsRun(t, ss, ls) && k <= |ls| && p in ss[k].conns
    ensures ss[k].conns[p].inFlight <= 20
  {
    RunInv(t, ss, ls, k);
  }

  /** This step stores an answer of connection `p` for a block that is not requested from it. */
  ghost predicate StaleAnswer(s: Sys, l: Label, p: nat) {
    l == Label.Store && s.io.Storing? && s.io.peer == p && !RequestedFrom(s, p)
  }

  /** This step stores another connection's answer for a block that is requested from `p`. */
  ghost predicate StolenBlock(s: Sys, l: Label, p: nat) {
    l == Label.Store && s.io.Storing? && s.io.peer != p && RequestedFrom(s, p)
  }

  /** The block in the io thread's hands is requested from connection `p`. */
  ghost predicate RequestedFrom(s: Sys, p: nat)
    requires s.io.Storing?
  {
    && s.io.piece < |s.core.pieces|
    && var b := s.core.pieces[s.io.piece];
    && s.io.block < |b.status| == |b.inFlight| && Owns(b, s.io.block, p)
  }

  /** How often that happened to connection `p` in the first `k` steps, since the last start. */
  ghost function StaleAnswers(ss: seq<Sys>, ls: seq<Label>, k: nat, p: nat): nat
    requires k <= |ls| < |ss|
  {
    if k == 0 || ls[k - 1] == Crash then 0
    else StaleAnswers(ss, ls, k - 1, p) + if StaleAnswer(ss[k - 1], ls[k - 1], p) then 1 else 0
  }

  ghost function StolenBlocks(ss: seq<Sys>, ls: seq<Label>, k: nat, p: nat): nat
    requires k <= |ls| < |ss|
  {
    if k == 0 || ls[k - 1] == Crash then 0
    else StolenBlocks(ss, ls, k - 1, p) + if StolenBlock(ss[k - 1], ls[k - 1], p) then 1 else 0
  }

  /** A number no connection has had yet takes part in nothing. */
  lemma UnknownPeer(t: Torrent, s: Sys, l: Label, p: nat)
    requires t.Valid() && Inv(t, s) && Enabled(t, s, l) && p >= s.nextPeer
    ensures p !in s.conns && !StaleAnswer(s, l, p) && !StolenBlock(s, l, p)
  {
    hide PiecesOk, PipelineOk, BuffersOk, BitfieldOk, BytesOk, RequestsOk, CreditsOk, ConnsOk, DiskOk;
  }

  lemma StoreBooks(t: Torrent, s: Sys, p: nat)
    requires t.Valid() && Enabled(t, s, Label.Store) && p in s.conns
    ensures var s' := Step(t, s, Label.Store);
            && p in s'.conns && s'.nextPeer == s.nextPeer
            && s'.conns[p].stale == s.conns[p].stale + (if StaleAnswer(s, Label.Store, p) then 1 else 0)
            && s'.conns[p].stolen == s.conns[p].stolen + (if StolenBlock(s, Label.Store, p) then 1 else 0)
  {
    hide StoreBlock, StoreInRange;
  }

  lemma StoreConns(t: Torrent, s: Sys)
    requires t.Valid() && Enabled(t, s, Label.Store)
    ensures Step(t, s, Label.Store).conns.Keys == s.conns.Keys && Step(t, s, Label.Store).nextPeer == s.nextPeer
  {
    hide StoreBlock, StoreInRange;
  }

  lemma OtherBooks(t: Torrent, s: Sys, l: Label, p: nat)
    requires t.Valid() && Enabled(t, s, l) && l != Label.Store && l != Crash
    ensures var s' := Step(t, s, l);
            && s'.nextPeer >= s.nextPeer
            && (p in s'.conns && p !in s.conns ==> p == s.nextPeer && s'.conns[p].stale == 0 && s'.conns[p].stolen == 0)
            && (p in s'.conns && p in s.conns && p != s.nextPeer ==>
                  s'.conns[p].stale == s.conns[p].stale && s'.conns[p].stolen == s.conns[p].stolen)
  {
    hide NextBlock, AfterVisit, Returned, StoreInRange;
  }

  /** Which steps the two entries count, and that unused numbers have nothing to count. */
  ghost predicate BooksCount(ss: seq<Sys>, ls: seq<Label>, k: nat, p: nat)
    requires k <= |ls| < |ss|
  {
    && (p in ss[k].conns ==>
          ss[k].conns[p].stale == StaleAnswers(ss, ls, k, p) && ss[k].conns[p].stolen == StolenBlocks(ss, ls, k, p))
    && (p >= ss[k].nextPeer ==> StaleAnswers(ss, ls, k, p) == 0 && StolenBlocks(ss, ls, k, p) == 0)
  }

  lemma {:induction false} BooksCounted(t: Torrent, ss: seq<Sys>, ls: seq<Label>, k: nat, p: nat)
    requires t.Valid() && k <= |ls| < |ss| && IsRun(t, ss, ls)
    ensures BooksCount(ss, ls, k, p)
  {
    hide IsRun, Inv, Enabled, Step, StaleAnswer, StolenBlock;
    if k == 0 {
      FirstConns(t, ss, ls);
    } else {
      BooksCounted(t, ss, ls, k - 1, p);
      RunInv(t, ss, ls, k - 1);
      RunStep(t, ss, ls, k - 1);
      var s, l := ss[k - 1], ls[k - 1];
      if p >= s.nextPeer {
        UnknownPeer(t, s, l, p);
      }
      if l == Label.Store {
        StoreConns(t, s);
        if p in s.conns {
          StoreBooks(t, s, p);
        }
      } else if l == Crash {
        CrashConns(t, s);
      } else {
        OtherBooks(t, s, l, p);
        OnlyStoresCount(s, l, p);
        KnownConns(t, s);
      }
    }
  }

  lemma FirstConns(t: Torrent, ss: seq<Sys>, ls: seq<Label>)
    requires t.Valid() && IsRun(t, ss, ls)
    ensures ss[0].conns == map[]
  {
    hide Enabled, Step;
  }

  lemma CrashConns(t: Torrent, s: Sys)
    requires t.Valid() && Enabled(t, s, Crash)
    ensures Step(t, s, Crash).conns == map[]
  {
  }

  lemma OnlyStoresCount(s: Sys, l: Label, p: nat)
    requires l != Label.Store
    ensures !StaleAnswer(s, l, p) && !StolenBlock(s, l, p)
  {
  }

  lemma KnownConns(t: Torrent, s: Sys)
    requires t.Valid() && Inv(t, s)
    ensures forall p :: p in s.conns ==> p < s.nextPeer
  {
  }

  /**
   * The credit equation, for every run: the counter is the number of blocks requested from the connection, plus the
   * blocks requested from it that another connection's answer filled, minus its own answers for blocks not requested
   * from it (each gives a credit back twice), up to the request in the io thread's hands. So between handlers the
   * counter is right if and only if the two kinds of mistakes are equally many.
   */
  lemma CreditEquation(t: Torrent, ss: seq<Sys>, ls: seq<Label>, k: nat, p: nat)
    requires t.Valid() && k <= |ls| < |ss| && IsRun(t, ss, ls) && p in ss[k].conns
    ensures Paired(ss[k].core.pieces)
    ensures var owned := OwnedTotal(ss[k].core.pieces, p, |ss[k].core.pieces|);
            var stolen, stale := StolenBlocks(ss, ls, k, p), StaleAnswers(ss, ls, k, p);
            && ss[k].conns[p].inFlight == owned + stolen - stale - Pending(ss[k].io, p)
            && (Pending(ss[k].io, p) == 0 ==> (ss[k].conns[p].inFlight == owned <==> stolen == stale))
  {
    hide IsRun;
    RunInv(t, ss, ls, k);
    BooksCounted(t, ss, ls, k, p);
  }

  /** Every request leaves while unchoked and interested, under the limit, for a piece the peer announced. */
  lemma RequestDiscipline(t: Torrent, ss: seq<Sys>, ls: seq<Label>, k: nat)
    requires t.Valid() && IsRun(t, ss, ls) && k < |ls| && ls[k] == Label.Send
    ensures ss[k].io.Sending? && ss[k].io.peer in ss[k].conns
    ensures var c := ss[k].conns[ss[k].io.peer];
            && !c.choked && c.interested && c.inFlight < 20
            && ss[k].io.piece < |c.has| && c.has[ss[k].io.piece]
  {
    RunInv(t, ss, ls, k);
  }
}
