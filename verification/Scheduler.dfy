/** What the scheduler grants, and why the request loop ends, with the other threads running in between. */
module Scheduler {
  import opened Layout
  import opened PieceCore
  import opened PieceInvariant
  import opened CoreInvariant
  import opened Swarm
  import opened Runs
  import opened Handlers
  import U = Uninterrupted

  /** Nothing could be asked of connection `p`'s peer. */
  ghost predicate NothingToAsk(t: Torrent, s: Sys, p: nat)
    requires t.Valid()
  {
    && p in s.conns && |s.core.pieces| == |s.conns[p].has| == |t.hashes|
    && forall i, j :: !Open(t, s.core.pieces, s.conns[p].has, i, j)
  }

  /** Block `b` is the first that could be asked of connection `p`'s peer. */
  ghost predicate FirstToAsk(t: Torrent, s: Sys, p: nat, b: BlockId)
    requires t.Valid()
  {
    && p in s.conns && |s.core.pieces| == |s.conns[p].has| == |t.hashes|
    && Open(t, s.core.pieces, s.conns[p].has, b.piece, b.block)
    && forall i, j :: Open(t, s.core.pieces, s.conns[p].has, i, j) ==> b == BlockId(i, j) || Before(b, BlockId(i, j))
  }

  /** The step takes block `b`, for connection `p`, and no other. */
  ghost predicate TakesOnly(t: Torrent, s: Sys, s': Sys, p: nat, b: BlockId)
    requires t.Valid()
  {
    && p in s.conns && |s.core.pieces| == |s'.core.pieces| == |s.conns[p].has| == |t.hashes|
    && forall i, j :: Open(t, s'.core.pieces, s.conns[p].has, i, j)
                      <==> Open(t, s.core.pieces, s.conns[p].has, i, j) && BlockId(i, j) != b
  }

  lemma GrantStep(t: Torrent, s: Sys, now: int)
    requires t.Valid() && Inv(t, s) && Enabled(t, s, Grant(now))
    ensures var s' := Step(t, s, Grant(now));
            && (s'.io.Ready? ==> NothingToAsk(t, s, s.io.peer))
            && (!s'.io.Ready? ==>
                  && s'.io == Sending(s.io.peer, s'.io.piece, s'.io.block)
                  && FirstToAsk(t, s, s.io.peer, BlockId(s'.io.piece, s'.io.block))
                  && TakesOnly(t, s, s', s.io.peer, BlockId(s'.io.piece, s'.io.block)))
  {
    hide Inv, CoreOk, PiecesOk, NextBlock, Open, Handlers.Before;
    U.InvCoreOk(t, s);
    CoreOkPieces(t, s.core);
    U.SchedulingShape(t, s);
    U.GrantStep(t, s, now);
    GrantTakesLeast(t, s.core, s.conns[s.io.peer].has, now, s.io.peer);
    LeastIsFirst();
  }

  lemma LeastIsFirst()
    ensures forall b: BlockId, i: nat, j: nat :: b.piece < i || (b.piece == i && b.block <= j) ==>
              b == BlockId(i, j) || Before(b, BlockId(i, j))
  {
  }

  /**
   * In every run a grant takes the lexicographically least block open to that peer at that moment, and only that; it
   * takes none only when none is open.
   */
  lemma GrantsLeast(t: Torrent, ss: seq<Sys>, ls: seq<Label>, k: nat)
    requires t.Valid() && k < |ls| < |ss| && IsRun(t, ss, ls) && ls[k].Grant?
    ensures !ss[k].io.Ready?
    ensures ss[k + 1].io.Ready? ==> NothingToAsk(t, ss[k], ss[k].io.peer)
    ensures !ss[k + 1].io.Ready? ==>
              && ss[k + 1].io == Sending(ss[k].io.peer, ss[k + 1].io.piece, ss[k + 1].io.block)
              && FirstToAsk(t, ss[k], ss[k].io.peer, BlockId(ss[k + 1].io.piece, ss[k + 1].io.block))
              && TakesOnly(t, ss[k], ss[k + 1], ss[k].io.peer, BlockId(ss[k + 1].io.piece, ss[k + 1].io.block))
  {
    hide IsRun, Inv, Step, NothingToAsk, FirstToAsk, TakesOnly;
    RunInv(t, ss, ls, k);
    RunStep(t, ss, ls, k);
    GrantStep(t, ss[k], ls[k].now);
  }

  lemma OnlyTestsEnd(t: Torrent, s: Sys, l: Label)
    requires t.Valid() && Enabled(t, s, l) && l != Crash && !l.Grant?
    requires (s.io.Scheduling? || s.io.Picking?) && Step(t, s, l).io.Ready?
    ensures s.io.peer in s.conns
    ensures s.conns[s.io.peer].choked || s.conns[s.io.peer].inFlight >= 20
  {
    hide AfterVisit, Returned, NextBlock;
  }

  /**
   * Whatever the other threads do, the request loop of a connection ends only when the connection is choked, when it
   * has twenty requests out, or when nothing is open to its peer.
   */
  lemma LoopEnds(t: Torrent, ss: seq<Sys>, ls: seq<Label>, k: nat)
    requires t.Valid() && k < |ls| < |ss| && IsRun(t, ss, ls) && ls[k] != Crash
    requires (ss[k].io.Scheduling? || ss[k].io.Picking?) && ss[k + 1].io.Ready?
    ensures var p := ss[k].io.peer;
            && p in ss[k].conns
            && (ss[k].conns[p].choked || ss[k].conns[p].inFlight >= 20 || NothingToAsk(t, ss[k], p))
  {
    hide IsRun, Inv, Enabled, Step;
    RunStep(t, ss, ls, k);
    if ls[k].Grant? {
      GrantsLeast(t, ss, ls, k);
    } else {
      OnlyTestsEnd(t, ss[k], ls[k]);
    }
  }
}
