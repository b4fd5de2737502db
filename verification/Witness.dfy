/**
 * Runs on which the counters lie, for every torrent of one piece of one byte other than 7, whatever the digest
 * function is.
 * `FailureFoolsTracker` is about the download counter, `LateAnswer` and `OthersAnswer` about the request counters.
 */
module Witness {
  import opened Bytes
  import opened Layout
  import opened PieceCore
  import opened PieceInvariant
  import opened Swarm
  import opened Runs

  /** One piece of one byte, which is not the byte 7. */
  ghost predicate OneByte(t: Torrent) {
    t.Valid() && |t.hashes| == 1 && t.total == 1 && t.sha1([7]) != t.hashes[0]
  }

  lemma OneByteShape(t: Torrent)
    requires OneByte(t)
    ensures t.Valid()
    ensures t.PieceLen(0) == 1 && t.BlockCount(0) == 1 && t.RequestLen(0, 0) == 1
  {
  }

  const FREE := PieceBuffer([0], [NotRequested], [NOT_IN_FLIGHT], 0, false)

  function Wanted(peer: nat, sent: int): PieceBuffer {
    PieceBuffer([0], [Requested], [InFlightBlock(sent, Some(peer))], 0, false)
  }

  const QUIET := Conn(true, false, [false], 0, 0, 0)
  const TOLD := Conn(true, true, [true], 0, 0, 0)
  const OPEN := Conn(false, true, [true], 0, 0, 0)
  const WAITING := OPEN.(inFlight := 1)

  // ---------------------------------------------------------------- runs built step by step

  ghost predicate RunsTo(t: Torrent, ss: seq<Sys>, ls: seq<Label>, s: Sys) {
    t.Valid() && IsRun(t, ss, ls) && ss[|ls|] == s
  }

  lemma Extend(t: Torrent, ss: seq<Sys>, ls: seq<Label>, s: Sys, l: Label, s': Sys)
    requires OneByte(t)
    requires RunsTo(t, ss, ls, s) && Enabled(t, s, l) && s' == Step(t, s, l)
    ensures RunsTo(t, ss + [s'], ls + [l], s')
  {
    hide Enabled, Step, Init;
    var ss', ls' := ss + [s'], ls + [l];
    forall k | 0 <= k < |ls'|
      ensures Enabled(t, ss'[k], ls'[k]) && ss'[k + 1] == Step(t, ss'[k], ls'[k])
    {
      if k < |ls| {
        assert ls'[k] == ls[k] && ss'[k] == ss[k] && ss'[k + 1] == ss[k + 1];
      }
    }
  }

  // ---------------------------------------------------------------- states

  /** Between handlers: the piece, the connections, the requests sent, the bytes counted and the failures. */
  function Between(piece: PieceBuffer, conns: map<nat, Conn>, n: nat, asked: set<Request>, bytes: nat, failures: seq<nat>): Sys {
    Sys(Core([piece], false, bytes, 0, [0], [], []), [0], Ready, Idle, conns, n, asked, [], [], failures, {})
  }

  /** Every connection, and the piece, are of the right size. */
  ghost predicate Fits(t: Torrent, s: Sys) {
    && t.Valid() && Shaped(t, s)
    && |s.core.pieces| == 1 && !s.core.pieces[0].isComplete && !s.core.allComplete
  }

  /** While connection `p` is being served. */
  function During(s: Sys, p: nat, c: Conn, io: Io): Sys {
    s.(conns := s.conns[p := c], nextPeer := p + 1, io := io)
  }

  function WithPiece(s: Sys, piece: PieceBuffer): Sys {
    s.(core := s.core.(pieces := [piece]))
  }

  lemma FitsDuring(t: Torrent, s: Sys, p: nat, c: Conn, io: Io)
    requires OneByte(t)
    requires Fits(t, s) && |c.has| == 1 && IoShaped(t, io, s.conns[p := c])
    ensures Fits(t, During(s, p, c, io))
  {
    hide Sized;
  }

  lemma FitsPiece(t: Torrent, s: Sys, piece: PieceBuffer)
    requires OneByte(t)
    requires Fits(t, s) && !piece.isComplete && |piece.status| == |piece.inFlight|
    ensures Fits(t, WithPiece(s, piece))
  {
  }

  // ---------------------------------------------------------------- one connection asks for the block

  lemma ConnectStep(t: Torrent, s: Sys)
    requires OneByte(t)
    requires Fits(t, s) && s.io.Ready?
    ensures Enabled(t, s, Connect) && Step(t, s, Connect) == During(s, s.nextPeer, QUIET, Ready)
  {
    hide Sized, InRange;
    assert NewConn(t).has == [false];
  }

  lemma HaveStep(t: Torrent, s: Sys, p: nat)
    requires OneByte(t)
    requires Fits(t, s)
    ensures var b := During(s, p, QUIET, Ready);
            Fits(t, b) && Enabled(t, b, Have(p, 0)) && Step(t, b, Have(p, 0)) == During(s, p, TOLD, Scheduling(p))
  {
    hide Sized, InRange;
    OneByteShape(t);
    FitsDuring(t, s, p, QUIET, Ready);
    assert [false][0 := true] == [true];
  }

  lemma UnchokeStep(t: Torrent, s: Sys, p: nat)
    requires OneByte(t)
    requires Fits(t, s)
    ensures var b := During(s, p, TOLD, Ready);
            Fits(t, b) && Enabled(t, b, Unchoke(p)) && Step(t, b, Unchoke(p)) == During(s, p, OPEN, Scheduling(p))
  {
    hide Sized, InRange;
    FitsDuring(t, s, p, TOLD, Ready);
  }

  lemma TestStep(t: Torrent, s: Sys, p: nat, c: Conn)
    requires OneByte(t)
    requires Fits(t, s) && |c.has| == 1
    ensures var b := During(s, p, c, Scheduling(p));
            && Fits(t, b) && Enabled(t, b, Test)
            && Step(t, b, Test)
               == During(s, p, c, if !c.choked && c.inFlight < MAX_IN_FLIGHT then Picking(p) else Ready)
  {
    hide Sized, InRange;
    FitsDuring(t, s, p, c, Scheduling(p));
  }

  lemma FreshOrFree(t: Torrent, piece: PieceBuffer, p: nat, now: int)
    requires OneByte(t)
    requires piece == EMPTY_PIECE || piece == FREE
    ensures t.Valid()
    ensures FirstOpen(t, [piece], [true], 0) == Some(BlockId(0, 0))
    ensures MaybeInit(t, 0, piece) == FREE && Granted(t, 0, piece, 0, now, p) == Wanted(p, now)
  {
    OneByteShape(t);
    assert MaybeInit(t, 0, piece) == FREE;
    assert FirstFree(FREE.status, 0) == Some(0);
    assert [NotRequested][0 := Requested] == [Requested];
    assert [NOT_IN_FLIGHT][0 := InFlightBlock(now, Some(p))] == [InFlightBlock(now, Some(p))];
  }

  lemma GrantStep(t: Torrent, s: Sys, p: nat, now: int)
    requires OneByte(t)
    requires Fits(t, s) && (s.core.pieces == [EMPTY_PIECE] || s.core.pieces == [FREE])
    ensures var b := During(s, p, OPEN, Picking(p));
            && Fits(t, b) && Enabled(t, b, Grant(now))
            && Step(t, b, Grant(now)) == During(WithPiece(s, Wanted(p, now)), p, OPEN, Sending(p, 0, 0))
  {
    hide InRange, FirstOpen, Granted, MaybeInit;
    FitsDuring(t, s, p, OPEN, Picking(p));
    FreshOrFree(t, s.core.pieces[0], p, now);
    assert s.core.pieces[0 := Wanted(p, now)] == [Wanted(p, now)];
  }

  lemma SendStep(t: Torrent, s: Sys, p: nat)
    requires OneByte(t)
    requires Fits(t, s)
    ensures var b := During(s, p, OPEN, Sending(p, 0, 0));
            && Fits(t, b) && Enabled(t, b, Send)
            && Step(t, b, Send) == During(s.(asked := s.asked + {Request(p, 0, 0)}), p, WAITING, Scheduling(p))
  {
    hide Sized, InRange;
    OneByteShape(t);
    FitsDuring(t, s, p, OPEN, Sending(p, 0, 0));
  }

  lemma NoneLeft(t: Torrent, p: nat, now: int)
    requires OneByte(t)
    ensures t.Valid() && FirstOpen(t, [Wanted(p, now)], [true], 0) == None
  {
    OneByteShape(t);
    assert FirstFree(Wanted(p, now).status, 0) == None;
    assert FirstOpen(t, [Wanted(p, now)], [true], 1) == None;
  }

  lemma NoGrantStep(t: Torrent, s: Sys, p: nat, now: int)
    requires OneByte(t)
    requires Fits(t, s) && s.core.pieces == [Wanted(p, now)]
    ensures var b := During(s, p, WAITING, Picking(p));
            && Fits(t, b) && Enabled(t, b, Grant(now))
            && Step(t, b, Grant(now)) == During(s, p, WAITING, Ready)
  {
    hide InRange, FirstOpen;
    FitsDuring(t, s, p, WAITING, Picking(p));
    NoneLeft(t, p, now);
    assert !s.core.pieces[0].isComplete;
  }

  const ASKING: nat := 9

  /** The next connection comes up, learns of the piece, is unchoked, and asks for the block. */
  lemma Asks(t: Torrent, ss0: seq<Sys>, ls0: seq<Label>, s: Sys, now: int) returns (ss: seq<Sys>, ls: seq<Label>)
    requires OneByte(t)
    requires RunsTo(t, ss0, ls0, s) && Fits(t, s) && s.io.Ready?
    requires s.core.pieces == [EMPTY_PIECE] || s.core.pieces == [FREE]
    ensures var p := s.nextPeer;
            var s1 := WithPiece(s, Wanted(p, now)).(asked := s.asked + {Request(p, 0, 0)});
            RunsTo(t, ss, ls, During(s1, p, WAITING, Ready)) && |ls| == |ls0| + ASKING
  {
    hide Fits, Enabled, Step, RunsTo;
    var p := s.nextPeer;
    ss, ls := ss0, ls0;
    ConnectStep(t, s);
    ss, ls := Then(t, ss, ls, s, Connect, During(s, p, QUIET, Ready));
    HaveStep(t, s, p);
    ss, ls := Then(t, ss, ls, During(s, p, QUIET, Ready), Have(p, 0), During(s, p, TOLD, Scheduling(p)));
    TestStep(t, s, p, TOLD);
    ss, ls := Then(t, ss, ls, During(s, p, TOLD, Scheduling(p)), Test, During(s, p, TOLD, Ready));
    UnchokeStep(t, s, p);
    ss, ls := Then(t, ss, ls, During(s, p, TOLD, Ready), Unchoke(p), During(s, p, OPEN, Scheduling(p)));
    TestStep(t, s, p, OPEN);
    ss, ls := Then(t, ss, ls, During(s, p, OPEN, Scheduling(p)), Test, During(s, p, OPEN, Picking(p)));
    GrantStep(t, s, p, now);
    var s1 := WithPiece(s, Wanted(p, now));
    ss, ls := Then(t, ss, ls, During(s, p, OPEN, Picking(p)), Grant(now), During(s1, p, OPEN, Sending(p, 0, 0)));
    FitsPiece(t, s, Wanted(p, now));
    SendStep(t, s1, p);
    var s2 := s1.(asked := s.asked + {Request(p, 0, 0)});
    FitsAsked(t, s1, s2.asked);
    ss, ls := Then(t, ss, ls, During(s1, p, OPEN, Sending(p, 0, 0)), Send, During(s2, p, WAITING, Scheduling(p)));
    TestStep(t, s2, p, WAITING);
    ss, ls := Then(t, ss, ls, During(s2, p, WAITING, Scheduling(p)), Test, During(s2, p, WAITING, Picking(p)));
    NoGrantStep(t, s2, p, now);
    ss, ls := Then(t, ss, ls, During(s2, p, WAITING, Picking(p)), Grant(now), During(s2, p, WAITING, Ready));
  }

  lemma FitsAsked(t: Torrent, s: Sys, asked: set<Request>)
    requires OneByte(t)
    requires Fits(t, s)
    ensures Fits(t, s.(asked := asked))
  {
  }

  lemma Then(t: Torrent, ss0: seq<Sys>, ls0: seq<Label>, s: Sys, l: Label, s': Sys) returns (ss: seq<Sys>, ls: seq<Label>)
    requires OneByte(t)
    requires RunsTo(t, ss0, ls0, s) && Enabled(t, s, l) && s' == Step(t, s, l)
    ensures RunsTo(t, ss, ls, s') && |ls| == |ls0| + 1
  {
    Extend(t, ss0, ls0, s, l, s');
    ss, ls := ss0 + [s'], ls0 + [l];
  }

  // ---------------------------------------------------------------- start, timeout, answer

  lemma Start(t: Torrent) returns (ss: seq<Sys>, ls: seq<Label>)
    requires OneByte(t)
    ensures RunsTo(t, ss, ls, Between(EMPTY_PIECE, map[], 0, {}, 0, [])) && ls == []
    ensures Fits(t, Between(EMPTY_PIECE, map[], 0, {}, 0, []))
  {
    OneByteShape(t);
    assert Fresh(t, []).pieces == [EMPTY_PIECE] && Fresh(t, []).bitfield == [0];
    ss, ls := [Between(EMPTY_PIECE, map[], 0, {}, 0, [])], [];
  }

  const LATE: int := 3_000_000_001

  /** The only request, sent at time 0, times out; the connection gets its credit back. */
  lemma TimeoutStep(t: Torrent, asked: set<Request>, conns: map<nat, Conn>)
    requires OneByte(t)
    requires 0 in conns && conns == map[0 := WAITING]
    ensures var b := Between(Wanted(0, 0), conns, 1, asked, 0, []);
            && t.Valid() && Enabled(t, b, Label.Visit(0, LATE))
            && Step(t, b, Label.Visit(0, LATE)) == Between(FREE, map[0 := OPEN], 1, asked, 0, [])
  {
    OneByteShape(t);
    var b := Between(Wanted(0, 0), conns, 1, asked, 0, []);
    var p := Wanted(0, 0);
    assert Expired(p, 0, LATE);
    assert ExpiredUpTo(p, 0, LATE, 0) == 0;
    assert Returned(p, 0, LATE) == 1;
    assert AfterVisit(p, LATE) == FREE;
    assert Credit(conns, p, LATE) == map[0 := OPEN];
    assert [p][0 := FREE] == [FREE];
  }

  /** Connection 0 answers; the credit goes back at once. */
  lemma AnswerStep(t: Torrent, b: Sys)
    requires OneByte(t)
    requires Fits(t, b) && b.io.Ready? && 0 in b.conns && Request(0, 0, 0) in b.asked
    ensures Enabled(t, b, Answer(0, 0, 0, [7]))
    ensures Step(t, b, Answer(0, 0, 0, [7]))
         == b.(conns := b.conns[0 := b.conns[0].(inFlight := b.conns[0].inFlight - 1)], io := Storing(0, 0, 0, [7]))
  {
    OneByteShape(t);
  }

  lemma SevenFails(t: Torrent, p: PieceBuffer, peer: nat, sent: int)
    requires OneByte(t)
    requires p == FREE || p == Wanted(peer, sent)
    ensures t.Valid() && StoreInRange(p, 0, [7]) && StoreBlock(t, 0, p, 0, [7]) == StoreOutcome(FREE, 1, HashFailed)
  {
    OneByteShape(t);
    assert Overlay([0], 0, [7]) == [7];
    assert Kept(p, 0, [7]).status == [Received] && Kept(p, 0, [7]).data == [7];
  }

  /** Storing that answer fails the hash check and resets the piece. */
  lemma StoreStep(t: Torrent, b: Sys, peer: nat, sent: int)
    requires OneByte(t)
    requires Fits(t, b) && b.io == Storing(0, 0, 0, [7]) && 0 in b.conns
    requires b.core.pieces[0] == FREE || b.core.pieces[0] == Wanted(peer, sent)
    ensures |b.core.pieces[0].status| == |b.core.pieces[0].inFlight|
    ensures Enabled(t, b, Label.Store)
    ensures var s := Step(t, b, Label.Store);
            && s.core.pieces == [FREE] && s.core.downloaded == b.core.downloaded + 1
            && s.conns == Settle(b.conns, 0, b.core.pieces[0], 0)
            && s.failures == b.failures + [0] && s.io == Scheduling(0)
  {
    hide StoreBlock, Settle, StoreInRange;
    SevenFails(t, b.core.pieces[0], peer, sent);
    assert b.core.pieces[0 := FREE] == [FREE];
  }

  /** Connection 0 answers, in time or late, and the answer is stored. */
  lemma Answered(t: Torrent, ss0: seq<Sys>, ls0: seq<Label>, b: Sys, peer: nat, sent: int) returns (ss: seq<Sys>, ls: seq<Label>, s: Sys)
    requires OneByte(t)
    requires RunsTo(t, ss0, ls0, b) && Fits(t, b) && b.io.Ready? && 0 in b.conns && Request(0, 0, 0) in b.asked
    requires b.core.pieces[0] == FREE || b.core.pieces[0] == Wanted(peer, sent)
    ensures |b.core.pieces[0].status| == |b.core.pieces[0].inFlight|
    ensures RunsTo(t, ss, ls, s) && |ls| == |ls0| + 2
    ensures s.core.pieces == [FREE] && s.core.downloaded == b.core.downloaded + 1 && s.failures == b.failures + [0]
    ensures s.io == Scheduling(0)
    ensures s.conns == Settle(b.conns[0 := b.conns[0].(inFlight := b.conns[0].inFlight - 1)], 0, b.core.pieces[0], 0)
  {
    hide Enabled, Step, Settle, IsRun, Shaped;
    AnswerStep(t, b);
    var a := Step(t, b, Answer(0, 0, 0, [7]));
    ss, ls := Then(t, ss0, ls0, b, Answer(0, 0, 0, [7]), a);
    AnsweredFits(t, b);
    StoreStep(t, a, peer, sent);
    s := Step(t, a, Label.Store);
    ss, ls := Then(t, ss, ls, a, Label.Store, s);
  }

  lemma AnsweredFits(t: Torrent, b: Sys)
    requires OneByte(t)
    requires Fits(t, b) && b.io.Ready? && 0 in b.conns && Request(0, 0, 0) in b.asked
    ensures Enabled(t, b, Answer(0, 0, 0, [7])) && Fits(t, Step(t, b, Answer(0, 0, 0, [7])))
  {
    OneByteShape(t);
    AnswerStep(t, b);
  }

  lemma BetweenFits(t: Torrent, piece: PieceBuffer, conns: map<nat, Conn>, n: nat, asked: set<Request>, bytes: nat, failures: seq<nat>)
    requires OneByte(t)
    requires !piece.isComplete && |piece.status| == |piece.inFlight| && forall p :: p in conns ==> |conns[p].has| == 1
    ensures Fits(t, Between(piece, conns, n, asked, bytes, failures))
  {
    OneByteShape(t);
  }

  // ---------------------------------------------------------------- the three runs

  /** Connection 0 has asked for the block. */
  lemma Asked(t: Torrent) returns (ss: seq<Sys>, ls: seq<Label>, b: Sys)
    requires OneByte(t)
    ensures b == Between(Wanted(0, 0), map[0 := WAITING], 1, {Request(0, 0, 0)}, 0, [])
    ensures RunsTo(t, ss, ls, b) && Fits(t, b) && |ls| == 9
  {
    hide RunsTo;
    var s := Between(EMPTY_PIECE, map[], 0, {}, 0, []);
    ss, ls := Start(t);
    ss, ls := Asks(t, ss, ls, s, 0);
    b := Between(Wanted(0, 0), map[0 := WAITING], 1, {Request(0, 0, 0)}, 0, []);
    assert During(WithPiece(s, Wanted(0, 0)).(asked := {} + {Request(0, 0, 0)}), 0, WAITING, Ready) == b;
    BetweenFits(t, Wanted(0, 0), map[0 := WAITING], 1, {Request(0, 0, 0)}, 0, []);
  }

  /** And its request has timed out. */
  lemma TimedOut(t: Torrent) returns (ss: seq<Sys>, ls: seq<Label>, b: Sys)
    requires OneByte(t)
    ensures b == Between(FREE, map[0 := OPEN], 1, {Request(0, 0, 0)}, 0, [])
    ensures RunsTo(t, ss, ls, b) && Fits(t, b) && |ls| == 10
  {
    hide RunsTo, Step, Enabled;
    var a;
    ss, ls, a := Asked(t);
    TimeoutStep(t, {Request(0, 0, 0)}, map[0 := WAITING]);
    b := Between(FREE, map[0 := OPEN], 1, {Request(0, 0, 0)}, 0, []);
    ss, ls := Then(t, ss, ls, a, Label.Visit(0, LATE), b);
    BetweenFits(t, FREE, map[0 := OPEN], 1, {Request(0, 0, 0)}, 0, []);
  }

  /** The download counter has reached the total with nothing downloaded. */
  ghost predicate TrackerFooled(t: Torrent, s: Sys) {
    s.core.downloaded >= t.total && !AllComplete(s.core.pieces) && s.failures == [0]
  }

  lemma FailureRun(t: Torrent) returns (ss: seq<Sys>, ls: seq<Label>)
    requires OneByte(t)
    ensures t.Valid() && IsRun(t, ss, ls) && |ls| == 11 && TrackerFooled(t, ss[11])
  {
    hide IsRun, Settle;
    var b, s;
    ss, ls, b := Asked(t);
    ss, ls, s := Answered(t, ss, ls, b, 0, 0);
    assert !s.core.pieces[0].isComplete;
  }

  /** The tracker would be told `completed` on a torrent of which nothing was downloaded. */
  lemma FailureFoolsTracker(t: Torrent)
    requires OneByte(t)
    ensures exists ss, ls :: t.Valid() && IsRun(t, ss, ls) && |ls| == 11 && TrackerFooled(t, ss[11])
  {
    hide IsRun, TrackerFooled;
    var ss, ls := FailureRun(t);
  }

  lemma NothingOwned(peer: nat)
    ensures Paired([FREE]) && OwnedTotal([FREE], peer, 1) == 0
  {
    assert OwnedUpTo(FREE, peer, 0) == 0 && Owned(FREE, peer) == 0;
    assert OwnedTotal([FREE], peer, 0) == 0;
  }

  /** Connection `peer`, with nothing requested from it, counts `n` requests in flight. */
  ghost predicate Miscounts(s: Sys, peer: nat, n: int) {
    && peer in s.conns && s.conns[peer].inFlight == n && !s.io.Storing? && !s.io.Sending?
    && Paired(s.core.pieces) && OwnedTotal(s.core.pieces, peer, |s.core.pieces|) == 0
  }

  lemma LateRun(t: Torrent) returns (ss: seq<Sys>, ls: seq<Label>)
    requires OneByte(t)
    ensures t.Valid() && IsRun(t, ss, ls) && |ls| == 12 && Miscounts(ss[12], 0, -1)
  {
    hide IsRun;
    var b, s;
    ss, ls, b := TimedOut(t);
    ss, ls, s := Answered(t, ss, ls, b, 0, 0);
    NothingOwned(0);
  }

  /** An answer that comes after its request timed out takes the counter below zero. */
  lemma LateAnswer(t: Torrent)
    requires OneByte(t)
    ensures exists ss, ls :: t.Valid() && IsRun(t, ss, ls) && |ls| == 12 && Miscounts(ss[12], 0, -1)
  {
    hide IsRun, Miscounts;
    var ss, ls := LateRun(t);
  }

  lemma OthersRun(t: Torrent) returns (ss: seq<Sys>, ls: seq<Label>)
    requires OneByte(t)
    ensures t.Valid() && IsRun(t, ss, ls) && |ls| == 21 && Miscounts(ss[21], 0, -1) && Miscounts(ss[21], 1, 1)
  {
    hide IsRun;
    var a, s;
    ss, ls, a := TimedOut(t);
    ss, ls := Asks(t, ss, ls, a, LATE);
    var conns := map[0 := OPEN, 1 := WAITING];
    var asked := {Request(0, 0, 0), Request(1, 0, 0)};
    var b := Between(Wanted(1, LATE), conns, 2, asked, 0, []);
    assert During(WithPiece(a, Wanted(1, LATE)).(asked := a.asked + {Request(1, 0, 0)}), 1, WAITING, Ready) == b by {
      assert map[0 := OPEN][1 := WAITING] == conns;
    }
    BetweenFits(t, Wanted(1, LATE), conns, 2, asked, 0, []);
    ss, ls, s := Answered(t, ss, ls, b, 1, LATE);
    NothingOwned(0);
    NothingOwned(1);
  }

  /**
   * When the late answer comes after the block was requested from another connection, that connection's credit stays
   * taken: it goes on counting a request although nothing is requested from it any more.
   */
  lemma OthersAnswer(t: Torrent)
    requires OneByte(t)
    ensures exists ss, ls :: t.Valid() && IsRun(t, ss, ls) && |ls| == 21
              && Miscounts(ss[21], 0, -1) && Miscounts(ss[21], 1, 1)
  {
    hide IsRun, Miscounts;
    var ss, ls := OthersRun(t);
  }
}
