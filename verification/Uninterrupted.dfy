/**
 * The message handlers, run with no other thread in between, are runs of the transition system: the run-level
 * results speak about the same code as the connection's methods.
 */
module Uninterrupted {
  import opened Bytes
  import opened Layout
  import opened PieceCore
  import opened PieceInvariant
  import opened CoreInvariant
  import opened Bits
  import opened Wire
  import opened Swarm
  import opened SwarmInvariant
  import H = Handlers

  /** The labels `ls` lead from `s` to `s'`. */
  ghost predicate Leads(t: Torrent, s: Sys, ls: seq<Label>, s': Sys)
    requires t.Valid()
    decreases |ls|
  {
    if ls == [] then s' == s
    else Enabled(t, s, ls[0]) && Leads(t, Step(t, s, ls[0]), ls[1..], s')
  }

  lemma LeadsOne(t: Torrent, s: Sys, l: Label, ls: seq<Label>, s': Sys)
    requires t.Valid() && Enabled(t, s, l) && Leads(t, Step(t, s, l), ls, s')
    ensures Leads(t, s, [l] + ls, s')
  {
    assert ([l] + ls)[1..] == ls;
  }

  /** A step the io thread takes by itself, once a message is being handled. */
  predicate OwnStep(l: Label) {
    l.Store? || l.Mark? || l.Notify? || l.Enqueue? || l.Append? || l.Test? || l.Grant? || l.Send?
  }

  predicate Own(ls: seq<Label>) {
    forall k :: 0 <= k < |ls| ==> OwnStep(ls[k])
  }

  lemma OwnMore(l: Label, ls: seq<Label>)
    requires OwnStep(l) && Own(ls)
    ensures Own([l] + ls)
  {
  }

  /** The step `l`, and then nothing but the io thread's own steps. */
  predicate StartsWith(ls: seq<Label>, l: Label) {
    ls != [] && ls[0] == l && Own(ls[1..])
  }

  lemma Starts(l: Label, ls: seq<Label>)
    requires Own(ls)
    ensures StartsWith([l] + ls, l)
  {
    assert ([l] + ls)[1..] == ls;
  }

  lemma InvCoreOk(t: Torrent, s: Sys)
    requires t.Valid() && Inv(t, s)
    ensures CoreOk(t, s.core)
  {
    hide PieceOk, BitfieldOk, BytesOk, RequestsOk, IoOk, CreditsOk, OwnersOk, ConnsOk, DiskOk;
    var pipe := Pipeline(s);
    forall x, y | 0 <= x < y < |s.core.queue|
      ensures s.core.queue[x] != s.core.queue[y]
    {
      var at := |Gone(s)| + |WithWriter(s.writer)|;
      assert pipe[at + x] == s.core.queue[x] && pipe[at + y] == s.core.queue[y];
    }
    forall i | i in s.core.queue
      ensures i < |s.core.pieces| && s.core.pieces[i].isComplete && s.core.pieces[i].data != []
    {
      assert i in Held(s) && i in Pipeline(s);
    }
  }

  function BudgetOf(c: Conn): nat {
    Budget(c.choked, c.inFlight)
  }

  function Asked(p: nat, ids: seq<BlockId>): set<Request> {
    set x | 0 <= x < |ids| :: Request(p, ids[x].piece, ids[x].block)
  }

  /** The state after the loop has sent `ids` and left the core as `c`. */
  function AfterLoop(s: Sys, p: nat, c: Core, ids: seq<BlockId>): Sys
    requires p in s.conns
  {
    s.(core := c,
       conns := s.conns[p := s.conns[p].(inFlight := s.conns[p].inFlight + |ids|)],
       asked := s.asked + Asked(p, ids),
       io := Ready)
  }

  lemma AfterLoopNone(s: Sys, p: nat, c: Core)
    requires p in s.conns
    ensures AfterLoop(s, p, c, []) == s.(core := c, io := Ready)
  {
    assert s.conns[p := s.conns[p]] == s.conns;
    assert s.conns[p].(inFlight := s.conns[p].inFlight + 0) == s.conns[p];
    assert Asked(p, []) == {};
  }

  lemma AfterLoopMore(s: Sys, s1: Sys, p: nat, c: Core, id: BlockId, ids: seq<BlockId>)
    requires p in s.conns
    requires s1 == s.(core := s1.core, io := s1.io,
                      conns := s.conns[p := s.conns[p].(inFlight := s.conns[p].inFlight + 1)],
                      asked := s.asked + {Request(p, id.piece, id.block)})
    ensures AfterLoop(s1, p, c, ids) == AfterLoop(s, p, c, [id] + ids)
  {
    var all := [id] + ids;
    assert Asked(p, all) == {Request(p, id.piece, id.block)} + Asked(p, ids) by {
      forall r | r in Asked(p, ids)
        ensures r in Asked(p, all)
      {
        var x :| 0 <= x < |ids| && r == Request(p, ids[x].piece, ids[x].block);
        assert all[x + 1] == ids[x];
      }
      assert all[0] == id;
    }
    assert AfterLoop(s1, p, c, ids).conns == AfterLoop(s, p, c, all).conns;
  }

  lemma SchedulingShape(t: Torrent, s: Sys)
    requires t.Valid() && Inv(t, s) && !s.io.Ready?
    ensures Shaped(t, s) && Sized(t, s.core)
    ensures s.io.peer in s.conns && |s.conns[s.io.peer].has| == |t.hashes|
  {
  }

  lemma TestStep(t: Torrent, s: Sys)
    requires t.Valid() && Shaped(t, s) && s.io.Scheduling? && s.io.peer in s.conns
    ensures Enabled(t, s, Test)
    ensures Step(t, s, Test) == s.(io := if BudgetOf(s.conns[s.io.peer]) > 0 then Picking(s.io.peer) else Ready)
  {
  }

  lemma GrantStep(t: Torrent, s: Sys, now: int)
    requires t.Valid() && Shaped(t, s) && s.io.Picking? && s.io.peer in s.conns
    requires Sized(t, s.core) && |s.conns[s.io.peer].has| == |t.hashes|
    ensures Enabled(t, s, Grant(now))
    ensures var (c, b) := NextBlock(t, s.core, s.conns[s.io.peer].has, now, s.io.peer);
            Step(t, s, Grant(now))
            == s.(core := c, io := if b.Some? then Sending(s.io.peer, b.value.piece, b.value.block) else Ready)
  {
  }

  lemma SendStep(t: Torrent, s: Sys)
    requires t.Valid() && Shaped(t, s) && s.io.Sending? && s.io.peer in s.conns
    ensures Enabled(t, s, Send)
    ensures var p := s.io.peer;
            Step(t, s, Send)
            == s.(conns := s.conns[p := s.conns[p].(inFlight := s.conns[p].inFlight + 1)],
                  asked := s.asked + {Request(p, s.io.piece, s.io.block)},
                  io := Scheduling(p))
  {
  }

  /** One round of the loop in the transition system, up to the next loop head or the end. */
  lemma RoundRuns(t: Torrent, s: Sys, now: int) returns (s': Sys)
    requires t.Valid() && Inv(t, s) && s.io.Scheduling?
    ensures Sized(t, s.core) && s.io.peer in s.conns && |s.conns[s.io.peer].has| == |t.hashes|
    ensures Inv(t, s')
    ensures var p, c := s.io.peer, s.conns[s.io.peer];
            var (core, b) := NextBlock(t, s.core, c.has, now, p);
            if BudgetOf(c) == 0 then
              s' == s.(io := Ready) && Leads(t, s, [Test], s')
            else if b.None? then
              s' == s.(core := core, io := Ready) && Leads(t, s, [Test] + [Grant(now)], s')
            else
              && s' == s.(core := core, io := Scheduling(p),
                          conns := s.conns[p := c.(inFlight := c.inFlight + 1)],
                          asked := s.asked + {Request(p, b.value.piece, b.value.block)})
              && forall ls, end :: Leads(t, s', ls, end) ==> Leads(t, s, [Test] + ([Grant(now)] + ([Send] + ls)), end)
  {
    hide Inv, Shaped, Sized, Step, Enabled, NextBlock;
    SchedulingShape(t, s);
    TestStep(t, s);
    StepKeeps(t, s, Test);
    var s1 := Step(t, s, Test);
    if BudgetOf(s.conns[s.io.peer]) == 0 {
      assert Leads(t, s1, [], s1);
      LeadsOne(t, s, Test, [], s1);
      return s1;
    }
    SchedulingShape(t, s1);
    GrantStep(t, s1, now);
    StepKeeps(t, s1, Grant(now));
    var s2 := Step(t, s1, Grant(now));
    if s2.io.Ready? {
      assert Leads(t, s2, [], s2);
      LeadsOne(t, s1, Grant(now), [], s2);
      LeadsOne(t, s, Test, [Grant(now)], s2);
      return s2;
    }
    SchedulingShape(t, s2);
    SendStep(t, s2);
    StepKeeps(t, s2, Send);
    s' := Step(t, s2, Send);
    forall ls, end | Leads(t, s', ls, end)
      ensures Leads(t, s, [Test] + ([Grant(now)] + ([Send] + ls)), end)
    {
      LeadsOne(t, s2, Send, ls, end);
      LeadsOne(t, s1, Grant(now), [Send] + ls, end);
      LeadsOne(t, s, Test, [Grant(now)] + ([Send] + ls), end);
    }
  }

  function BudgetAt(s: Sys): nat {
    if s.io.Scheduling? && s.io.peer in s.conns then BudgetOf(s.conns[s.io.peer]) else 0
  }

  /** The request loop of `maybe_request_next`, uninterrupted. */
  lemma {:induction false} LoopRuns(t: Torrent, s: Sys, clock: H.Clock, k: nat) returns (ls: seq<Label>)
    requires t.Valid() && Inv(t, s) && s.io.Scheduling?
    ensures s.io.peer in s.conns && CoreOk(t, s.core) && |s.conns[s.io.peer].has| == |t.hashes|
    ensures var p := s.io.peer;
            var r := H.Requests(t, s.core, s.conns[p].has, p, clock, k, BudgetOf(s.conns[p]));
            Leads(t, s, ls, AfterLoop(s, p, r.0, r.1))
    ensures Own(ls)
    decreases BudgetAt(s)
  {
    hide CoreOk, NextBlock, AfterLoop, Inv, Step, Enabled, Leads, Sized;
    InvCoreOk(t, s);
    var p, now := s.io.peer, clock(k);
    var s' := RoundRuns(t, s, now);
    var c := s.conns[p];
    var b := NextBlock(t, s.core, c.has, now, p);
    if BudgetOf(c) == 0 {
      AfterLoopNone(s, p, s.core);
      ls := [Test];
    } else if b.1.None? {
      AfterLoopNone(s, p, b.0);
      ls := [Test] + [Grant(now)];
    } else {
      var rest := LoopRuns(t, s', clock, k + 1);
      var r := H.Requests(t, b.0, c.has, p, clock, k + 1, BudgetOf(c) - 1);
      AfterLoopMore(s, s', p, r.0, b.1.value, r.1);
      OwnMore(Send, rest);
      OwnMore(Grant(now), [Send] + rest);
      OwnMore(Test, [Grant(now)] + ([Send] + rest));
      ls := [Test] + ([Grant(now)] + ([Send] + rest));
    }
  }

  // ---------------------------------------------------------------- whole messages

  /** The transition system's connection `p` and piece manager are those of `w`. */
  ghost predicate Matches(s: Sys, p: nat, w: H.World) {
    && p in s.conns && s.core == w.core
    && s.conns[p].choked == w.conn.choked && s.conns[p].interested == w.conn.interested
    && s.conns[p].has == w.conn.has && s.conns[p].inFlight == w.conn.inFlight
  }

  /** The loop, from a state that matches. */
  lemma LoopMatches(t: Torrent, s: Sys, w: H.World, clock: H.Clock) returns (ls: seq<Label>, s': Sys)
    requires t.Valid() && Inv(t, s) && s.io.Scheduling? && Matches(s, s.io.peer, w)
    ensures H.WorldOk(t, w)
    ensures Leads(t, s, ls, s') && s'.io.Ready? && Matches(s', s.io.peer, H.AfterRequests(t, w, s.io.peer, clock))
    ensures Own(ls)
  {
    hide CoreOk, Inv, Leads, H.Requests, Own;
    ls := LoopRuns(t, s, clock, 0);
    var p := s.io.peer;
    var r := H.Requests(t, s.core, s.conns[p].has, p, clock, 0, BudgetOf(s.conns[p]));
    s' := AfterLoop(s, p, r.0, r.1);
  }

  /** One step, then the loop. */
  lemma StepThenLoop(t: Torrent, s: Sys, l: Label, p: nat, w: H.World, clock: H.Clock) returns (ls: seq<Label>, s': Sys)
    requires t.Valid() && Inv(t, s) && Enabled(t, s, l)
    requires Step(t, s, l).io == Scheduling(p) && Matches(Step(t, s, l), p, w)
    ensures H.WorldOk(t, w)
    ensures Leads(t, s, ls, s') && s'.io.Ready? && Matches(s', p, H.AfterRequests(t, w, p, clock))
    ensures StartsWith(ls, l)
  {
    hide Inv, Enabled, Step, Leads, Matches, H.WorldOk, Own;
    StepKeeps(t, s, l);
    var rest, end := LoopMatches(t, Step(t, s, l), w, clock);
    LeadsOne(t, s, l, rest, end);
    Starts(l, rest);
    ls, s' := [l] + rest, end;
  }

  lemma UnchokeRuns(t: Torrent, s: Sys, p: nat, w: H.World, content: seq<byte>, clock: H.Clock)
    returns (ls: seq<Label>, s': Sys)
    requires t.Valid() && Inv(t, s) && s.io.Ready? && Matches(s, p, w) && H.WorldOk(t, w)
    ensures Leads(t, s, ls, s') && s'.io.Ready? && Matches(s', p, H.OnMessage(t, w, content, p, clock, [1]))
    ensures StartsWith(ls, Unchoke(p))
  {
    hide CoreOk, H.AfterRequests;
    var w' := w.(conn := w.conn.(choked := false));
    if w.conn.interested {
      ls, s' := StepThenLoop(t, s, Unchoke(p), p, w', clock);
    } else {
      s' := Step(t, s, Unchoke(p));
      assert Leads(t, s', [], s');
      LeadsOne(t, s, Unchoke(p), [], s');
      ls := [Unchoke(p)];
    }
    assert [1 as byte][1..] == [];
  }

  lemma ChokeRuns(t: Torrent, s: Sys, p: nat, w: H.World, content: seq<byte>, clock: H.Clock)
    returns (ls: seq<Label>, s': Sys)
    requires t.Valid() && Inv(t, s) && s.io.Ready? && Matches(s, p, w) && H.WorldOk(t, w)
    ensures Leads(t, s, ls, s') && s'.io.Ready? && Matches(s', p, H.OnMessage(t, w, content, p, clock, [0]))
    ensures ls == [Choke(p)]
  {
    s' := Step(t, s, Choke(p));
    assert Leads(t, s', [], s');
    LeadsOne(t, s, Choke(p), [], s');
    ls := [Choke(p)];
  }

  lemma HaveRuns(t: Torrent, s: Sys, p: nat, w: H.World, clock: H.Clock, payload: seq<byte>)
    returns (ls: seq<Label>, s': Sys)
    requires t.Valid() && Inv(t, s) && s.io.Ready? && Matches(s, p, w) && H.WorldOk(t, w)
    requires |payload| >= 4 ==> 0 <= Int32At(payload, 0) < |t.hashes|
    ensures Leads(t, s, ls, s') && s'.io.Ready? && Matches(s', p, H.OnHave(t, w, p, clock, payload))
    ensures if |payload| < 4 then ls == [] else StartsWith(ls, Have(p, Int32At(payload, 0)))
  {
    hide CoreOk, H.AfterRequests, StartsWith;
    if |payload| < 4 {
      return [], s;
    }
    var i := Int32At(payload, 0);
    var w' := H.WithInterest(w.(conn := w.conn.(has := w.conn.has[i := true])));
    ls, s' := StepThenLoop(t, s, Have(p, i), p, w', clock);
  }

  lemma BitfieldRuns(t: Torrent, s: Sys, p: nat, w: H.World, clock: H.Clock, payload: seq<byte>)
    returns (ls: seq<Label>, s': Sys)
    requires t.Valid() && Inv(t, s) && s.io.Ready? && Matches(s, p, w) && H.WorldOk(t, w)
    ensures Leads(t, s, ls, s') && s'.io.Ready? && Matches(s', p, H.OnBitfield(t, w, p, clock, payload))
    ensures StartsWith(ls, Announce(p, seq(|t.hashes|, k requires 0 <= k => HasPiece(payload, k))))
  {
    hide CoreOk, H.AfterRequests, StartsWith;
    var bits := seq(|t.hashes|, k requires 0 <= k => HasPiece(payload, k));
    assert SetAll(w.conn.has, bits) == H.WithBits(w.conn.has, payload);
    var w' := H.WithInterest(w.(conn := w.conn.(has := H.WithBits(w.conn.has, payload))));
    ls, s' := StepThenLoop(t, s, Announce(p, bits), p, w', clock);
  }

  /** From the end of `add_block`'s critical section to the loop head. */
  lemma TailRuns(t: Torrent, s: Sys, w: H.World, clock: H.Clock) returns (ls: seq<Label>, s': Sys)
    requires t.Valid() && Inv(t, s) && s.io.Marking?
    requires s.io.piece / 8 < |s.core.bitfield|
    requires var i := s.io.piece;
             var c := PieceCore.AppendRecord(PieceCore.Enqueue(PieceCore.Mark(s.core, i), i), i);
             Matches(s.(core := c), s.io.peer, w)
    ensures H.WorldOk(t, w)
    ensures Leads(t, s, ls, s') && s'.io.Ready? && Matches(s', s.io.peer, H.AfterRequests(t, w, s.io.peer, clock))
    ensures Own(ls)
  {
    hide Inv, Leads, H.AfterRequests, MarkPiece, H.WorldOk, Own, StartsWith;
    SchedulingShape(t, s);
    var s1 := Step(t, s, Label.Mark);
    StepKeeps(t, s, Label.Mark);
    SchedulingShape(t, s1);
    var s2 := Step(t, s1, Label.Notify);
    StepKeeps(t, s1, Label.Notify);
    SchedulingShape(t, s2);
    var s3 := Step(t, s2, Label.Enqueue);
    StepKeeps(t, s2, Label.Enqueue);
    SchedulingShape(t, s3);
    var rest, end := StepThenLoop(t, s3, Label.Append, s.io.peer, w, clock);
    LeadsOne(t, s2, Label.Enqueue, rest, end);
    LeadsOne(t, s1, Label.Notify, [Label.Enqueue] + rest, end);
    LeadsOne(t, s, Label.Mark, [Label.Notify] + ([Label.Enqueue] + rest), end);
    OwnAll(rest, Label.Append);
    OwnMore(Label.Enqueue, rest);
    OwnMore(Label.Notify, [Label.Enqueue] + rest);
    OwnMore(Label.Mark, [Label.Notify] + ([Label.Enqueue] + rest));
    ls, s' := [Label.Mark] + ([Label.Notify] + ([Label.Enqueue] + rest)), end;
  }

  lemma OwnAll(ls: seq<Label>, l: Label)
    requires StartsWith(ls, l) && OwnStep(l)
    ensures Own(ls)
  {
    assert forall k :: 0 < k < |ls| ==> ls[k] == ls[1..][k - 1];
  }

  lemma StoreStep(t: Torrent, s: Sys)
    requires t.Valid() && Inv(t, s) && s.io.Storing?
    ensures Enabled(t, s, Label.Store)
    ensures var (c, r) := PieceCore.Store(t, s.core, s.io.piece, s.io.block * BLOCK, s.io.bytes);
            var s' := Step(t, s, Label.Store);
            && s'.core == c && s'.io == (if r == Completed then Marking(s.io.peer, s.io.piece) else Scheduling(s.io.peer))
            && s'.conns.Keys == s.conns.Keys
            && (forall p :: p in s.conns ==> s'.conns[p] == s.conns[p].(stolen := s'.conns[p].stolen, stale := s'.conns[p].stale))
            && s.io.piece / 8 < |c.bitfield|
  {
    hide StoreBlock, PieceOk;
    StoreBlockOk(t, s.io.piece, s.core.pieces[s.io.piece], s.io.block, s.io.bytes);
  }

  /** From the lock of `add_block` to the end of the handler. */
  lemma StoreRuns(t: Torrent, s: Sys, w: H.World, clock: H.Clock) returns (ls: seq<Label>, s': Sys)
    requires t.Valid() && Inv(t, s) && s.io.Storing?
    requires Sized(t, s.core) && s.io.piece < |t.hashes|
    requires StoreInRange(s.core.pieces[s.io.piece], s.io.block * BLOCK, s.io.bytes)
    requires Matches(s.(core := AddBlockWhole(t, s.core, s.io.piece, s.io.block * BLOCK, s.io.bytes)), s.io.peer, w)
    ensures H.WorldOk(t, w)
    ensures Leads(t, s, ls, s') && s'.io.Ready? && Matches(s', s.io.peer, H.AfterRequests(t, w, s.io.peer, clock))
    ensures Own(ls)
  {
    hide Own, StartsWith, Inv, Sized, PieceCore.Store, Leads, MarkPiece, StoreInRange, H.WorldOk, H.AfterRequests;
    StoreStep(t, s);
    var s1 := Step(t, s, Label.Store);
    if s1.io.Marking? {
      StepKeeps(t, s, Label.Store);
      var tail;
      tail, s' := TailRuns(t, s1, w, clock);
      LeadsOne(t, s, Label.Store, tail, s');
      OwnMore(Label.Store, tail);
      ls := [Label.Store] + tail;
    } else {
      ls, s' := StepThenLoop(t, s, Label.Store, s.io.peer, w, clock);
      OwnAll(ls, Label.Store);
    }
  }

  /** `handle_piece` for an answer to a request this connection sent. */
  lemma PieceRuns(t: Torrent, s: Sys, p: nat, w: H.World, clock: H.Clock, payload: seq<byte>)
    returns (ls: seq<Label>, s': Sys)
    requires t.Valid() && Inv(t, s) && s.io.Ready? && Matches(s, p, w) && H.WorldOk(t, w)
    requires |payload| >= 8 ==> Answers(t, w.core, Int32At(payload, 0), Int32At(payload, 4), payload[8..])
    requires |payload| >= 8 ==> Request(p, Int32At(payload, 0), Int32At(payload, 4) / BLOCK) in s.asked
    ensures Leads(t, s, ls, s') && s'.io.Ready? && Matches(s', p, H.OnPiece(t, w, p, clock, payload))
    ensures |payload| >= 8 ==>
              && 0 <= Int32At(payload, 0) && 0 <= Int32At(payload, 4)
              && StartsWith(ls, Answer(p, Int32At(payload, 0), Int32At(payload, 4) / 16384, payload[8..]))
    ensures |payload| < 8 ==> ls == []
  {
    hide Own, StartsWith, CoreOk, H.AfterRequests, Inv, Sized, Leads, AddBlockWhole, Int32At, StoreInRange, H.News;
    if |payload| < 8 {
      LeadsNothing(t, s);
      return [], s;
    }
    var i, begin, bytes := Int32At(payload, 0), Int32At(payload, 4), payload[8..];
    var j := begin / BLOCK;
    assert begin == j * BLOCK;
    var l := Answer(p, i, j, bytes);
    InvShaped(t, s);
    StepKeeps(t, s, l);
    FinishSound(t, w.core, i, begin, bytes);
    var w' := w.(core := AddBlockWhole(t, w.core, i, begin, bytes),
                 conn := w.conn.(inFlight := w.conn.inFlight - 1),
                 sent := w.sent + if w.listed then H.News(t, w.core, payload) else []);
    var rest;
    rest, s' := StoreRuns(t, Step(t, s, l), w', clock);
    LeadsOne(t, s, l, rest, s');
    Starts(l, rest);
    ls := [l] + rest;
  }

  lemma LeadsNothing(t: Torrent, s: Sys)
    requires t.Valid()
    ensures Leads(t, s, [], s)
  {
  }

  lemma InvShaped(t: Torrent, s: Sys)
    requires t.Valid() && Inv(t, s)
    ensures Shaped(t, s)
  {
  }

  /** The labels a peer's message can stand for. */
  ghost predicate Asks(s: Sys, p: nat, body: Body) {
    body != [] && body[0] == 7 && |body| >= 9 ==>
      Int32At(body[1..], 0) >= 0 && Int32At(body[1..], 4) >= 0
      && Request(p, Int32At(body[1..], 0), Int32At(body[1..], 4) / BLOCK) in s.asked
  }

  /**
   * The run a message stands for: what the peer says, told by the first byte, and then only the io thread's own
   * steps. Messages that concern neither our requests nor the peer's pieces, and short ones, are no step at all.
   */
  ghost predicate RunOf(t: Torrent, p: nat, body: Body, ls: seq<Label>) {
    if body == [] then ls == []
    else
      var payload := body[1..];
      match body[0]
      case 0 => ls == [Choke(p)]
      case 1 => StartsWith(ls, Unchoke(p))
      case 4 =>
        if |payload| < 4 then ls == []
        else Int32At(payload, 0) >= 0 && StartsWith(ls, Have(p, Int32At(payload, 0)))
      case 5 => StartsWith(ls, Announce(p, seq(|t.hashes|, k requires 0 <= k => HasPiece(payload, k))))
      case 7 =>
        if |payload| < 8 then ls == []
        else
          && Int32At(payload, 0) >= 0 && Int32At(payload, 4) >= 0
          && StartsWith(ls, Answer(p, Int32At(payload, 0), Int32At(payload, 4) / 16384, payload[8..]))
      case _ => ls == []
  }

  /**
   * Handling one message, with nothing else running, is the run of the transition system the message stands for; it
   * starts and ends between handlers and leaves the same piece manager and connection.
   */
  lemma MessageRuns(t: Torrent, s: Sys, p: nat, w: H.World, content: seq<byte>, clock: H.Clock, body: Body)
    returns (ls: seq<Label>, s': Sys)
    requires t.Valid() && Inv(t, s) && s.io.Ready? && Matches(s, p, w) && H.WorldOk(t, w)
    requires H.Acceptable(t, w, body) && Asks(s, p, body)
    ensures Leads(t, s, ls, s') && s'.io.Ready? && Matches(s', p, H.OnMessage(t, w, content, p, clock, body))
    ensures RunOf(t, p, body, ls)
  {
    hide StartsWith, Inv, Leads, H.OnHave, H.OnBitfield, H.OnPiece, H.AfterRequests, Answers, H.WorldOk;
    LeadsNothing(t, s);
    ls, s' := [], s;
    if body != [] {
      var payload := body[1..];
      match body[0]
      case 0 => ls, s' := ChokeRuns(t, s, p, w, content, clock);
      case 1 => ls, s' := UnchokeRuns(t, s, p, w, content, clock);
      case 4 => ls, s' := HaveRuns(t, s, p, w, clock, payload);
      case 5 => ls, s' := BitfieldRuns(t, s, p, w, clock, payload);
      case 7 => ls, s' := PieceRuns(t, s, p, w, clock, payload);
      case _ =>
    }
  }
}
