/** What the handlers say and do, in bytes, and how two connections come to exchange requests. */
module Dialogue {
  import opened Bytes
  import opened Layout
  import opened Bits
  import opened PieceCore
  import opened CoreInvariant
  import opened Wire
  import opened WireFormat
  import opened Handlers
  import opened Effects
  import opened PieceInvariant

  // ---------------------------------------------------------------- requests

  /** The frame asks for the whole block `b`. */
  ghost predicate AsksFor(t: Torrent, frame: seq<byte>, b: BlockId)
    requires t.Valid()
  {
    && b.piece < |t.hashes| && b.block * 16384 < t.PieceLen(b.piece)
    && |frame| == 17 && BigEndian(frame, 0) == 13 && frame[4] == 6
    && BigEndian(frame, 5) == b.piece && BigEndian(frame, 9) == b.block * 16384
    && BigEndian(frame, 13)
       == if t.PieceLen(b.piece) - b.block * 16384 > 16384 then 16384 else t.PieceLen(b.piece) - b.block * 16384
  }

  /** From `w` to `r` the blocks `ids` were asked for: in order, one frame and one credit each. */
  ghost predicate Asked(t: Torrent, w: World, r: World, ids: seq<BlockId>)
    requires t.Valid()
  {
    && FirstOpenBlocks(t, w.core.pieces, r.core.pieces, w.conn.has, ids)
    && r.conn == w.conn.(inFlight := w.conn.inFlight + |ids|)
    && |r.sent| == |w.sent| + |ids| && r.sent[..|w.sent|] == w.sent
    && forall x :: 0 <= x < |ids| ==> AsksFor(t, r.sent[|w.sent| + x], ids[x])
  }

  /** Asking goes on until the connection is choked, has twenty requests out, or nothing is left to ask its peer. */
  ghost predicate Exhausted(t: Torrent, r: World)
    requires t.Valid() && |r.core.pieces| == |r.conn.has| == |t.hashes|
  {
    r.conn.choked || r.conn.inFlight >= 20 || forall i, j :: !Open(t, r.core.pieces, r.conn.has, i, j)
  }

  ghost predicate Wired(t: Torrent) {
    t.Valid() && |t.hashes| <= 0x8000_0000 && t.pieceLength < 0x8000_0000
  }

  lemma FrameAsks(t: Torrent, pieces: seq<PieceBuffer>, has: seq<bool>, b: BlockId)
    requires Wired(t) && |pieces| == |has| == |t.hashes| && Open(t, pieces, has, b.piece, b.block)
    ensures b.piece < |t.hashes| && AsksFor(t, RequestFrame(t, b), b)
  {
    hide BigEndian, Frame, RequestBody;
    var len := t.PieceLen(b.piece);
    assert b.block < (len + 16383) / 16384;
    RequestLayout(b.piece, b.block * 16384, if 16384 < len - b.block * 16384 then 16384 else len - b.block * 16384);
  }

  /** What the request loop puts on the wire. */
  lemma Asking(t: Torrent, w: World, peer: nat, clock: Clock)
    requires Wired(t) && WorldOk(t, w)
    ensures var r := AfterRequests(t, w, peer, clock);
            && |r.core.pieces| == |r.conn.has| == |t.hashes| && Exhausted(t, r)
            && exists ids :: Asked(t, w, r, ids)
  {
    hide CoreOk, Requests, FirstOpenBlocks, AsksFor, Open, RequestFrame;
    var r := AfterRequests(t, w, peer, clock);
    var ids := Requests(t, w.core, w.conn.has, peer, clock, 0, BudgetOf(w)).1;
    StopReason(t, w, peer, clock);
    RequestsInOrder(t, w.core, w.conn.has, peer, clock, 0, BudgetOf(w));
    OpenOnes(t, w.core.pieces, r.core.pieces, w.conn.has, ids);
    forall x | 0 <= x < |ids|
      ensures AsksFor(t, r.sent[|w.sent| + x], ids[x])
    {
      FrameAsks(t, w.core.pieces, w.conn.has, ids[x]);
      assert r.sent[|w.sent| + x] == RequestFrames(t, ids)[x];
    }
    assert Asked(t, w, r, ids);
  }

  lemma OpenOnes(t: Torrent, before: seq<PieceBuffer>, after: seq<PieceBuffer>, has: seq<bool>, ids: seq<BlockId>)
    requires t.Valid() && FirstOpenBlocks(t, before, after, has, ids)
    ensures |before| == |after| == |has| == |t.hashes|
    ensures forall x :: 0 <= x < |ids| ==> Open(t, before, has, ids[x].piece, ids[x].block)
  {
  }

  // ---------------------------------------------------------------- messages that are told by their first byte

  /** The messages that change flags alone, those that are answered at once, and those that are ignored. */
  lemma Flags(t: Torrent, w: World, content: seq<byte>, peer: nat, clock: Clock, body: Body)
    requires t.Valid() && WorldOk(t, w) && Acceptable(t, w, body)
    ensures var r := OnMessage(t, w, content, peer, clock, body);
            && (body == [] ==> r == w)
            && (body != [] && body[0] == 0 ==> r == w.(conn := w.conn.(choked := true)))
            && (body != [] && body[0] == 1 && !w.conn.interested ==> r == w.(conn := w.conn.(choked := false)))
            && (body != [] && body[0] == 2 ==>
                  r == w.(conn := w.conn.(peerInterested := true, peerChoked := false), sent := w.sent + [[0, 0, 0, 1, 1]]))
            && (body != [] && body[0] == 3 ==> r == w.(conn := w.conn.(peerInterested := false)))
            && (body != [] && body[0] > 7 ==> r == w)
            && (body != [] && body[0] == 4 && |body| < 5 ==> r == w)
            && (body != [] && body[0] == 6 && |body| < 13 ==> r == w)
            && (body != [] && body[0] == 7 && |body| < 9 ==> r == w)
  {
    hide CoreOk, AfterRequests, OnBitfield, Frame, Answers, News, AddBlockWhole;
    ShortFrames();
  }

  /** Being unchoked while interested starts the asking. */
  lemma Unchoked(t: Torrent, w: World, content: seq<byte>, peer: nat, clock: Clock, body: Body)
    requires Wired(t) && WorldOk(t, w) && Acceptable(t, w, body) && body != [] && body[0] == 1 && w.conn.interested
    ensures var r := OnMessage(t, w, content, peer, clock, body);
            && !r.conn.choked && |r.core.pieces| == |r.conn.has| == |t.hashes| && Exhausted(t, r)
            && exists ids :: Asked(t, w.(conn := w.conn.(choked := false)), r, ids)
  {
    hide CoreOk, AfterRequests, Asked, Exhausted;
    Asking(t, w.(conn := w.conn.(choked := false)), peer, clock);
    StopReason(t, w.(conn := w.conn.(choked := false)), peer, clock);
  }

  // ---------------------------------------------------------------- news of pieces

  /** `has` with the pieces the message announces: one for a have, the set bits for a bitfield. */
  ghost predicate Learned(has: seq<bool>, body: Body, has': seq<bool>)
    requires body != [] && (body[0] == 4 || body[0] == 5)
  {
    && |has'| == |has|
    && forall i :: 0 <= i < |has| ==>
         (has'[i] <==> has[i] || if body[0] == 4 then |body| >= 5 && BigEndian(body, 1) == i
                                 else i / 8 + 1 < |body| && body[1 + i / 8] / Weight(i) % 2 == 1)
  }

  /** What the connection is before it starts asking: it knows the pieces, and has said, once, that it is interested. */
  ghost predicate Told(w: World, body: Body, m: World)
    requires body != [] && (body[0] == 4 || body[0] == 5)
  {
    && Learned(w.conn.has, body, m.conn.has)
    && m == w.(conn := w.conn.(has := m.conn.has, interested := true),
               sent := w.sent + if w.conn.interested then [] else [[0, 0, 0, 1, 2]])
  }

  lemma HaveLearned(t: Torrent, w: World, body: Body)
    requires t.Valid() && |w.conn.has| == |t.hashes| && |body| >= 5 && body[0] == 4
    requires 0 <= Int32At(body[1..], 0) < |t.hashes|
    ensures Learned(w.conn.has, body, w.conn.has[Int32At(body[1..], 0) := true])
  {
    NumbersAreBigEndian(body[1..], 0);
    assert BigEndian(body[1..], 0) == BigEndian(body, 1);
    BigEndianRange(body, 1);
  }

  lemma BigEndianRange(b: seq<byte>, at: nat)
    requires at + 4 <= |b|
    ensures 0 <= BigEndian(b, at) < 0x1_0000_0000
  {
  }

  lemma BitsLearned(has: seq<bool>, body: Body)
    requires body != [] && body[0] == 5
    ensures Learned(has, body, WithBits(has, body[1..]))
  {
    hide HasPiece, Weight;
    forall i | 0 <= i < |has|
      ensures WithBits(has, body[1..])[i] <==> has[i] || (i / 8 + 1 < |body| && body[1 + i / 8] / Weight(i) % 2 == 1)
    {
      BitOrder(body[1..], i);
    }
  }

  /**
   * A have or a bitfield: the connection learns the announced pieces, says that it is interested if it has not said
   * so, and then asks.
   */
  lemma NewsHandled(t: Torrent, w: World, content: seq<byte>, peer: nat, clock: Clock, body: Body)
    requires Wired(t) && WorldOk(t, w) && Acceptable(t, w, body) && body != []
    requires body[0] == 5 || (body[0] == 4 && |body| >= 5)
    ensures var r := OnMessage(t, w, content, peer, clock, body);
            && |r.core.pieces| == |r.conn.has| == |t.hashes| && Exhausted(t, r)
            && exists m, ids :: Told(w, body, m) && Asked(t, m, r, ids)
  {
    hide CoreOk, AfterRequests, Asked, Exhausted, Learned, Frame, WithBits;
    ShortFrames();
    var has := if body[0] == 4 then w.conn.has[Int32At(body[1..], 0) := true] else WithBits(w.conn.has, body[1..]);
    var m := WithInterest(w.(conn := w.conn.(has := has)));
    if body[0] == 4 {
      HaveLearned(t, w, body);
    } else {
      BitsLearned(w.conn.has, body);
    }
    if w.conn.interested {
      assert w.sent + [] == w.sent;
    }
    assert Told(w, body, m);
    Asking(t, m, peer, clock);
  }

  // ---------------------------------------------------------------- answers

  /** The connection before it asks again: one credit back, and the have frame if the answer completed its piece. */
  ghost predicate Credited(t: Torrent, w: World, i: nat, m: World)
    requires t.Valid() && i < |w.core.pieces| == |m.core.pieces|
  {
    && m.conn == w.conn.(inFlight := w.conn.inFlight - 1) && m.listed == w.listed
    && if w.listed && !w.core.pieces[i].isComplete && m.core.pieces[i].isComplete then
         |m.sent| == |w.sent| + 1 && m.sent[..|w.sent|] == w.sent && TellsOf(m.sent[|w.sent|], i)
       else m.sent == w.sent
  }

  ghost predicate TellsOf(frame: seq<byte>, i: nat) {
    |frame| == 9 && BigEndian(frame, 0) == 5 && frame[4] == 4 && BigEndian(frame, 5) == i
  }

  lemma CompletesMeans(t: Torrent, c: Core, i: nat, begin: nat, block: seq<byte>)
    requires t.Valid() && CoreOk(t, c) && Answers(t, c, i, begin, block)
    ensures |c.pieces| == |t.hashes| && |AddBlockWhole(t, c, i, begin, block).pieces| == |c.pieces|
    ensures Completes(t, c, i, begin, block)
       <==> !c.pieces[i].isComplete && AddBlockWhole(t, c, i, begin, block).pieces[i].isComplete
  {
    hide StoreBlock, PieceOk, MarkPiece, StoreInRange;
    assert begin == begin / BLOCK * BLOCK;
    StoreRight(t, i, c.pieces[i], begin / BLOCK, block);
    FinishSound(t, c, i, begin, block);
  }

  /** A piece message: the credit, the news, and then the asking. */
  lemma AnswerHandled(t: Torrent, w: World, content: seq<byte>, peer: nat, clock: Clock, body: Body)
    requires Wired(t) && WorldOk(t, w) && Acceptable(t, w, body) && |body| >= 9 && body[0] == 7
    ensures 0 <= Int32At(body[1..], 0) < |t.hashes| == |w.core.pieces|
    ensures var r := OnMessage(t, w, content, peer, clock, body);
            && |r.core.pieces| == |r.conn.has| == |t.hashes| && Exhausted(t, r)
            && exists m: World, ids :: |m.core.pieces| == |t.hashes| && Credited(t, w, Int32At(body[1..], 0), m) && Asked(t, m, r, ids)
  {
    hide CoreOk, AfterRequests, Asked, Exhausted, AddBlockWhole, Completes, Frame, HaveBody, BigEndian, Int32At, StoreInRange;
    var payload := body[1..];
    var i, begin, block := Int32At(payload, 0), Int32At(payload, 4), payload[8..];
    CoreOkPieces(t, w.core);
    CompletesMeans(t, w.core, i, begin, block);
    FinishSound(t, w.core, i, begin, block);
    HaveLayout(i);
    var m := w.(core := AddBlockWhole(t, w.core, i, begin, block),
                conn := w.conn.(inFlight := w.conn.inFlight - 1),
                sent := w.sent + if w.listed then News(t, w.core, payload) else []);
    assert Credited(t, w, i, m);
    Asking(t, m, peer, clock);
  }

  // ---------------------------------------------------------------- from a have to requests

  /** The one body a frame of these carries. */
  lemma Carries(body: Body)
    requires 0 < |body| < 0x1_0000_0000
    ensures Delivered(Frame(body)) == [body]
  {
    hide Frame;
    FirstFrame(body, []);
    assert Frame(body) + [] == Frame(body);
    assert [body] + Delivered([]) == [body];
  }

  /**
   * Two connections, from the first have to requests, each side handling the very frames the other sent: `b`'s
   * instance completes a piece and tells `a`; `a` is choked, says that it is interested and no more; `b` notes that
   * and unchokes it; `a` asks for what `b` announced.
   */
  lemma FirstRequests(t: Torrent, a: World, b: World, i: nat, contentA: seq<byte>, contentB: seq<byte>,
                      pa: nat, pb: nat, clock0: Clock, clock1: Clock, clock2: Clock)
    requires Wired(t) && WorldOk(t, a) && WorldOk(t, b) && i < |t.hashes|
    requires a.conn.choked && !a.conn.interested
    ensures var news := Frame(HaveBody(i));
            && |news| == 9 && news[4] == 4 && BigEndian(news, 5) == i
            && Delivered(news) == [HaveBody(i)] && Acceptable(t, a, HaveBody(i))
            && var a1 := OnMessage(t, a, contentA, pa, clock0, HaveBody(i));
            && a1 == a.(conn := a.conn.(has := a.conn.has[i := true], interested := true), sent := a.sent + [[0, 0, 0, 1, 2]])
            && Delivered(a1.sent[|a.sent|]) == [[2]] && Acceptable(t, b, [2])
            && var b1 := OnMessage(t, b, contentB, pb, clock1, [2]);
            && b1 == b.(conn := b.conn.(peerInterested := true, peerChoked := false), sent := b.sent + [[0, 0, 0, 1, 1]])
            && Delivered(b1.sent[|b.sent|]) == [[1]] && Acceptable(t, a1, [1])
            && var a2 := OnMessage(t, a1, contentA, pa, clock2, [1]);
            && !a2.conn.choked && |a2.core.pieces| == |a2.conn.has| == |t.hashes| && Exhausted(t, a2)
            && exists ids :: Asked(t, a1.(conn := a1.conn.(choked := false)), a2, ids)
  {
    hide CoreOk, Frame, HaveBody, Exhausted, Asked, BigEndian, OnMessage, Delivered, Acceptable;
    HaveLayout(i);
    HaveIsRead(t, a, i);
    Carries(HaveBody(i));
    Quiet(t, a, contentA, pa, clock0, i);
    var a1 := OnMessage(t, a, contentA, pa, clock0, HaveBody(i));
    ShortFrames();
    Carries([2]);
    Carries([1]);
    ShortAccepted(t, b, [2]);
    Flags(t, b, contentB, pb, clock1, [2]);
    ShortAccepted(t, a1, [1]);
    Unchoked(t, a1, contentA, pa, clock2, [1]);
  }

  lemma ShortAccepted(t: Torrent, w: World, body: Body)
    requires t.Valid() && |body| == 1 && body[0] != 5
    ensures Acceptable(t, w, body)
  {
  }

  lemma HaveIsRead(t: Torrent, w: World, i: nat)
    requires Wired(t) && i < |t.hashes|
    ensures Acceptable(t, w, HaveBody(i)) && |HaveBody(i)| == 5 && HaveBody(i)[0] == 4 && Int32At(HaveBody(i)[1..], 0) == i
  {
    HaveRoundTrip(i);
  }

  /** A choked connection only says that it is interested. */
  lemma Quiet(t: Torrent, a: World, content: seq<byte>, p: nat, clock: Clock, i: nat)
    requires Wired(t) && WorldOk(t, a) && i < |t.hashes| && a.conn.choked && !a.conn.interested
    requires Acceptable(t, a, HaveBody(i))
    ensures OnMessage(t, a, content, p, clock, HaveBody(i))
         == a.(conn := a.conn.(has := a.conn.has[i := true], interested := true), sent := a.sent + [[0, 0, 0, 1, 2]])
    ensures WorldOk(t, OnMessage(t, a, content, p, clock, HaveBody(i)))
  {
    hide CoreOk, Frame, HaveBody, AfterRequestsFrom;
    HaveIsRead(t, a, i);
    ShortFrames();
    var m := WithInterest(a.(conn := a.conn.(has := a.conn.has[i := true])));
    NoRequests(t, m, p, clock, 0);
  }
}
