/** What the message handlers of a connection do, as functions of the connection's state and the piece manager's. */
module Handlers {
  import opened Bytes
  import opened Layout
  import opened Bits
  import opened PieceCore
  import opened PieceInvariant
  import opened CoreInvariant
  import opened Wire

  /** `clock` supplies the successive readings of the steady clock. */
  type Clock = nat -> int

  /** Block `j` of piece `i` could be asked for: nothing here mentions whether the piece is allocated yet. */
  predicate Open(t: Torrent, pieces: seq<PieceBuffer>, has: seq<bool>, i: nat, j: nat)
    requires t.Valid() && |pieces| == |has| == |t.hashes|
  {
    && i < |pieces| && has[i] && !pieces[i].isComplete
    && j < t.BlockCount(i)
    && (j < |pieces[i].status| ==> pieces[i].status[j] == NotRequested)
  }

  lemma OpenBlocks(t: Torrent, pieces: seq<PieceBuffer>, has: seq<bool>, i: nat)
    requires t.Valid() && PiecesOk(t, pieces) && |pieces| == |has| && i < |pieces| && has[i] && !pieces[i].isComplete
    ensures var q := MaybeInit(t, i, pieces[i]);
            && |q.status| == t.BlockCount(i)
            && forall j :: 0 <= j < t.BlockCount(i) ==> (Open(t, pieces, has, i, j) <==> q.status[j] == NotRequested)
  {
    MaybeInitOk(t, i, pieces[i]);
  }

  /** The scan from piece `from` finds the lexicographically least open block, and finds one if there is one. */
  lemma {:induction false} ScanFindsLeast(t: Torrent, pieces: seq<PieceBuffer>, has: seq<bool>, from: nat)
    requires t.Valid() && PiecesOk(t, pieces) && from <= |pieces| == |has|
    ensures match FirstOpen(t, pieces, has, from)
            case None => forall i, j :: from <= i ==> !Open(t, pieces, has, i, j)
            case Some(b) =>
              && from <= b.piece && Open(t, pieces, has, b.piece, b.block)
              && forall i, j :: from <= i && Open(t, pieces, has, i, j) ==> b.piece < i || (b.piece == i && b.block <= j)
    decreases |pieces| - from
  {
    hide PieceOk, Torrent.Valid, Torrent.BlockCount;
    if from == |pieces| {
    } else {
      ScanFindsLeast(t, pieces, has, from + 1);
      if !pieces[from].isComplete && has[from] {
        OpenBlocks(t, pieces, has, from);
      }
    }
  }

  // ---------------------------------------------------------------- the request loop

  function RequestFrame(t: Torrent, b: BlockId): seq<byte>
    requires t.Valid() && b.piece < |t.hashes|
  {
    var rest := t.PieceLen(b.piece) - b.block * BLOCK;
    Frame(RequestBody(b.piece, b.block * BLOCK, if BLOCK < rest then BLOCK else rest))
  }

  /** The loop of `maybe_request_next` with `budget` requests to go: the blocks granted, in order. */
  function Requests(t: Torrent, c: Core, has: seq<bool>, peer: nat, clock: Clock, k: nat, budget: nat): (r: (Core, seq<BlockId>))
    requires t.Valid() && CoreOk(t, c) && |has| == |t.hashes|
    ensures CoreOk(t, r.0) && |r.1| <= budget
    ensures forall x :: 0 <= x < |r.1| ==> r.1[x].piece < |t.hashes|
    decreases budget
  {
    CoreOkPieces(t, c);
    if budget == 0 then (c, [])
    else
      NextBlockSound(t, c, has, clock(k), peer);
      NextBlockCases(t, c, has, clock(k), peer);
      var (c', b) := NextBlock(t, c, has, clock(k), peer);
      match b
      case None => (c', [])
      case Some(id) =>
        var (c'', ids) := Requests(t, c', has, peer, clock, k + 1, budget - 1);
        (c'', [id] + ids)
  }

  /** The loop stops with its budget used up or with nothing open. */
  lemma {:induction false} RequestsStop(t: Torrent, c: Core, has: seq<bool>, peer: nat, clock: Clock, k: nat, budget: nat)
    requires t.Valid() && CoreOk(t, c) && |has| == |t.hashes|
    ensures var (c', ids) := Requests(t, c, has, peer, clock, k, budget);
            |ids| < budget ==> forall i, j :: !Open(t, c'.pieces, has, i, j)
    decreases budget
  {
    hide CoreOk, PiecesOk, Open, NextBlock;
    if budget == 0 {
    } else {
      CoreOkPieces(t, c);
      NextBlockSound(t, c, has, clock(k), peer);
      var (c', b) := NextBlock(t, c, has, clock(k), peer);
      if b.Some? {
        RequestsStop(t, c', has, peer, clock, k + 1, budget - 1);
      } else {
        GrantTakesLeast(t, c, has, clock(k), peer);
        NothingOpen(t, c, has, clock(k), peer);
      }
    }
  }

  /** A grant takes exactly the least open block, and leaves every other block as open as it was. */
  lemma GrantTakesLeast(t: Torrent, c: Core, has: seq<bool>, now: int, peer: nat)
    requires t.Valid() && CoreOk(t, c) && Sized(t, c) && |has| == |t.hashes|
    ensures var (c', b) := NextBlock(t, c, has, now, peer);
            && |c'.pieces| == |c.pieces|
            && (b.None? ==> forall i, j :: !Open(t, c.pieces, has, i, j))
            && (b.Some? ==> Open(t, c.pieces, has, b.value.piece, b.value.block))
            && (b.Some? ==> forall i, j :: Open(t, c.pieces, has, i, j) ==>
                  b.value.piece < i || (b.value.piece == i && b.value.block <= j))
            && (b.Some? ==> forall i, j ::
                  Open(t, c'.pieces, has, i, j) <==> Open(t, c.pieces, has, i, j) && BlockId(i, j) != b.value)
  {
    NextBlockCases(t, c, has, now, peer);
    ScanFindsLeast(t, c.pieces, has, 0);
    var (c', b) := NextBlock(t, c, has, now, peer);
    if b.Some? {
      MaybeInitOk(t, b.value.piece, c.pieces[b.value.piece]);
    }
  }

  predicate Before(a: BlockId, b: BlockId) {
    a.piece < b.piece || (a.piece == b.piece && a.block < b.block)
  }

  /**
   * `ids` are the first open blocks, in order: each is open, later ones come later, no open block is passed over,
   * and exactly these blocks stop being open.
   */
  ghost predicate FirstOpenBlocks(t: Torrent, before: seq<PieceBuffer>, after: seq<PieceBuffer>, has: seq<bool>, ids: seq<BlockId>)
    requires t.Valid()
  {
    && |before| == |after| == |has| == |t.hashes|
    && (forall x :: 0 <= x < |ids| ==> Open(t, before, has, ids[x].piece, ids[x].block))
    && (forall x, y :: 0 <= x < y < |ids| ==> Before(ids[x], ids[y]))
    && (forall i, j, x :: Open(t, before, has, i, j) && BlockId(i, j) !in ids && 0 <= x < |ids| ==>
          Before(ids[x], BlockId(i, j)))
    && (forall i, j :: Open(t, after, has, i, j) <==> Open(t, before, has, i, j) && BlockId(i, j) !in ids)
  }

  lemma OneMore(t: Torrent, p0: seq<PieceBuffer>, p1: seq<PieceBuffer>, p2: seq<PieceBuffer>, has: seq<bool>,
                b: BlockId, ids: seq<BlockId>)
    requires t.Valid() && |p0| == |t.hashes| && FirstOpenBlocks(t, p1, p2, has, ids)
    requires Open(t, p0, has, b.piece, b.block)
    requires forall i, j :: Open(t, p0, has, i, j) ==> b.piece < i || (b.piece == i && b.block <= j)
    requires forall i, j :: Open(t, p1, has, i, j) <==> Open(t, p0, has, i, j) && BlockId(i, j) != b
    ensures FirstOpenBlocks(t, p0, p2, has, [b] + ids)
  {
    hide Open;
    var all := [b] + ids;
    assert forall x :: 0 <= x < |ids| ==> Open(t, p1, has, ids[x].piece, ids[x].block);
    forall x, y | 0 <= x < y < |all|
      ensures Before(all[x], all[y])
    {
      if x == 0 {
        assert BlockId(ids[y - 1].piece, ids[y - 1].block) == ids[y - 1] != b;
      }
    }
    forall i, j, x | Open(t, p0, has, i, j) && BlockId(i, j) !in all && 0 <= x < |all|
      ensures Before(all[x], BlockId(i, j))
    {
      assert all[0] == b && Open(t, p1, has, i, j);
    }
  }

  /** The loop asks for the first open blocks, in order. */
  lemma {:induction false} RequestsInOrder(t: Torrent, c: Core, has: seq<bool>, peer: nat, clock: Clock, k: nat, budget: nat)
    requires t.Valid() && CoreOk(t, c) && |has| == |t.hashes|
    ensures var (c', ids) := Requests(t, c, has, peer, clock, k, budget);
            FirstOpenBlocks(t, c.pieces, c'.pieces, has, ids)
    decreases budget
  {
    hide CoreOk, NextBlock, PiecesOk, Open, FirstOpenBlocks;
    CoreOkPieces(t, c);
    NothingAsked(t, c.pieces, has);
    if budget == 0 {
    } else {
      NextBlockSound(t, c, has, clock(k), peer);
      GrantTakesLeast(t, c, has, clock(k), peer);
      var (c1, b) := NextBlock(t, c, has, clock(k), peer);
      if b.Some? {
        RequestsInOrder(t, c1, has, peer, clock, k + 1, budget - 1);
        var (c', ids) := Requests(t, c1, has, peer, clock, k + 1, budget - 1);
        OneMore(t, c.pieces, c1.pieces, c'.pieces, has, b.value, ids);
      } else {
        NothingOpen(t, c, has, clock(k), peer);
      }
    }
  }

  lemma NothingAsked(t: Torrent, pieces: seq<PieceBuffer>, has: seq<bool>)
    requires t.Valid() && |pieces| == |has| == |t.hashes|
    ensures FirstOpenBlocks(t, pieces, pieces, has, [])
  {
  }

  lemma NothingOpen(t: Torrent, c: Core, has: seq<bool>, now: int, peer: nat)
    requires t.Valid() && CoreOk(t, c) && Sized(t, c) && |has| == |t.hashes|
    requires NextBlock(t, c, has, now, peer).1.None?
    ensures NextBlock(t, c, has, now, peer).0.pieces == c.pieces
  {
    NextBlockCases(t, c, has, now, peer);
  }

  // ---------------------------------------------------------------- the handlers

  datatype ConnState = ConnState(
    choked: bool, interested: bool, peerChoked: bool, peerInterested: bool, has: seq<bool>, inFlight: int)

  /**
   * The piece manager, one connection, the bytes handed to the connection's socket so far, and whether it is
   * registered with the manager, so that it is told of completed pieces.
   */
  datatype World = World(core: Core, conn: ConnState, sent: seq<seq<byte>>, listed: bool)

  ghost predicate WorldOk(t: Torrent, w: World)
    requires t.Valid()
  {
    CoreOk(t, w.core) && |w.conn.has| == |t.hashes|
  }

  function RequestFrames(t: Torrent, ids: seq<BlockId>): (frames: seq<seq<byte>>)
    requires t.Valid() && forall x :: 0 <= x < |ids| ==> ids[x].piece < |t.hashes|
    ensures |frames| == |ids|
  {
    seq(|ids|, x requires 0 <= x < |ids| => RequestFrame(t, ids[x]))
  }

  function BudgetOf(w: World): nat {
    Budget(w.conn.choked, w.conn.inFlight)
  }

  /** `maybe_request_next` from its `k`-th round on. */
  function AfterRequestsFrom(t: Torrent, w: World, peer: nat, clock: Clock, k: nat): (r: World)
    requires t.Valid() && WorldOk(t, w)
    ensures WorldOk(t, r)
  {
    var q := Requests(t, w.core, w.conn.has, peer, clock, k, BudgetOf(w));
    w.(core := q.0, conn := w.conn.(inFlight := w.conn.inFlight + |q.1|), sent := w.sent + RequestFrames(t, q.1))
  }

  /** `maybe_request_next`. */
  function AfterRequests(t: Torrent, w: World, peer: nat, clock: Clock): (r: World)
    requires t.Valid() && WorldOk(t, w)
    ensures WorldOk(t, r)
  {
    AfterRequestsFrom(t, w, peer, clock, 0)
  }

  /** One round of the loop: it ends when there is nothing to grant, and otherwise sends one request and goes on. */
  lemma RequestRound(t: Torrent, w: World, peer: nat, clock: Clock, k: nat)
    requires t.Valid() && WorldOk(t, w) && BudgetOf(w) > 0
    ensures Sized(t, w.core)
    ensures var (c, b) := NextBlock(t, w.core, w.conn.has, clock(k), peer);
            && CoreOk(t, c)
            && (b.None? ==> AfterRequestsFrom(t, w, peer, clock, k) == w.(core := c))
            && (b.Some? ==>
                  && b.value.piece < |t.hashes|
                  && AfterRequestsFrom(t, w, peer, clock, k)
                     == AfterRequestsFrom(t, w.(core := c, conn := w.conn.(inFlight := w.conn.inFlight + 1),
                                               sent := w.sent + [RequestFrame(t, b.value)]), peer, clock, k + 1))
  {
    hide CoreOk, NextBlock, RequestFrame;
    CoreOkPieces(t, w.core);
    NextBlockSound(t, w.core, w.conn.has, clock(k), peer);
    NextBlockInRange(t, w.core, w.conn.has, clock(k), peer);
    var (c, b) := NextBlock(t, w.core, w.conn.has, clock(k), peer);
    if b.None? {
      assert w.sent + RequestFrames(t, []) == w.sent;
    } else {
      var w1 := w.(core := c, conn := w.conn.(inFlight := w.conn.inFlight + 1), sent := w.sent + [RequestFrame(t, b.value)]);
      var q := Requests(t, c, w.conn.has, peer, clock, k + 1, BudgetOf(w1));
      assert w.sent + RequestFrames(t, [b.value] + q.1) == w1.sent + RequestFrames(t, q.1);
    }
  }

  lemma NextBlockInRange(t: Torrent, c: Core, has: seq<bool>, now: int, peer: nat)
    requires t.Valid() && Sized(t, c) && |has| == |t.hashes|
    ensures var b := NextBlock(t, c, has, now, peer).1;
            b.Some? ==> b.value.piece < |t.hashes|
  {
    NextBlockCases(t, c, has, now, peer);
  }

  lemma NoRequests(t: Torrent, w: World, peer: nat, clock: Clock, k: nat)
    requires t.Valid() && WorldOk(t, w) && BudgetOf(w) == 0
    ensures AfterRequestsFrom(t, w, peer, clock, k) == w
  {
    assert w.sent + RequestFrames(t, []) == w.sent;
  }

  /** Interest is declared once, on the first news of a piece. */
  function WithInterest(w: World): World {
    if w.conn.interested then w
    else w.(conn := w.conn.(interested := true), sent := w.sent + [Frame([ID_INTERESTED])])
  }

  function OnHave(t: Torrent, w: World, peer: nat, clock: Clock, payload: seq<byte>): (r: World)
    requires t.Valid() && WorldOk(t, w)
    requires |payload| >= 4 ==> 0 <= Int32At(payload, 0) < |t.hashes|
    ensures WorldOk(t, r)
  {
    if |payload| < 4 then w
    else AfterRequests(t, WithInterest(w.(conn := w.conn.(has := w.conn.has[Int32At(payload, 0) := true]))), peer, clock)
  }

  function WithBits(has: seq<bool>, payload: seq<byte>): (r: seq<bool>)
    ensures |r| == |has|
  {
    seq(|has|, k requires 0 <= k < |has| => has[k] || HasPiece(payload, k))
  }

  function OnBitfield(t: Torrent, w: World, peer: nat, clock: Clock, payload: seq<byte>): (r: World)
    requires t.Valid() && WorldOk(t, w)
    ensures WorldOk(t, r)
  {
    AfterRequests(t, WithInterest(w.(conn := w.conn.(has := WithBits(w.conn.has, payload)))), peer, clock)
  }

  /** What the peers of registered connections are told when this piece message is handled. */
  function News(t: Torrent, c: Core, payload: seq<byte>): seq<seq<byte>>
    requires t.Valid()
    requires |payload| >= 8 ==>
               && Sized(t, c) && 0 <= Int32At(payload, 0) < |t.hashes| && 0 <= Int32At(payload, 4)
               && StoreInRange(c.pieces[Int32At(payload, 0)], Int32At(payload, 4), payload[8..])
  {
    if |payload| >= 8 && Completes(t, c, Int32At(payload, 0), Int32At(payload, 4), payload[8..])
    then [Frame(HaveBody(Int32At(payload, 0)))] else []
  }

  ghost function OnPiece(t: Torrent, w: World, peer: nat, clock: Clock, payload: seq<byte>): (r: World)
    requires t.Valid() && WorldOk(t, w)
    requires |payload| >= 8 ==> Answers(t, w.core, Int32At(payload, 0), Int32At(payload, 4), payload[8..])
    ensures WorldOk(t, r)
  {
    if |payload| < 8 then w
    else
      var i, begin, block := Int32At(payload, 0), Int32At(payload, 4), payload[8..];
      FinishSound(t, w.core, i, begin, block);
      AfterRequests(t, w.(core := AddBlockWhole(t, w.core, i, begin, block),
                          conn := w.conn.(inFlight := w.conn.inFlight - 1),
                          sent := w.sent + if w.listed then News(t, w.core, payload) else []), peer, clock)
  }

  /** The reply to a request: the block as the files hold it, behind the prefix built at `size_t` width. */
  function OnRequest(t: Torrent, w: World, content: seq<byte>, payload: seq<byte>): World
    requires t.Valid()
  {
    match ReadRequest(payload)
    case None => w
    case Some(r) =>
      if r.length == 0 then w
      else
        var body := PieceBody(r.piece, r.begin, Window(content, t.Start(r.piece) + r.begin, r.length));
        w.(sent := w.sent + [SizeTPrefix(|body|) + body])
  }

  /** A peer names pieces in range and answers only what it was asked. */
  ghost predicate Acceptable(t: Torrent, w: World, body: Body)
    requires t.Valid()
  {
    body != [] ==>
      var payload := body[1..];
      && (body[0] == 4 && |payload| >= 4 ==> 0 <= Int32At(payload, 0) < |t.hashes|)
      && (body[0] == 5 ==> forall k: nat :: HasPiece(payload, k) ==> k < |t.hashes|)
      && (body[0] == 7 && |payload| >= 8 ==> Answers(t, w.core, Int32At(payload, 0), Int32At(payload, 4), payload[8..]))
  }

  /** `handle_message`. */
  ghost function OnMessage(t: Torrent, w: World, content: seq<byte>, peer: nat, clock: Clock, body: Body): (r: World)
    requires t.Valid() && WorldOk(t, w) && Acceptable(t, w, body)
    ensures WorldOk(t, r)
  {
    if body == [] then w
    else
      var payload := body[1..];
      match body[0]
      case 0 => w.(conn := w.conn.(choked := true))
      case 1 =>
        var w' := w.(conn := w.conn.(choked := false));
        if w.conn.interested then AfterRequests(t, w', peer, clock) else w'
      case 2 =>
        w.(conn := w.conn.(peerInterested := true, peerChoked := false), sent := w.sent + [Frame([ID_UNCHOKE])])
      case 3 => w.(conn := w.conn.(peerInterested := false))
      case 4 => OnHave(t, w, peer, clock, payload)
      case 5 => OnBitfield(t, w, peer, clock, payload)
      case 6 => OnRequest(t, w, content, payload)
      case 7 => OnPiece(t, w, peer, clock, payload)
      case _ => w
  }

  /**
   * Why `maybe_request_next` stops: the connection is choked, twenty requests are out, or the peer has no wanted
   * piece with a block left to ask for. It never takes the count above the limit.
   */
  lemma StopReason(t: Torrent, w: World, peer: nat, clock: Clock)
    requires t.Valid() && WorldOk(t, w)
    ensures var r := AfterRequests(t, w, peer, clock);
            && (r.conn.choked || r.conn.inFlight >= 20 || forall i, j :: !Open(t, r.core.pieces, r.conn.has, i, j))
            && (w.conn.inFlight <= 20 ==> r.conn.inFlight <= 20)
            && r.conn == w.conn.(inFlight := r.conn.inFlight)
  {
    RequestsStop(t, w.core, w.conn.has, peer, clock, 0, BudgetOf(w));
  }

  /** Every request frame decodes, at the other end, to a whole block inside its piece. */
  lemma RequestFrameReads(t: Torrent, b: BlockId, rest: seq<byte>)
    requires t.Valid() && b.piece < |t.hashes| && b.block < t.BlockCount(b.piece)
    requires |t.hashes| <= TWO_31 && t.pieceLength < TWO_31
    ensures var bodies := Delivered(RequestFrame(t, b) + rest);
            && |bodies| > 0 && bodies[0] == RequestBody(b.piece, b.block * BLOCK, t.RequestLen(b.piece, b.block))
            && |bodies[0]| == 13 && bodies[0][0] == ID_REQUEST
            && ReadRequest(bodies[0][1..]) == Some(RequestFields(b.piece, b.block * BLOCK, t.RequestLen(b.piece, b.block)))
  {
    var body := RequestBody(b.piece, b.block * BLOCK, t.RequestLen(b.piece, b.block));
    RequestRoundTrip(b.piece, b.block * BLOCK, t.RequestLen(b.piece, b.block));
    FirstFrame(body, rest);
  }
}
