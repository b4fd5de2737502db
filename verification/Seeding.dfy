/**
 * End-to-end transfer between instances of the program: the answers a leecher gets for a piece are blocks that other
 * instances, in runs of their own, read from their files.
 */
module Seeding {
  import opened Bytes
  import opened Layout
  import opened PieceCore
  import opened PieceInvariant
  import opened CoreInvariant
  import opened Wire
  import opened Swarm
  import opened Runs
  import opened Transfer
  import U = Uninterrupted
  import H = Handlers

  /** Another instance: its run, restarts included, and the part of it in which it serves. */
  datatype Seeder = Seeder(states: seq<Sys>, labels: seq<Label>, from: nat, to: nat)

  ghost predicate Serving(t: Torrent, x: Seeder)
    requires t.Valid()
  {
    x.from <= x.to <= |x.labels| < |x.states| && IsRun(t, x.states, x.labels)
  }

  /** When it stops serving, the seeder has piece `i` on disk, written by it or by an earlier process. */
  ghost predicate Holds(x: Seeder, i: nat) {
    x.to < |x.states| && WrittenNow(x.states[x.to], i)
  }

  /** What its files hold then. */
  function Disk(x: Seeder): seq<byte> {
    if x.to < |x.states| then x.states[x.to].flat else []
  }

  /**
   * At its state `k` the seeder can serve piece `i`: it is on disk, and recorded, unless the process stays up while it
   * serves.
   */
  ghost predicate Offers(x: Seeder, k: nat, i: nat) {
    && x.from <= k <= x.to <= |x.labels| < |x.states|
    && WrittenNow(x.states[k], i)
    && (i in x.states[k].core.resume || NoCrash(x.labels, k, x.to))
  }

  /** The answer is a block of a piece the seeder could serve, as its files held it at some moment of serving. */
  ghost predicate ServedBy(t: Torrent, x: Seeder, l: Label)
    requires t.Valid()
  {
    && l.Answer? && l.piece < |t.hashes| && l.block < t.BlockCount(l.piece)
    && exists k :: 0 <= k < |x.states| && Offers(x, k, l.piece) && l.bytes == Block(t, x.states[k].flat, l.piece, l.block)
  }

  /** If this is an answer for piece `i`, it comes from one of these seeders. */
  ghost predicate Served(t: Torrent, xs: seq<Seeder>, i: nat, l: Label)
    requires t.Valid()
  {
    l.Answer? && l.piece == i ==> exists x :: 0 <= x < |xs| && ServedBy(t, xs[x], l)
  }

  ghost predicate AllServing(t: Torrent, xs: seq<Seeder>)
    requires t.Valid()
  {
    forall x :: 0 <= x < |xs| ==> Serving(t, xs[x])
  }

  /** Seeders that hold piece `i` hold the same bytes. */
  ghost predicate Agree(t: Torrent, xs: seq<Seeder>, i: nat)
    requires t.Valid() && i < |t.hashes|
  {
    forall x, y :: 0 <= x < |xs| && 0 <= y < |xs| && Holds(xs[x], i) && Holds(xs[y], i) ==>
      Slice(t, Disk(xs[x]), i) == Slice(t, Disk(xs[y]), i)
  }

  // ---------------------------------------------------------------- what a seeder serves

  lemma OffersHolds(t: Torrent, x: Seeder, k: nat, i: nat)
    requires t.Valid() && Serving(t, x) && i < |t.hashes| && Offers(x, k, i)
    ensures Holds(x, i) && Slice(t, Disk(x), i) == Slice(t, x.states[k].flat, i)
    ensures t.sha1(Slice(t, Disk(x), i)) == t.hashes[i]
  {
    hide IsRun, NoCrash, Slice, WrittenNow;
    if i in x.states[k].core.resume {
      DiskForGood(t, x.states, x.labels, k, x.to, i);
    } else {
      DiskIntegrity(t, x.states, x.labels, k, x.to, i);
    }
  }

  /** What a seeder served is still what it holds, and matches the digest: nothing changed it meanwhile. */
  lemma ServedIsHeld(t: Torrent, x: Seeder, l: Label)
    requires t.Valid() && Serving(t, x) && l.Answer? && ServedBy(t, x, l)
    ensures Holds(x, l.piece) && l.bytes == Block(t, Disk(x), l.piece, l.block)
    ensures t.sha1(Slice(t, Disk(x), l.piece)) == t.hashes[l.piece]
  {
    hide Serving, Offers, Slice, Block, Holds;
    var k :| 0 <= k < |x.states| && Offers(x, k, l.piece) && l.bytes == Block(t, x.states[k].flat, l.piece, l.block);
    OffersHolds(t, x, k, l.piece);
    SameBlock(t, x.states[k].flat, Disk(x), l.piece, l.block);
  }

  lemma SameBlock(t: Torrent, a: seq<byte>, b: seq<byte>, i: nat, j: nat)
    requires t.Valid() && i < |t.hashes| && j < t.BlockCount(i) && Slice(t, a, i) == Slice(t, b, i)
    ensures Block(t, a, i, j) == Block(t, b, i, j)
  {
    forall x | 0 <= x < t.RequestLen(i, j)
      ensures Block(t, a, i, j)[x] == Block(t, b, i, j)[x]
    {
      assert Block(t, a, i, j)[x] == Slice(t, a, i)[j * BLOCK + x];
      assert Block(t, b, i, j)[x] == Slice(t, b, i)[j * BLOCK + x];
    }
  }

  /** A piece held matches its digest. */
  lemma HeldMatches(t: Torrent, x: Seeder, i: nat)
    requires t.Valid() && Serving(t, x) && i < |t.hashes| && Holds(x, i)
    ensures t.sha1(Slice(t, Disk(x), i)) == t.hashes[i]
  {
    hide Inv, Slice, IsRun;
    RunInv(t, x.states, x.labels, x.to);
    WrittenMatches(t, x.states[x.to], i);
  }

  /** No two contents of the same length have the same digest. */
  ghost predicate CollisionFree(t: Torrent) {
    forall a, b :: |a| == |b| && t.sha1(a) == t.sha1(b) ==> a == b
  }

  /** Then any seeders of the torrent agree, whoever they are. */
  lemma DigestsDecide(t: Torrent, xs: seq<Seeder>, i: nat)
    requires t.Valid() && AllServing(t, xs) && CollisionFree(t) && i < |t.hashes|
    ensures Agree(t, xs, i)
  {
    hide Serving;
    forall x, y | 0 <= x < |xs| && 0 <= y < |xs| && Holds(xs[x], i) && Holds(xs[y], i)
      ensures Slice(t, Disk(xs[x]), i) == Slice(t, Disk(xs[y]), i)
    {
      HeldMatches(t, xs[x], i);
      HeldMatches(t, xs[y], i);
    }
  }

  // ---------------------------------------------------------------- the content behind an answer

  /** Some seeder holds piece `i`. */
  ghost predicate SomeoneHolds(xs: seq<Seeder>, i: nat) {
    exists x :: 0 <= x < |xs| && Holds(xs[x], i)
  }

  /** In `source`, piece `i` is as every seeder that holds it has it. */
  ghost predicate Behind(t: Torrent, xs: seq<Seeder>, i: nat, source: seq<byte>)
    requires t.Valid() && i < |t.hashes|
  {
    forall x :: 0 <= x < |xs| && Holds(xs[x], i) ==> Slice(t, source, i) == Slice(t, Disk(xs[x]), i)
  }

  /** There always is such a content. */
  lemma SomeSource(t: Torrent, xs: seq<Seeder>, i: nat) returns (source: seq<byte>)
    requires t.Valid() && i < |t.hashes| && Agree(t, xs, i)
    ensures Behind(t, xs, i, source)
  {
    hide Holds, Slice;
    source := [];
    if SomeoneHolds(xs, i) {
      var x :| 0 <= x < |xs| && Holds(xs[x], i);
      source := Disk(xs[x]);
    }
  }

  lemma ServedIsHonest(t: Torrent, xs: seq<Seeder>, i: nat, source: seq<byte>, l: Label)
    requires t.Valid() && i < |t.hashes| && AllServing(t, xs) && Behind(t, xs, i, source) && Served(t, xs, i, l)
    ensures Honest(t, source, i, l)
  {
    hide Serving, Slice, Block, Holds, ServedBy;
    if l.Answer? && l.piece == i && l.block < t.BlockCount(i) {
      var x :| 0 <= x < |xs| && ServedBy(t, xs[x], l);
      ServedIsHeld(t, xs[x], l);
      SameBlock(t, source, Disk(xs[x]), i, l.block);
    }
  }

  /** Piece `i`, as `bytes`, is what every seeder that holds it has, and some seeder does. */
  ghost predicate Delivered(t: Torrent, xs: seq<Seeder>, i: nat, bytes: seq<byte>)
    requires t.Valid() && i < |t.hashes|
  {
    && SomeoneHolds(xs, i)
    && forall x :: 0 <= x < |xs| && Holds(xs[x], i) ==> bytes == Slice(t, Disk(xs[x]), i)
  }

  /** What equals every content behind the seeders was delivered by them: nobody's piece could be anything. */
  lemma ForEverySource(t: Torrent, xs: seq<Seeder>, i: nat, bytes: seq<byte>)
    requires t.Valid() && i < |t.hashes| && Agree(t, xs, i)
    requires forall source :: Behind(t, xs, i, source) ==> bytes == Slice(t, source, i)
    ensures Delivered(t, xs, i, bytes)
  {
    hide Holds, Slice;
    var zeros, ones := seq<byte>(t.total, _ => 0), seq<byte>(t.total, _ => 1);
    DifferentSlices(t, zeros, ones, i);
    if !SomeoneHolds(xs, i) {
      assert Behind(t, xs, i, zeros) && Behind(t, xs, i, ones);
    }
    var source := SomeSource(t, xs, i);
  }

  lemma DifferentSlices(t: Torrent, a: seq<byte>, b: seq<byte>, i: nat)
    requires t.Valid() && i < |t.hashes| && |a| == |b| == t.total && forall k :: 0 <= k < t.total ==> a[k] != b[k]
    ensures Slice(t, a, i) != Slice(t, b, i)
  {
    PieceEnd(t, i);
    assert Slice(t, a, i)[0] == a[t.Start(i)] && Slice(t, b, i)[0] == b[t.Start(i)];
  }

  // ---------------------------------------------------------------- the transfer

  /** From state `a` on, where nothing of piece `i` had come in, every answer for it up to `b` came from the seeders. */
  ghost predicate ServedSince(t: Torrent, xs: seq<Seeder>, ss: seq<Sys>, ls: seq<Label>, a: nat, b: nat, i: nat)
    requires t.Valid() && a <= b <= |ls| < |ss|
  {
    Clean(ss[a], i) && forall c :: a <= c < b ==> Served(t, xs, i, ls[c])
  }

  lemma HonestSince(t: Torrent, xs: seq<Seeder>, source: seq<byte>, ss: seq<Sys>, ls: seq<Label>, a: nat, b: nat, i: nat)
    requires t.Valid() && i < |t.hashes| && AllServing(t, xs) && Behind(t, xs, i, source)
    requires a <= b <= |ls| < |ss| && ServedSince(t, xs, ss, ls, a, b, i)
    ensures Clean(ss[a], i) && forall c :: a <= c < b ==> Honest(t, source, i, ls[c])
  {
    hide AllServing, Behind, Served, Honest, Clean;
    forall c | a <= c < b
      ensures Honest(t, source, i, ls[c])
    {
      ServedIsHonest(t, xs, i, source, ls[c]);
    }
  }

  /**
   * End-to-end transfer of a piece, for every interleaving in the leecher and in every seeder, restarts included:
   * from any state in which nothing of the piece has come in, if every answer for it from then on was served by
   * instances that agree on it, its check never fails, and its verified buffer and, once written, its bytes on disk
   * are those some seeder has. Answers for other pieces, and earlier ones for this piece, may have been wrong.
   */
  lemma TransferBetween(t: Torrent, xs: seq<Seeder>, ss: seq<Sys>, ls: seq<Label>, a: nat, b: nat, i: nat)
    requires t.Valid() && i < |t.hashes| && AllServing(t, xs) && Agree(t, xs, i)
    requires a <= b <= |ls| < |ss| && IsRun(t, ss, ls) && ServedSince(t, xs, ss, ls, a, b, i)
    ensures forall c :: a <= c < b ==> !Fails(t, ss[c], ls[c], i)
    ensures i in Held(ss[b]) ==> i < |ss[b].core.pieces| && Delivered(t, xs, i, ss[b].core.pieces[i].data)
    ensures WrittenIn(ss, ls, a, b, i) ==> Delivered(t, xs, i, Slice(t, ss[b].flat, i))
    ensures i in ss[b].everWritten && i !in ss[a].everWritten ==> Delivered(t, xs, i, Slice(t, ss[b].flat, i))
  {
    hide IsRun, AllServing, Agree, ServedSince, Honest, Behind, Delivered, Slice, Clean, Fails, WrittenIn;
    forall source | Behind(t, xs, i, source)
      ensures forall c :: a <= c < b ==> !Fails(t, ss[c], ls[c], i)
      ensures i in Held(ss[b]) ==> i < |ss[b].core.pieces| && ss[b].core.pieces[i].data == Slice(t, source, i)
      ensures WrittenIn(ss, ls, a, b, i) ==> Slice(t, ss[b].flat, i) == Slice(t, source, i)
    {
      HonestSince(t, xs, source, ss, ls, a, b, i);
      HonestTransfer(t, source, i, ss, ls, a, b);
    }
    var source := SomeSource(t, xs, i);
    if i in Held(ss[b]) {
      ForEverySource(t, xs, i, ss[b].core.pieces[i].data);
    }
    if i in ss[b].everWritten && i !in ss[a].everWritten {
      NewlyWritten(t, ss, ls, a, b, i);
    }
    if WrittenIn(ss, ls, a, b, i) {
      ForEverySource(t, xs, i, Slice(t, ss[b].flat, i));
    }
  }

  /** In such a stretch, storing a block of the piece completes it exactly when no other block is missing. */
  lemma SeededCompletes(t: Torrent, xs: seq<Seeder>, ss: seq<Sys>, ls: seq<Label>, a: nat, k: nat, i: nat)
    requires t.Valid() && i < |t.hashes| && AllServing(t, xs) && Agree(t, xs, i)
    requires a <= k < |ls| < |ss| && IsRun(t, ss, ls) && ServedSince(t, xs, ss, ls, a, k, i)
    requires ls[k] == Label.Store && ss[k].io.Storing? && ss[k].io.piece == i
    ensures i < |ss[k].core.pieces| && i < |ss[k + 1].core.pieces|
    ensures var p, q := ss[k].core.pieces[i], ss[k + 1].core.pieces[i];
            !p.isComplete ==>
              && ss[k].io.block < |p.status|
              && (q.isComplete <==> AllReceived(p.status[ss[k].io.block := Received]))
  {
    hide IsRun, AllServing, Agree, ServedSince, Honest, Behind, Clean;
    var source := SomeSource(t, xs, i);
    HonestSince(t, xs, source, ss, ls, a, k, i);
    LastBlockCompletes(t, source, i, ss, ls, a, k);
  }

  /** A single seeder agrees with itself. */
  lemma TransferFromOne(t: Torrent, x: Seeder, ss: seq<Sys>, ls: seq<Label>, a: nat, b: nat, i: nat)
    requires t.Valid() && i < |t.hashes| && Serving(t, x)
    requires a <= b <= |ls| < |ss| && IsRun(t, ss, ls) && ServedSince(t, [x], ss, ls, a, b, i)
    ensures forall c :: a <= c < b ==> !Fails(t, ss[c], ls[c], i)
    ensures WrittenIn(ss, ls, a, b, i) || (i in ss[b].everWritten && i !in ss[a].everWritten) ==>
              Holds(x, i) && Slice(t, ss[b].flat, i) == Slice(t, Disk(x), i)
  {
    hide IsRun, Slice, Holds, Serving, ServedSince, Fails, WrittenIn;
    assert AllServing(t, [x]) && Agree(t, [x], i);
    TransferBetween(t, [x], ss, ls, a, b, i);
  }

  /**
   * When every piece was written in a stretch of its own in which this seeder answered, whatever came before each
   * stretch, the leecher's files are the seeder's.
   */
  lemma WholeTransfer(t: Torrent, x: Seeder, ss: seq<Sys>, ls: seq<Label>, starts: seq<nat>, b: nat)
    requires t.Valid() && Serving(t, x) && b <= |ls| < |ss| && IsRun(t, ss, ls) && |starts| == |t.hashes|
    requires forall i :: 0 <= i < |t.hashes| ==> starts[i] <= b
    requires forall i :: 0 <= i < |t.hashes| ==>
               ServedSince(t, [x], ss, ls, starts[i], b, i) && WrittenIn(ss, ls, starts[i], b, i)
    ensures ss[b].flat == Disk(x)
  {
    hide IsRun, Slice, Holds, Inv, Serving, ServedSince, Fails, WrittenIn;
    ServingRun(t, x);
    RunInv(t, ss, ls, b);
    RunInv(t, x.states, x.labels, x.to);
    InvSize(t, ss[b]);
    InvSize(t, x.states[x.to]);
    forall i | 0 <= i < |t.hashes|
      ensures Slice(t, ss[b].flat, i) == Slice(t, Disk(x), i)
    {
      TransferFromOne(t, x, ss, ls, starts[i], b, i);
    }
    SlicesMakeContent(t, ss[b].flat, Disk(x));
  }

  lemma ServingRun(t: Torrent, x: Seeder)
    requires t.Valid() && Serving(t, x)
    ensures IsRun(t, x.states, x.labels) && x.to <= |x.labels| < |x.states|
  {
  }

  // ---------------------------------------------------------------- one request and its answer, through the handlers

  /**
   * The seeder, at any moment of serving, handles a leecher's request for a block of a piece it has on disk; the
   * leecher handles the message the seeder built. The handler's run starts with just that answer, served by that
   * seeder, and ends in the state the leecher's handler leaves.
   */
  lemma Exchange(t: Torrent, x: Seeder, k: nat, q: nat, ws: H.World, clockS: H.Clock,
                 s: Sys, p: nat, w: H.World, content: seq<byte>, clock: H.Clock, i: nat, j: nat)
    returns (ls: seq<Label>, s': Sys)
    requires t.Valid() && |t.hashes| <= TWO_31 && t.pieceLength < TWO_31
    requires Serving(t, x) && Offers(x, k, i)
    requires U.Matches(x.states[k], q, ws) && H.WorldOk(t, ws)
    requires i < |t.hashes| && j < t.BlockCount(i)
    requires Inv(t, s) && s.io.Ready? && U.Matches(s, p, w) && H.WorldOk(t, w) && Request(p, i, j) in s.asked
    ensures var request := RequestBody(i, j * BLOCK, t.RequestLen(i, j));
            var body := PieceBody(i, j * BLOCK, Block(t, x.states[k].flat, i, j));
            && H.Acceptable(t, ws, request)
            && H.OnMessage(t, ws, x.states[k].flat, q, clockS, request) == ws.(sent := ws.sent + [SizeTPrefix(|body|) + body])
            && H.Acceptable(t, w, body)
            && U.Leads(t, s, ls, s') && s'.io.Ready?
            && U.Matches(s', p, H.OnMessage(t, w, content, p, clock, body))
            && ls != [] && ls[0] == Answer(p, i, j, Block(t, x.states[k].flat, i, j)) && ServedBy(t, x, ls[0])
  {
    hide Inv, Serving, U.Leads, H.OnPiece, H.OnRequest, H.OnMessage, H.Acceptable, Block, H.WorldOk, Answers, RequestBody, PieceBody,
         U.Matches;
    ServingRun(t, x);
    var block := Block(t, x.states[k].flat, i, j);
    var body := PieceBody(i, j * BLOCK, block);
    OffsetFits(t, i, j);
    SeederAnswers(t, ws, x.states[k].flat, q, clockS, i, j);
    PieceRead(i, j * BLOCK, block);
    AskedAnswer(t, s, p, i, j, block);
    SameCore(s, p, w);
    PieceHandled(t, w, content, p, clock, body);
    ls, s' := U.PieceRuns(t, s, p, w, clock, body[1..]);
  }

  lemma OffsetFits(t: Torrent, i: nat, j: nat)
    requires t.Valid() && |t.hashes| <= TWO_31 && t.pieceLength < TWO_31 && i < |t.hashes| && j < t.BlockCount(i)
    ensures i < TWO_31 && 0 <= j * BLOCK < TWO_31 && 0 < t.RequestLen(i, j) < TWO_31
  {
  }

  lemma SeederAnswers(t: Torrent, ws: H.World, flat: seq<byte>, q: nat, clock: H.Clock, i: nat, j: nat)
    requires t.Valid() && |t.hashes| <= TWO_31 && t.pieceLength < TWO_31
    requires i < |t.hashes| && j < t.BlockCount(i) && H.WorldOk(t, ws)
    ensures var request := RequestBody(i, j * BLOCK, t.RequestLen(i, j));
            var body := PieceBody(i, j * BLOCK, Block(t, flat, i, j));
            && H.Acceptable(t, ws, request)
            && H.OnMessage(t, ws, flat, q, clock, request) == ws.(sent := ws.sent + [SizeTPrefix(|body|) + body])
  {
    hide H.OnRequest, H.WorldOk, RequestBody, PieceBody, Block;
    OffsetFits(t, i, j);
    RequestRoundTrip(i, j * BLOCK, t.RequestLen(i, j));
    RequestServed(t, ws, flat, i, j * BLOCK, t.RequestLen(i, j));
    BlockWindow(t, flat, i, j);
  }

  lemma BlockWindow(t: Torrent, flat: seq<byte>, i: nat, j: nat)
    requires t.Valid() && i < |t.hashes| && j < t.BlockCount(i)
    ensures Block(t, flat, i, j) == Window(flat, i * t.pieceLength + j * BLOCK, t.RequestLen(i, j))
  {
  }

  /** A piece message is handled as one when the block answers a request. */
  lemma PieceHandled(t: Torrent, w: H.World, content: seq<byte>, p: nat, clock: H.Clock, body: Body)
    requires t.Valid() && H.WorldOk(t, w) && |body| >= 9 && body[0] == ID_PIECE
    requires Answers(t, w.core, Int32At(body[1..], 0), Int32At(body[1..], 4), body[1..][8..])
    ensures H.Acceptable(t, w, body)
    ensures H.OnMessage(t, w, content, p, clock, body) == H.OnPiece(t, w, p, clock, body[1..])
  {
    hide H.OnPiece, H.WorldOk, Answers;
  }

  lemma SameCore(s: Sys, p: nat, w: H.World)
    requires U.Matches(s, p, w)
    ensures s.core == w.core
  {
  }

  /** How the body of a piece message reads. */
  lemma PieceRead(piece: int, begin: int, block: seq<byte>)
    requires 0 <= piece < TWO_31 && 0 <= begin < TWO_31
    ensures var body := PieceBody(piece, begin, block);
            && |body| >= 9 && body[0] == ID_PIECE
            && Int32At(body[1..], 0) == piece && Int32At(body[1..], 4) == begin && body[1..][8..] == block
  {
    PieceRoundTrip(piece, begin, block);
  }

  /** A block asked for and of the right length is an answer the leecher can take. */
  lemma AskedAnswer(t: Torrent, s: Sys, p: nat, i: nat, j: nat, block: seq<byte>)
    requires t.Valid() && Inv(t, s) && Request(p, i, j) in s.asked
    requires i < |t.hashes| && j < t.BlockCount(i) && |block| == t.RequestLen(i, j)
    ensures Answers(t, s.core, i, j * BLOCK, block) && j * BLOCK / BLOCK == j
  {
    BlockOfBegin(j);
    StoreBlockOk(t, i, s.core.pieces[i], j, block);
  }
}
