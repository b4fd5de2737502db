/**
 * What a leecher ends up with, in its buffers and on its disk, when every answer it gets is a block of one fixed
 * content, the source.
 */
module Transfer {
  import opened Bytes
  import opened Layout
  import opened Bits
  import opened PieceCore
  import opened PieceInvariant
  import opened Wire
  import opened Startup
  import opened Swarm
  import opened Runs
  import opened Ledger
  import Handlers

  /** Block `j` of piece `i` in the content `source`. */
  function Block(t: Torrent, source: seq<byte>, i: nat, j: nat): (b: seq<byte>)
    requires t.Valid() && i < |t.hashes| && j < t.BlockCount(i)
    ensures |b| == t.RequestLen(i, j)
  {
    Window(source, t.Start(i) + j * BLOCK, t.RequestLen(i, j))
  }

  // ---------------------------------------------------------------- one request and its answer

  /**
   * A request for any part of a piece, read by a seeder whose files hold `source`, is answered by a message that the
   * leecher reads as the same piece and offset with exactly those bytes. A request for nothing is not answered.
   */
  lemma RequestServed(t: Torrent, w: Handlers.World, source: seq<byte>, i: nat, begin: nat, length: nat)
    requires t.Valid() && i < |t.hashes| && begin + length <= t.PieceLen(i)
    requires |t.hashes| <= TWO_31 && t.pieceLength < TWO_31
    ensures var w' := Handlers.OnRequest(t, w, source, RequestBody(i, begin, length)[1..]);
            var bytes := Window(source, i * t.pieceLength + begin, length);
            var body := PieceBody(i, begin, bytes);
            && w' == (if length == 0 then w else w.(sent := w.sent + [SizeTPrefix(|body|) + body]))
            && ReadPiece(body[1..]) == Some(PieceFields(i, begin, bytes))
  {
    hide RequestBody, PieceBody, ReadPiece, ReadRequest;
    RequestRoundTrip(i, begin, length);
    InPiece(t, i, begin, length);
    PieceRoundTrip(i, begin, Window(source, i * t.pieceLength + begin, length));
  }

  lemma InPiece(t: Torrent, i: nat, begin: nat, length: nat)
    requires t.Valid() && i < |t.hashes| && begin + length <= t.PieceLen(i)
    ensures t.Start(i) == i * t.pieceLength && i * t.pieceLength + begin + length <= t.total
    ensures length <= t.pieceLength && begin <= t.pieceLength
  {
    PieceEnd(t, i);
  }

  /** Those bytes, when the files hold the whole content: the ones that far into the piece. */
  lemma ServedBytes(t: Torrent, source: seq<byte>, i: nat, begin: nat, length: nat)
    requires t.Valid() && |source| == t.total && i < |t.hashes| && begin + length <= t.PieceLen(i)
    ensures var at := i * t.pieceLength + begin;
            at + length <= |source| && Window(source, at, length) == source[at..at + length]
  {
    hide Torrent.Start, Torrent.PieceLen;
    InPiece(t, i, begin, length);
  }

  // ---------------------------------------------------------------- one piece

  /** Every received block is the source's, and a complete buffer is the source's piece. */
  ghost predicate FromSource(t: Torrent, source: seq<byte>, i: nat, p: PieceBuffer)
    requires t.Valid() && i < |t.hashes|
  {
    && (p.isComplete && p.data != [] ==> p.data == Slice(t, source, i))
    && (!p.isComplete && Allocated(t, i, p) ==>
          forall j :: 0 <= j < |p.status| && p.status[j] == Received ==>
            Window(p.data, j * BLOCK, t.RequestLen(i, j)) == Block(t, source, i, j))
  }

  lemma OtherBlock(t: Torrent, i: nat, data: seq<byte>, j: nat, block: seq<byte>, k: nat)
    requires t.Valid() && i < |t.hashes| && |data| == t.PieceLen(i)
    requires j < t.BlockCount(i) && k < t.BlockCount(i) && |block| == t.RequestLen(i, j)
    ensures Window(Overlay(data, j * BLOCK, block), k * BLOCK, t.RequestLen(i, k))
         == if k == j then block else Window(data, k * BLOCK, t.RequestLen(i, k))
  {
    assert k < j ==> k * BLOCK + BLOCK <= j * BLOCK;
    assert j < k ==> j * BLOCK + BLOCK <= k * BLOCK;
  }

  /** A buffer whose blocks are all the source's is the source's piece. */
  lemma BlocksMakePiece(t: Torrent, source: seq<byte>, i: nat, data: seq<byte>)
    requires t.Valid() && i < |t.hashes| && |data| == t.PieceLen(i)
    requires forall j :: 0 <= j < t.BlockCount(i) ==>
               Window(data, j * BLOCK, t.RequestLen(i, j)) == Block(t, source, i, j)
    ensures data == Slice(t, source, i)
  {
    forall x | 0 <= x < |data|
      ensures data[x] == Slice(t, source, i)[x]
    {
      var j := x / BLOCK;
      assert data[x] == Window(data, j * BLOCK, t.RequestLen(i, j))[x - j * BLOCK];
      assert Slice(t, source, i)[x] == Block(t, source, i, j)[x - j * BLOCK];
    }
  }

  /**
   * Storing the source's block never fails the hash check, and once all blocks are in, in whatever order, the
   * buffer is the source's piece and the piece completes.
   */
  lemma StoreFromSource(t: Torrent, source: seq<byte>, i: nat, p: PieceBuffer, j: nat)
    requires t.Valid() && i < |t.hashes| && PieceOk(t, i, p) && !p.isComplete && Allocated(t, i, p)
    requires j < t.BlockCount(i) && FromSource(t, source, i, p)
    requires t.sha1(Slice(t, source, i)) == t.hashes[i]
    requires StoreInRange(p, j * BLOCK, Block(t, source, i, j))
    ensures var o := StoreBlock(t, i, p, j * BLOCK, Block(t, source, i, j));
            && o.result != HashFailed && FromSource(t, source, i, o.piece)
            && (o.result == Completed <==> AllReceived(p.status[j := Received]))
  {
    var block := Block(t, source, i, j);
    var q := if p.status[j] != Received then Filled(p, j * BLOCK, block) else p;
    forall k | 0 <= k < |q.status| && q.status[k] == Received
      ensures Window(q.data, k * BLOCK, t.RequestLen(i, k)) == Block(t, source, i, k)
    {
      OtherBlock(t, i, p.data, j, block, k);
    }
    assert q.status == p.status[j := Received];
    if AllReceived(q.status) {
      BlocksMakePiece(t, source, i, q.data);
    }
  }

  // ---------------------------------------------------------------- one piece over a run

  /** An answer for piece `i` is the source's block, and the source's piece matches its digest. */
  ghost predicate Honest(t: Torrent, source: seq<byte>, i: nat, l: Label)
    requires t.Valid() && i < |t.hashes|
  {
    l.Answer? && l.piece == i && l.block < t.BlockCount(i) ==>
      l.bytes == Block(t, source, i, l.block) && t.sha1(Slice(t, source, i)) == t.hashes[i]
  }

  /**
   * Nothing of piece `i` has come in: it is incomplete without a received block, and no block of it is in the io
   * thread's hands.
   */
  ghost predicate Clean(s: Sys, i: nat) {
    && i < |s.core.pieces| && !s.core.pieces[i].isComplete
    && (forall j :: 0 <= j < |s.core.pieces[i].status| ==> s.core.pieces[i].status[j] != Received)
    && !(s.io.Storing? && s.io.piece == i)
  }

  /** The writer writes piece `i` in this step. */
  predicate Writes(s: Sys, l: Label, i: nat) {
    l == Label.Write && s.writer == Popped(i)
  }

  ghost predicate WrittenIn(ss: seq<Sys>, ls: seq<Label>, a: nat, b: nat, i: nat)
    requires b <= |ls| < |ss|
  {
    exists c :: a <= c < b && Writes(ss[c], ls[c], i)
  }

  /** The check of piece `i` fails in this step. */
  ghost predicate Fails(t: Torrent, s: Sys, l: Label, i: nat)
    requires t.Valid()
  {
    FailsCheck(t, s, l) && s.io.piece == i
  }

  /** What is in the piece's buffer, in the io thread's hands, and on disk if it was written, is the source's. */
  ghost predicate HonestOk(t: Torrent, source: seq<byte>, i: nat, s: Sys, written: bool)
    requires t.Valid() && i < |t.hashes|
  {
    && i < |s.core.pieces| && FromSource(t, source, i, s.core.pieces[i])
    && (written ==> Slice(t, s.flat, i) == Slice(t, source, i))
    && (s.io.Storing? && s.io.piece == i && s.io.block < t.BlockCount(i) ==>
          s.io.bytes == Block(t, source, i, s.io.block) && t.sha1(Slice(t, source, i)) == t.hashes[i])
  }

  lemma CleanIsHonest(t: Torrent, source: seq<byte>, i: nat, s: Sys)
    requires t.Valid() && i < |t.hashes| && Clean(s, i)
    ensures HonestOk(t, source, i, s, false)
  {
  }

  lemma HonestStore(t: Torrent, source: seq<byte>, i: nat, s: Sys, w: bool)
    requires t.Valid() && i < |t.hashes| && Inv(t, s) && Enabled(t, s, Label.Store) && HonestOk(t, source, i, s, w)
    ensures HonestOk(t, source, i, Step(t, s, Label.Store), w) && !Fails(t, s, Label.Store, i)
  {
    hide PipelineOk, BuffersOk, BitfieldOk, BytesOk, RequestsOk, CreditsOk, OwnersOk, ConnsOk, DiskOk, PieceOk, StoreBlock,
         StoreInRange, FromSource, Allocated, Block, Slice, FailsCheck;
    var k, j := s.io.piece, s.io.block;
    var p := s.core.pieces[k];
    FailsCheckIsHashFailed(t, s);
    StoreBlockOk(t, k, p, j, s.io.bytes);
    if k == i && !p.isComplete {
      StoreFromSource(t, source, i, p, j);
    }
  }

  lemma HonestPieceStep(t: Torrent, source: seq<byte>, i: nat, s: Sys, l: Label, w: bool)
    requires t.Valid() && i < |t.hashes| && Inv(t, s) && Enabled(t, s, l) && HonestOk(t, source, i, s, w)
    requires l.Grant? || l.Visit? || l.Clear?
    ensures HonestOk(t, source, i, Step(t, s, l), w)
  {
    hide PipelineOk, BitfieldOk, BytesOk, RequestsOk, IoOk, CreditsOk, OwnersOk, ConnsOk, DiskOk, FirstOpen, Block, Slice, PieceOk, BuffersOk;
    if l.Grant? {
      FirstOpenFound(t, s.core.pieces, s.conns[s.io.peer].has, 0);
      var scan := FirstOpen(t, s.core.pieces, s.conns[s.io.peer].has, 0);
      if scan.Some? {
        MaybeInitOk(t, scan.value.piece, s.core.pieces[scan.value.piece]);
      }
    } else if l.Visit? {
      AfterVisitOk(t, l.piece, s.core.pieces[l.piece], l.now);
    }
  }

  lemma HonestWrite(t: Torrent, source: seq<byte>, i: nat, s: Sys, w: bool)
    requires t.Valid() && i < |t.hashes| && Inv(t, s) && Enabled(t, s, Label.Write) && HonestOk(t, source, i, s, w)
    ensures HonestOk(t, source, i, Step(t, s, Label.Write), w || s.writer.piece == i)
  {
    hide Inv, Slice, Block;
    var k := s.writer.piece;
    assert k in Held(s);
    HeldWhole(t, s, k);
    HeldNotEmpty(t, s, k);
    InvSize(t, s);
    SliceAfterWrite(t, s.flat, k, s.core.pieces[k].data, i);
  }

  lemma HeldNotEmpty(t: Torrent, s: Sys, i: nat)
    requires t.Valid() && Inv(t, s) && i in Held(s)
    ensures i < |s.core.pieces| && s.core.pieces[i].data != []
  {
    hide PipelineOk, BitfieldOk, BytesOk, RequestsOk, IoOk, CreditsOk, OwnersOk, ConnsOk, DiskOk, PieceOk;
  }

  lemma InvSize(t: Torrent, s: Sys)
    requires t.Valid() && Inv(t, s)
    ensures |s.flat| == t.total && |s.core.pieces| == |t.hashes|
  {
  }

  lemma HonestCrash(t: Torrent, source: seq<byte>, i: nat, s: Sys, w: bool)
    requires t.Valid() && i < |t.hashes| && Enabled(t, s, Crash) && HonestOk(t, source, i, s, w)
    ensures HonestOk(t, source, i, Step(t, s, Crash), w)
  {
    hide Slice, Block, MarkPiece;
    LoadedPieces(t, s.core.resume, |s.core.resume|);
  }

  lemma HonestOther(t: Torrent, source: seq<byte>, i: nat, s: Sys, l: Label, w: bool)
    requires t.Valid() && i < |t.hashes| && Enabled(t, s, l) && HonestOk(t, source, i, s, w) && Honest(t, source, i, l)
    requires !l.Store? && !l.Grant? && !l.Visit? && !l.Clear? && !l.Write? && !l.Crash?
    ensures HonestOk(t, source, i, Step(t, s, l), w)
  {
    hide FromSource, Slice, Block;
    assert Step(t, s, l).core.pieces == s.core.pieces;
  }

  lemma HonestStep(t: Torrent, source: seq<byte>, i: nat, s: Sys, l: Label, w: bool)
    requires t.Valid() && i < |t.hashes| && Inv(t, s) && Enabled(t, s, l)
    requires HonestOk(t, source, i, s, w) && Honest(t, source, i, l)
    ensures HonestOk(t, source, i, Step(t, s, l), w || Writes(s, l, i)) && !Fails(t, s, l, i)
  {
    hide Inv, HonestOk, Step, Honest, FailsCheck;
    if l.Store? {
      HonestStore(t, source, i, s, w);
    } else {
      OnlyStoresFail(t, s, l);
      if l.Grant? || l.Visit? || l.Clear? {
        HonestPieceStep(t, source, i, s, l, w);
      } else if l.Write? {
        HonestWrite(t, source, i, s, w);
      } else if l.Crash? {
        HonestCrash(t, source, i, s, w);
      } else {
        HonestOther(t, source, i, s, l, w);
      }
    }
  }

  lemma {:induction false} HonestRun(t: Torrent, source: seq<byte>, i: nat, ss: seq<Sys>, ls: seq<Label>, a: nat, b: nat)
    requires t.Valid() && i < |t.hashes| && a <= b <= |ls| < |ss| && IsRun(t, ss, ls) && Clean(ss[a], i)
    requires forall c :: a <= c < b ==> Honest(t, source, i, ls[c])
    ensures HonestOk(t, source, i, ss[b], WrittenIn(ss, ls, a, b, i))
    ensures forall c :: a <= c < b ==> !Fails(t, ss[c], ls[c], i)
    decreases b
  {
    hide IsRun, Inv, Enabled, Step, HonestOk, Honest, Clean, Fails, Writes;
    if a == b {
      CleanIsHonest(t, source, i, ss[a]);
    } else {
      HonestRun(t, source, i, ss, ls, a, b - 1);
      RunInv(t, ss, ls, b - 1);
      RunStep(t, ss, ls, b - 1);
      HonestStep(t, source, i, ss[b - 1], ls[b - 1], WrittenIn(ss, ls, a, b - 1, i));
      assert WrittenIn(ss, ls, a, b, i) <==> WrittenIn(ss, ls, a, b - 1, i) || Writes(ss[b - 1], ls[b - 1], i);
    }
  }

  /** A piece that was not on disk and now is was written in between. */
  lemma {:induction false} NewlyWritten(t: Torrent, ss: seq<Sys>, ls: seq<Label>, a: nat, b: nat, i: nat)
    requires t.Valid() && a <= b <= |ls| < |ss| && IsRun(t, ss, ls)
    requires i !in ss[a].everWritten && i in ss[b].everWritten
    ensures WrittenIn(ss, ls, a, b, i)
    decreases b
  {
    hide IsRun, Inv, Enabled, Step;
    if a == b {
    } else {
      RunStep(t, ss, ls, b - 1);
      if i in ss[b - 1].everWritten {
        NewlyWritten(t, ss, ls, a, b - 1, i);
      } else {
        OnlyWritesWrite(t, ss[b - 1], ls[b - 1], i);
      }
    }
  }

  lemma OnlyWritesWrite(t: Torrent, s: Sys, l: Label, i: nat)
    requires t.Valid() && Enabled(t, s, l) && i !in s.everWritten && i in Step(t, s, l).everWritten
    ensures Writes(s, l, i)
  {
    hide NextBlock, StoreBlock, StoreInRange, Boot;
  }

  /**
   * From any state in which nothing of piece `i` has come in, for every interleaving: if from then on every answer
   * for this piece is the source's block, its check never fails, its verified buffer is the source's piece, and so
   * is what is on disk once it is written. Other pieces, and what came before, may have gone wrong in any way.
   * Module `Seeding` puts the runs of other instances in the source's place.
   */
  lemma HonestTransfer(t: Torrent, source: seq<byte>, i: nat, ss: seq<Sys>, ls: seq<Label>, a: nat, b: nat)
    requires t.Valid() && i < |t.hashes| && a <= b <= |ls| < |ss| && IsRun(t, ss, ls) && Clean(ss[a], i)
    requires forall c :: a <= c < b ==> Honest(t, source, i, ls[c])
    ensures forall c :: a <= c < b ==> !Fails(t, ss[c], ls[c], i)
    ensures i in Held(ss[b]) ==> i < |ss[b].core.pieces| && ss[b].core.pieces[i].data == Slice(t, source, i)
    ensures WrittenIn(ss, ls, a, b, i) ==> Slice(t, ss[b].flat, i) == Slice(t, source, i)
  {
    hide IsRun, Inv, Honest, Clean, Fails, WrittenIn, Slice;
    HonestRun(t, source, i, ss, ls, a, b);
    RunInv(t, ss, ls, b);
    if i in Held(ss[b]) {
      HeldWhole(t, ss[b], i);
      HeldNotEmpty(t, ss[b], i);
    }
  }

  /** And the answer that brings its last missing block completes it. */
  lemma LastBlockCompletes(t: Torrent, source: seq<byte>, i: nat, ss: seq<Sys>, ls: seq<Label>, a: nat, k: nat)
    requires t.Valid() && i < |t.hashes| && a <= k < |ls| < |ss| && IsRun(t, ss, ls) && Clean(ss[a], i)
    requires forall c :: a <= c < k ==> Honest(t, source, i, ls[c])
    requires ls[k] == Label.Store && ss[k].io.Storing? && ss[k].io.piece == i
    ensures i < |ss[k].core.pieces| && i < |ss[k + 1].core.pieces|
    ensures var p, q := ss[k].core.pieces[i], ss[k + 1].core.pieces[i];
            !p.isComplete ==>
              && ss[k].io.block < |p.status|
              && (q.isComplete <==> AllReceived(p.status[ss[k].io.block := Received]))
  {
    hide IsRun, Clean, Honest, WrittenIn;
    HonestRun(t, source, i, ss, ls, a, k);
    RunInv(t, ss, ls, k);
    RunStep(t, ss, ls, k);
    StoreCompletes(t, source, i, ss[k], WrittenIn(ss, ls, a, k, i));
  }

  lemma StoreCompletes(t: Torrent, source: seq<byte>, i: nat, s: Sys, w: bool)
    requires t.Valid() && i < |t.hashes| && Inv(t, s) && Enabled(t, s, Label.Store) && HonestOk(t, source, i, s, w)
    requires s.io.piece == i
    ensures var s' := Step(t, s, Label.Store);
            && i < |s.core.pieces| && i < |s'.core.pieces|
            && (!s.core.pieces[i].isComplete ==>
                  && s.io.block < |s.core.pieces[i].status|
                  && (s'.core.pieces[i].isComplete <==> AllReceived(s.core.pieces[i].status[s.io.block := Received])))
  {
    hide PipelineOk, BuffersOk, BitfieldOk, BytesOk, RequestsOk, CreditsOk, OwnersOk, ConnsOk, DiskOk, PieceOk, StoreBlock,
         StoreInRange, FromSource, Block, Slice;
    var p, j := s.core.pieces[i], s.io.block;
    StoreBlockOk(t, i, p, j, s.io.bytes);
    if !p.isComplete {
      StoreFromSource(t, source, i, p, j);
    }
  }

  // ---------------------------------------------------------------- where such a stretch can start

  /** At the first start. */
  lemma FirstClean(t: Torrent, ss: seq<Sys>, ls: seq<Label>, i: nat)
    requires t.Valid() && IsRun(t, ss, ls) && i < |t.hashes|
    ensures Clean(ss[0], i)
  {
    hide Enabled, Step;
  }

  /** Right after a failed check of the piece. */
  lemma FailureCleans(t: Torrent, s: Sys, i: nat)
    requires t.Valid() && Inv(t, s) && Enabled(t, s, Label.Store) && Fails(t, s, Label.Store, i)
    ensures Clean(Step(t, s, Label.Store), i)
  {
    hide PipelineOk, BuffersOk, BitfieldOk, BytesOk, RequestsOk, CreditsOk, OwnersOk, ConnsOk, DiskOk, PieceOk, StoreBlock,
         StoreInRange, FailsCheck;
    FailsCheckIsHashFailed(t, s);
    StoreBlockOk(t, i, s.core.pieces[i], s.io.block, s.io.bytes);
    FailedInRange(t, s);
  }

  lemma FailedInRange(t: Torrent, s: Sys)
    requires t.Valid() && FailsCheck(t, s, Label.Store)
    ensures s.io.Storing? && s.io.piece < |s.core.pieces| && !s.core.pieces[s.io.piece].isComplete
  {
  }

  /** Right after a restart that does not find the piece in the records. */
  lemma RestartCleans(t: Torrent, s: Sys, i: nat)
    requires t.Valid() && Enabled(t, s, Crash) && i < |t.hashes| && i !in s.core.resume
    ensures Clean(Step(t, s, Crash), i)
  {
    hide MarkPiece;
    LoadedPieces(t, s.core.resume, |s.core.resume|);
    assert s.core.resume[..|s.core.resume|] == s.core.resume;
  }

  /** Contents that agree on every piece are the same. */
  lemma SlicesMakeContent(t: Torrent, a: seq<byte>, b: seq<byte>)
    requires t.Valid() && |a| == |b| == t.total
    requires forall i :: 0 <= i < |t.hashes| ==> Slice(t, a, i) == Slice(t, b, i)
    ensures a == b
  {
    forall x | 0 <= x < t.total
      ensures a[x] == b[x]
    {
      hide Torrent.Start, Torrent.PieceLen, Torrent.Valid;
      PieceOfByte(t, x);
      var i := x / t.pieceLength;
      assert a[x] == Slice(t, a, i)[x - t.Start(i)] && b[x] == Slice(t, b, i)[x - t.Start(i)];
    }
  }

  /**
   * When every piece was written in a stretch of its own in which its answers were the source's, and none of its
   * answers was wrong since, the files hold the source.
   */
  lemma WholeContent(t: Torrent, source: seq<byte>, ss: seq<Sys>, ls: seq<Label>, starts: seq<nat>, b: nat)
    requires t.Valid() && b <= |ls| < |ss| && IsRun(t, ss, ls) && |source| == t.total && |starts| == |t.hashes|
    requires forall i :: 0 <= i < |t.hashes| ==> starts[i] <= b && Clean(ss[starts[i]], i) && WrittenIn(ss, ls, starts[i], b, i)
    requires forall i, c :: 0 <= i < |t.hashes| && starts[i] <= c < b ==> Honest(t, source, i, ls[c])
    ensures ss[b].flat == source
  {
    hide IsRun, Inv, Honest, Clean, WrittenIn, Slice, Fails;
    RunInv(t, ss, ls, b);
    InvSize(t, ss[b]);
    forall i | 0 <= i < |t.hashes|
      ensures Slice(t, ss[b].flat, i) == Slice(t, source, i)
    {
      HonestTransfer(t, source, i, ss, ls, starts[i], b);
    }
    SlicesMakeContent(t, ss[b].flat, source);
  }
}
