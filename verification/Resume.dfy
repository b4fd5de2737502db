/** The resume file and the bitfield over whole runs. */
module Resume {
  import opened Bytes
  import opened Distinct
  import opened Layout
  import opened Bits
  import opened PieceCore
  import opened PieceInvariant
  import opened Startup
  import opened Swarm
  import opened Runs
  import Handlers

  /**
   * In every reachable state the resume records are distinct, in range and name complete pieces; the only
   * complete piece without a record is the one the io thread is finishing. The completion counter and the
   * bitfield lag behind by that one piece only in their own windows.
   */
  lemma RecordsSound(t: Torrent, ss: seq<Sys>, ls: seq<Label>, k: nat)
    requires t.Valid() && IsRun(t, ss, ls) && k <= |ls|
    ensures var s := ss[k];
            && |s.core.pieces| == |t.hashes|
            && NoDup(s.core.resume) && InRange(t, s.core.resume)
            && (forall i :: 0 <= i < |t.hashes| ==>
                  (s.core.pieces[i].isComplete <==> i in s.core.resume || i in Unrecorded(s.io)))
            && (forall i :: i in Unrecorded(s.io) ==> i !in s.core.resume)
            && s.core.completed == |s.core.resume| + |Unrecorded(s.io)| - |InHand(s.io)|
  {
    hide PieceOk, BuffersOk, BitfieldOk, BytesOk, RequestsOk, IoOk, CreditsOk, OwnersOk, ConnsOk, DiskOk;
    RunInv(t, ss, ls, k);
    var s := ss[k];
    var pipe := Pipeline(s);
    assert pipe == s.core.resume + Unrecorded(s.io);
    forall x, y | 0 <= x < y < |s.core.resume|
      ensures s.core.resume[x] != s.core.resume[y]
    {
      assert pipe[x] == s.core.resume[x] && pipe[y] == s.core.resume[y];
    }
    forall i | i in Unrecorded(s.io)
      ensures i !in s.core.resume
    {
      assert pipe[|s.core.resume|] == i;
      forall x | 0 <= x < |s.core.resume|
        ensures s.core.resume[x] != i
      {
        assert pipe[x] == s.core.resume[x];
      }
    }
  }

  /**
   * Whenever the process stops, starting again on the records rebuilds exactly the recorded pieces as complete,
   * with their bits and byte count; it reports the torrent complete exactly when every piece is; and no piece
   * complete before is lost but the one being finished.
   */
  lemma RestartRebuilds(t: Torrent, ss: seq<Sys>, ls: seq<Label>, k: nat)
    requires t.Valid() && IsRun(t, ss, ls) && k <= |ls|
    ensures InRange(t, ss[k].core.resume)
    ensures var c := Boot(t, ss[k].core.resume);
            && |c.pieces| == |t.hashes| == |ss[k].core.pieces|
            && (forall i :: 0 <= i < |t.hashes| ==> (c.pieces[i].isComplete <==> i in ss[k].core.resume))
            && (forall i :: 0 <= i < |t.hashes| ==> (HasPiece(c.bitfield, i) <==> c.pieces[i].isComplete))
            && c.completed == |ss[k].core.resume|
            && (c.completed == |t.hashes| <==> AllComplete(c.pieces))
            && (c.allComplete <==> AllComplete(c.pieces))
            && c.downloaded == WrittenTotal(c.pieces, |c.pieces|)
            && (forall i :: 0 <= i < |t.hashes| && ss[k].core.pieces[i].isComplete && i !in Unrecorded(ss[k].io) ==>
                  c.pieces[i].isComplete)
  {
    hide Boot;
    RecordsSound(t, ss, ls, k);
    BootRebuilds(t, ss[k].core.resume);
    Pigeonhole(ss[k].core.resume, |t.hashes|);
  }

  /** A set bit means a complete piece, and outside one window the bitfield is exactly the complete pieces. */
  lemma BitfieldExact(t: Torrent, ss: seq<Sys>, ls: seq<Label>, k: nat, i: nat)
    requires t.Valid() && IsRun(t, ss, ls) && k <= |ls|
    ensures |ss[k].core.pieces| == |t.hashes|
    ensures HasPiece(ss[k].core.bitfield, i) <==>
            i < |t.hashes| && ss[k].core.pieces[i].isComplete && !(ss[k].io.Marking? && ss[k].io.piece == i)
  {
    RunInv(t, ss, ls, k);
  }

  /**
   * A peer that reads our bitfield into an empty one learns exactly the complete pieces (but for the one being
   * marked), and never meets an index past the last piece.
   */
  lemma BitfieldRoundTrip(t: Torrent, ss: seq<Sys>, ls: seq<Label>, k: nat)
    requires t.Valid() && IsRun(t, ss, ls) && k <= |ls|
    ensures |ss[k].core.pieces| == |t.hashes|
    ensures forall i: nat :: HasPiece(ss[k].core.bitfield, i) ==> i < |t.hashes|
    ensures var read := Handlers.WithBits(seq(|t.hashes|, _ => false), ss[k].core.bitfield);
            forall i :: 0 <= i < |t.hashes| ==>
              (read[i] <==> ss[k].core.pieces[i].isComplete && !(ss[k].io.Marking? && ss[k].io.piece == i))
  {
    forall i: nat
      ensures HasPiece(ss[k].core.bitfield, i) <==>
              |ss[k].core.pieces| == |t.hashes| && i < |t.hashes| && ss[k].core.pieces[i].isComplete
              && !(ss[k].io.Marking? && ss[k].io.piece == i)
    {
      BitfieldExact(t, ss, ls, k, i);
    }
    RunInv(t, ss, ls, k);
  }

  /** A recorded piece stays recorded and complete for good, whatever crashes follow. */
  lemma {:induction false} RecordsStay(t: Torrent, ss: seq<Sys>, ls: seq<Label>, a: nat, b: nat)
    requires t.Valid() && IsRun(t, ss, ls) && a <= b <= |ls|
    ensures ss[a].core.resume <= ss[b].core.resume
    decreases b
  {
    hide Inv, Enabled, Step;
    if a == b {
    } else {
      RecordsStay(t, ss, ls, a, b - 1);
      RunInv(t, ss, ls, b - 1);
      RecordsStep(t, ss[b - 1], ls[b - 1]);
    }
  }
}
