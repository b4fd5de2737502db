/** What the constructor rebuilds from the resume records. */
module Startup {
  import opened Distinct
  import opened Layout
  import opened Bits
  import opened PieceCore
  import opened PieceInvariant

  /** A piece just loaded from the resume file. */
  function LoadedPiece(t: Torrent, i: nat): PieceBuffer
    requires t.Valid() && i < |t.hashes|
  {
    EMPTY_PIECE.(bytesWritten := t.PieceLen(i), isComplete := true)
  }

  lemma {:induction false} LoadedPieces(t: Torrent, records: seq<nat>, k: nat)
    requires t.Valid() && InRange(t, records) && k <= |records|
    ensures var c := LoadUpTo(t, records, k);
            && c.queue == [] && c.resume == records && !c.allComplete
            && |c.pieces| == |t.hashes|
            && forall i :: 0 <= i < |c.pieces| ==>
                 c.pieces[i] == if i in records[..k] then LoadedPiece(t, i) else EMPTY_PIECE
  {
    hide MarkPiece;
    if k == 0 {
    } else {
      LoadedPieces(t, records, k - 1);
      assert records[..k] == records[..k - 1] + [records[k - 1]];
    }
  }

  lemma {:induction false} LoadedBits(t: Torrent, records: seq<nat>, k: nat)
    requires t.Valid() && InRange(t, records) && k <= |records|
    ensures forall i: nat :: HasPiece(LoadUpTo(t, records, k).bitfield, i) <==> i in records[..k]
  {
    hide HasPiece, MarkPiece;
    if k == 0 {
      NoPieces((|t.hashes| + 7) / 8);
    } else {
      LoadedBits(t, records, k - 1);
      assert records[..k] == records[..k - 1] + [records[k - 1]];
    }
  }

  lemma LoadNext(t: Torrent, records: seq<nat>, k: nat)
    requires t.Valid() && InRange(t, records) && k < |records| && NoDup(records)
    ensures var c, d, i := LoadUpTo(t, records, k), LoadUpTo(t, records, k + 1), records[k];
            && i < |c.pieces| && c.pieces[i] == EMPTY_PIECE && d.pieces == c.pieces[i := LoadedPiece(t, i)]
            && d.downloaded == c.downloaded + t.PieceLen(i)
  {
    hide HasPiece, MarkPiece, Torrent.PieceLen;
    LoadedPieces(t, records, k);
    assert records[k] !in records[..k];
  }

  /** Records that name distinct pieces are each counted once. */
  lemma {:induction false} LoadedBytes(t: Torrent, records: seq<nat>, k: nat)
    requires t.Valid() && InRange(t, records) && k <= |records| && NoDup(records)
    ensures var c := LoadUpTo(t, records, k);
            c.downloaded == WrittenTotal(c.pieces, |c.pieces|) == LengthSum(t, records[..k])
  {
    hide HasPiece, MarkPiece, WrittenTotal, NoDup, Torrent.PieceLen;
    if k == 0 {
      WrittenTotalNone(t, records, |t.hashes|);
    } else {
      hide LoadUpTo;
      LoadedBytes(t, records, k - 1);
      LoadNext(t, records, k - 1);
      var c, i := LoadUpTo(t, records, k - 1), records[k - 1];
      WrittenTotalChange(c.pieces, i, LoadedPiece(t, i), |c.pieces|);
      assert records[..k][..k - 1] == records[..k - 1];
    }
  }

  lemma {:induction false} WrittenTotalNone(t: Torrent, records: seq<nat>, n: nat)
    requires n <= |t.hashes|
    ensures WrittenTotal(Fresh(t, records).pieces, n) == 0
  {
    if n == 0 {
    } else {
      WrittenTotalNone(t, records, n - 1);
    }
  }

  /** What a start on distinct records rebuilds: completed set, bitfield, counters and the fast flag. */
  lemma BootRebuilds(t: Torrent, records: seq<nat>)
    requires t.Valid() && InRange(t, records) && NoDup(records)
    ensures var c := Boot(t, records);
            && (forall i :: 0 <= i < |t.hashes| ==>
                  c.pieces[i] == if i in records then LoadedPiece(t, i) else EMPTY_PIECE)
            && (forall i: nat :: HasPiece(c.bitfield, i) <==> i in records)
            && c.downloaded == WrittenTotal(c.pieces, |c.pieces|) == LengthSum(t, records)
            && c.completed == |records|
            && (c.allComplete <==> AllComplete(c.pieces))
            && c.queue == [] && c.resume == records
  {
    hide HasPiece, MarkPiece, LoadUpTo;
    LoadedPieces(t, records, |records|);
    LoadedBits(t, records, |records|);
    LoadedBytes(t, records, |records|);
    Pigeonhole(records, |t.hashes|);
    assert records[..|records|] == records;
  }
}
