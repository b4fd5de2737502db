/** The metadata the piece engine runs on, and how the byte range [0, total) is cut into pieces and blocks. */
module Layout {
  import opened Bytes

  const BLOCK: nat := 16384

  type Digest = seq<byte>

  /** `sha1` is left uninterpreted: any function from byte strings to digests will do. */
  datatype Torrent = Torrent(pieceLength: nat, total: nat, hashes: seq<Digest>, sha1: seq<byte> -> Digest) {

    ghost predicate Valid() {
      && pieceLength > 0
      && |hashes| > 0
      && pieceLength * (|hashes| - 1) < total <= pieceLength * |hashes|
    }

    function Start(i: nat): nat {
      i * pieceLength
    }

    function PieceLen(i: nat): (n: nat)
      requires Valid() && i < |hashes|
      ensures 0 < n <= pieceLength
    {
      LastPieceBounds();
      if i < |hashes| - 1 then pieceLength else total - pieceLength * (|hashes| - 1)
    }

    lemma LastPieceBounds()
      requires Valid()
      ensures 0 < total - pieceLength * (|hashes| - 1) <= pieceLength
    {
      assert pieceLength * |hashes| == pieceLength * (|hashes| - 1) + pieceLength;
    }

    function BlockCount(i: nat): (n: nat)
      requires Valid() && i < |hashes|
      ensures n > 0
    {
      (PieceLen(i) + (BLOCK - 1)) / BLOCK
    }

    /** The length asked for in the request for block `j` of piece `i`. */
    function RequestLen(i: nat, j: nat): (n: nat)
      requires Valid() && i < |hashes| && j < BlockCount(i)
      ensures 0 < n <= 16384 && j * BLOCK + n <= PieceLen(i)
    {
      var rest := PieceLen(i) - j * BLOCK;
      if BLOCK < rest then BLOCK else rest
    }

    /** `verify_hash`. */
    predicate HashMatches(i: nat, data: seq<byte>)
      requires i < |hashes|
    {
      sha1(data) == hashes[i]
    }

    /** Byte `b` of the content lies in block `j` of piece `i`. */
    ghost predicate InBlock(i: nat, j: nat, b: nat)
      requires Valid()
    {
      && i < |hashes|
      && j < BlockCount(i)
      && i * pieceLength + j * 16384 <= b < i * pieceLength + j * 16384 + RequestLen(i, j)
    }
  }

  lemma MulMonotone(a: nat, b: nat, m: nat)
    requires a <= b
    ensures a * m <= b * m
  {
  }

  lemma DivUnique(b: nat, m: nat, q: nat)
    requires m > 0 && q * m <= b < q * m + m
    ensures b / m == q && b % m == b - q * m
  {
    if b / m < q {
      MulMonotone(b / m + 1, q, m);
    } else if b / m > q {
      MulMonotone(q + 1, b / m, m);
    }
  }

  /** A piece ends where the next one starts, and the last one ends at `total`. */
  lemma PieceEnd(t: Torrent, i: nat)
    requires t.Valid() && i < |t.hashes|
    ensures t.Start(i) + t.PieceLen(i) <= t.total
    ensures t.Start(i) + t.PieceLen(i) == if i < |t.hashes| - 1 then t.Start(i + 1) else t.total
  {
    assert t.Start(i + 1) == t.Start(i) + t.pieceLength;
    if i < |t.hashes| - 1 {
      MulMonotone(i + 1, |t.hashes| - 1, t.pieceLength);
    }
  }

  /** Different pieces own disjoint byte ranges. */
  lemma PiecesDisjoint(t: Torrent, i: nat, k: nat)
    requires t.Valid() && i < k < |t.hashes|
    ensures t.Start(i) + t.PieceLen(i) <= t.Start(k)
  {
    MulMonotone(i + 1, k, t.pieceLength);
    assert t.Start(i + 1) == t.Start(i) + t.pieceLength;
  }

  /** Exact tiling: every content byte lies in one block of one piece, and in no other. */
  lemma Tiling(t: Torrent, b: nat)
    requires t.Valid() && b < t.total
    ensures t.InBlock(b / t.pieceLength, b % t.pieceLength / 16384, b)
    ensures forall i, j :: t.InBlock(i, j, b) ==> i == b / t.pieceLength && j == b % t.pieceLength / 16384
  {
    var m := t.pieceLength;
    var i := b / m;
    assert i * m <= b < i * m + m && b % m == b - i * m;
    if i >= |t.hashes| {
      MulMonotone(|t.hashes|, i, m);
    }
    PieceEnd(t, i);
    assert t.Start(i) == i * m;
    if i < |t.hashes| - 1 {
      assert t.Start(i + 1) == i * m + m;
    }
    assert b % m < t.PieceLen(i);
    forall i', j' | t.InBlock(i', j', b)
      ensures i' == i && j' == b % m / BLOCK
    {
      DivUnique(b, m, i');
      DivUnique(b % m, BLOCK, j');
    }
  }

  lemma PieceOfByte(t: Torrent, b: nat)
    requires t.Valid() && b < t.total
    ensures var i := b / t.pieceLength;
            i < |t.hashes| && t.Start(i) <= b < t.Start(i) + t.PieceLen(i)
  {
    Tiling(t, b);
  }

  /** Sum of the first `n` piece lengths. */
  ghost function PiecesUpTo(t: Torrent, n: nat): nat
    requires t.Valid() && n <= |t.hashes|
  {
    if n == 0 then 0 else PiecesUpTo(t, n - 1) + t.PieceLen(n - 1)
  }

  /** Sum of the request lengths of the first `k` blocks of piece `i`. */
  ghost function BlocksUpTo(t: Torrent, i: nat, k: nat): nat
    requires t.Valid() && i < |t.hashes| && k <= t.BlockCount(i)
  {
    if k == 0 then 0 else BlocksUpTo(t, i, k - 1) + t.RequestLen(i, k - 1)
  }

  lemma {:induction false} PiecesPrefix(t: Torrent, n: nat)
    requires t.Valid() && n <= |t.hashes|
    ensures PiecesUpTo(t, n) == if n < |t.hashes| then t.Start(n) else t.total
  {
    if n == 0 {
    } else {
      PiecesPrefix(t, n - 1);
      PieceEnd(t, n - 1);
    }
  }

  /** Every block but the last is full, so the blocks of a piece add up to the piece. */
  lemma {:induction false} BlocksPrefix(t: Torrent, i: nat, k: nat)
    requires t.Valid() && i < |t.hashes| && k <= t.BlockCount(i)
    ensures BlocksUpTo(t, i, k) == if k < t.BlockCount(i) then k * 16384 else t.PieceLen(i)
  {
    if k == 0 {
    } else {
      BlocksPrefix(t, i, k - 1);
    }
  }

  /** Piece lengths add up to the content, request lengths add up to the piece. */
  lemma TilingSums(t: Torrent)
    requires t.Valid()
    ensures PiecesUpTo(t, |t.hashes|) == t.total
    ensures forall i :: 0 <= i < |t.hashes| ==> BlocksUpTo(t, i, t.BlockCount(i)) == t.PieceLen(i)
  {
    PiecesPrefix(t, |t.hashes|);
    forall i | 0 <= i < |t.hashes|
      ensures BlocksUpTo(t, i, t.BlockCount(i)) == t.PieceLen(i)
    {
      BlocksPrefix(t, i, t.BlockCount(i));
    }
  }

  /** The bytes of piece `i` as the files hold them. */
  function Slice(t: Torrent, flat: seq<byte>, i: nat): seq<byte>
    requires t.Valid() && i < |t.hashes|
  {
    Window(flat, t.Start(i), t.PieceLen(i))
  }

  /** Writing a piece in its place leaves every other piece's bytes alone. */
  lemma SliceAfterWrite(t: Torrent, flat: seq<byte>, i: nat, data: seq<byte>, k: nat)
    requires t.Valid() && |flat| == t.total && i < |t.hashes| && k < |t.hashes| && |data| == t.PieceLen(i)
    ensures Slice(t, Overlay(flat, t.Start(i), data), k) == if k == i then data else Slice(t, flat, k)
  {
    PieceEnd(t, i);
    PieceEnd(t, k);
    if k < i {
      PiecesDisjoint(t, k, i);
    } else if i < k {
      PiecesDisjoint(t, i, k);
    }
  }

  /** What was written as a piece is read back, whichever part of it is asked for. */
  lemma FetchAfterWrite(t: Torrent, flat: seq<byte>, i: nat, data: seq<byte>, begin: nat, length: nat)
    requires t.Valid() && |flat| == t.total && i < |t.hashes| && |data| == t.PieceLen(i)
    requires begin + length <= |data|
    ensures Window(Overlay(flat, t.Start(i), data), t.Start(i) + begin, length) == data[begin..begin + length]
  {
    PieceEnd(t, i);
  }
}
