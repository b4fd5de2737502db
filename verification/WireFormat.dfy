/** The peer messages byte by byte, as BEP 3 ("peer messages") lays them out. */
module WireFormat {
  import opened Bytes
  import opened Wire

  /** Four bytes read as a number, the first the most significant. */
  function BigEndian(b: seq<byte>, at: nat): int
    requires at + 4 <= |b|
  {
    var b0: int, b1: int, b2: int, b3: int := b[at], b[at + 1], b[at + 2], b[at + 3];
    b0 * 16777216 + b1 * 65536 + b2 * 256 + b3
  }

  lemma NumbersAreBigEndian(b: seq<byte>, at: nat)
    requires at + 4 <= |b|
    ensures UInt32At(b, at) == BigEndian(b, at)
    ensures Int32At(b, at) == if BigEndian(b, at) < 0x8000_0000 then BigEndian(b, at) else BigEndian(b, at) - 0x1_0000_0000
  {
  }

  lemma Written(v: int, pre: seq<byte>, post: seq<byte>)
    requires 0 <= v < 0x1_0000_0000
    ensures BigEndian(pre + Be32(v) + post, |pre|) == v
  {
    hide UInt32At, Be32, BigEndian;
    Be32RoundTrip(v, pre, post);
    NumbersAreBigEndian(pre + Be32(v) + post, |pre|);
  }

  /** A frame is the length of its body and the body. */
  lemma FrameLayout(body: Body)
    requires |body| < 0x1_0000_0000
    ensures var f := Frame(body);
            |f| == 4 + |body| && BigEndian(f, 0) == |body| && f[4..] == body
  {
    hide Be32, BigEndian;
    Written(|body|, [], body);
    assert [] + Be32(|body|) + body == Frame(body);
  }

  /** A request: id 6, piece, offset, length. */
  lemma RequestLayout(piece: int, begin: int, length: int)
    requires 0 <= piece < 0x1_0000_0000 && 0 <= begin < 0x1_0000_0000 && 0 <= length < 0x1_0000_0000
    ensures var f := Frame(RequestBody(piece, begin, length));
            && |f| == 17 && BigEndian(f, 0) == 13 && f[4] == 6
            && BigEndian(f, 5) == piece && BigEndian(f, 9) == begin && BigEndian(f, 13) == length
  {
    hide Be32, BigEndian;
    var f := Frame(RequestBody(piece, begin, length));
    var head := Be32(13) + [6];
    Written(13, [], [6] + Be32(piece) + Be32(begin) + Be32(length));
    assert f == [] + Be32(13) + ([6] + Be32(piece) + Be32(begin) + Be32(length));
    Written(piece, head, Be32(begin) + Be32(length));
    assert f == head + Be32(piece) + (Be32(begin) + Be32(length));
    Written(begin, head + Be32(piece), Be32(length));
    assert f == (head + Be32(piece)) + Be32(begin) + Be32(length);
    Written(length, head + Be32(piece) + Be32(begin), []);
    assert f == (head + Be32(piece) + Be32(begin)) + Be32(length) + [];
  }

  /** What is read from a request: the same three places. */
  lemma RequestRead(payload: seq<byte>)
    ensures if |payload| < 12 then ReadRequest(payload) == None
            else ReadRequest(payload)
                 == Some(RequestFields(BigEndian(payload, 0), BigEndian(payload, 4), BigEndian(payload, 8)))
  {
  }

  /** A have: id 4 and the piece. */
  lemma HaveLayout(piece: int)
    requires 0 <= piece < 0x1_0000_0000
    ensures var f := Frame(HaveBody(piece));
            |f| == 9 && BigEndian(f, 0) == 5 && f[4] == 4 && BigEndian(f, 5) == piece
  {
    hide Be32, BigEndian;
    var f := Frame(HaveBody(piece));
    Written(5, [], [4] + Be32(piece));
    assert f == [] + Be32(5) + ([4] + Be32(piece));
    Written(piece, Be32(5) + [4], []);
    assert f == (Be32(5) + [4]) + Be32(piece) + [];
  }

  /** The body of a piece message: id 7, piece, offset, block; that of a bitfield: id 5 and the bits. */
  lemma PieceLayout(piece: int, begin: int, block: seq<byte>)
    requires 0 <= piece < 0x1_0000_0000 && 0 <= begin < 0x1_0000_0000
    ensures var body := PieceBody(piece, begin, block);
            && |body| == 9 + |block| && body[0] == 7
            && BigEndian(body, 1) == piece && BigEndian(body, 5) == begin && body[9..] == block
    ensures BitfieldBody(block) == [5] + block
  {
    hide Be32, BigEndian;
    var body := PieceBody(piece, begin, block);
    Written(piece, [7], Be32(begin) + block);
    assert body == [7] + Be32(piece) + (Be32(begin) + block);
    Written(begin, [7] + Be32(piece), block);
    assert body == ([7] + Be32(piece)) + Be32(begin) + block;
  }

  /** What is read from a piece message: the same places, signed. */
  lemma PieceRead(payload: seq<byte>)
    requires |payload| >= 8 && BigEndian(payload, 0) < 0x8000_0000 && BigEndian(payload, 4) < 0x8000_0000
    ensures ReadPiece(payload) == Some(PieceFields(BigEndian(payload, 0), BigEndian(payload, 4), payload[8..]))
  {
  }

  /** The two messages that are their id alone. */
  lemma ShortFrames()
    ensures Frame([ID_INTERESTED]) == [0, 0, 0, 1, 2] && Frame([ID_UNCHOKE]) == [0, 0, 0, 1, 1]
  {
  }
}
