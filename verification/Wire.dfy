/** Peer wire messages as bytes: bodies, and the framing that carries them over a stream. */
module Wire {
  import opened Bytes

  type Body = seq<byte>

  const ID_UNCHOKE: byte := 1
  const ID_INTERESTED: byte := 2
  const ID_HAVE: byte := 4
  const ID_BITFIELD: byte := 5
  const ID_REQUEST: byte := 6
  const ID_PIECE: byte := 7

  // ---------------------------------------------------------------- bodies

  function RequestBody(piece: int, begin: int, length: int): Body {
    [ID_REQUEST] + Be32(piece) + Be32(begin) + Be32(length)
  }

  function HaveBody(piece: int): Body {
    [ID_HAVE] + Be32(piece)
  }

  function PieceBody(piece: int, begin: int, block: seq<byte>): Body {
    [ID_PIECE] + Be32(piece) + Be32(begin) + block
  }

  function BitfieldBody(bits: seq<byte>): Body {
    [ID_BITFIELD] + bits
  }

  datatype RequestFields = RequestFields(piece: nat, begin: nat, length: nat)

  /** What `handle_request` reads: unsigned fields; a short payload is dropped. */
  function ReadRequest(payload: seq<byte>): Option<RequestFields> {
    if |payload| < 12 then None
    else Some(RequestFields(UInt32At(payload, 0), UInt32At(payload, 4), UInt32At(payload, 8)))
  }

  /** What `handle_have` reads: a signed index; a short payload is dropped. */
  function ReadHave(payload: seq<byte>): Option<int> {
    if |payload| < 4 then None else Some(Int32At(payload, 0))
  }

  datatype PieceFields = PieceFields(piece: int, begin: int, block: seq<byte>)

  /** What `handle_piece` reads: signed index and offset, then the block; a short payload is dropped. */
  function ReadPiece(payload: seq<byte>): Option<PieceFields> {
    if |payload| < 8 then None
    else Some(PieceFields(Int32At(payload, 0), Int32At(payload, 4), payload[8..]))
  }

  /** A request names the fields it was built from, for all values an `int` holds without a sign. */
  lemma RequestRoundTrip(piece: int, begin: int, length: int)
    requires 0 <= piece < TWO_31 && 0 <= begin < TWO_31 && 0 <= length < TWO_31
    ensures var body := RequestBody(piece, begin, length);
            |body| == 13 && body[0] == ID_REQUEST
            && ReadRequest(body[1..]) == Some(RequestFields(piece, begin, length))
  {
    var payload := RequestBody(piece, begin, length)[1..];
    Be32RoundTrip(piece, [], Be32(begin) + Be32(length));
    Be32RoundTrip(begin, Be32(piece), Be32(length));
    Be32RoundTrip(length, Be32(piece) + Be32(begin), []);
    assert payload == [] + Be32(piece) + (Be32(begin) + Be32(length));
    assert payload == Be32(piece) + Be32(begin) + Be32(length);
    assert payload == (Be32(piece) + Be32(begin)) + Be32(length) + [];
  }

  lemma HaveRoundTrip(piece: int)
    requires 0 <= piece < TWO_31
    ensures |HaveBody(piece)| == 5 && HaveBody(piece)[0] == ID_HAVE
    ensures ReadHave(HaveBody(piece)[1..]) == Some(piece)
  {
    Be32RoundTrip(piece, [], []);
    assert HaveBody(piece)[1..] == [] + Be32(piece) + [];
  }

  lemma PieceRoundTrip(piece: int, begin: int, block: seq<byte>)
    requires 0 <= piece < TWO_31 && 0 <= begin < TWO_31
    ensures PieceBody(piece, begin, block)[0] == ID_PIECE
    ensures ReadPiece(PieceBody(piece, begin, block)[1..]) == Some(PieceFields(piece, begin, block))
  {
    var payload := PieceBody(piece, begin, block)[1..];
    Be32RoundTrip(piece, [], Be32(begin) + block);
    Be32RoundTrip(begin, Be32(piece), block);
    assert payload == [] + Be32(piece) + (Be32(begin) + block);
    assert payload == Be32(piece) + Be32(begin) + block;
    assert payload[8..] == block;
  }

  // ---------------------------------------------------------------- framing

  /** A body behind a correct four-byte big-endian length; the empty body is a keep-alive. */
  function Frame(body: Body): seq<byte> {
    Be32(|body|) + body
  }

  function Stream(bodies: seq<Body>): seq<byte> {
    if bodies == [] then [] else Frame(bodies[0]) + Stream(bodies[1..])
  }

  function NonEmpty(bodies: seq<Body>): seq<Body> {
    if bodies == [] then [] else (if bodies[0] == [] then [] else [bodies[0]]) + NonEmpty(bodies[1..])
  }

  /** The message bodies a reader of `stream` hands over: those of its complete frames, keep-alives skipped. */
  function Delivered(stream: seq<byte>): seq<Body>
    decreases |stream|
  {
    if |stream| < 4 then []
    else
      var n := UInt32At(stream, 0);
      if n == 0 then Delivered(stream[4..])
      else if |stream| < 4 + n then []
      else [stream[4..4 + n]] + Delivered(stream[4 + n..])
  }

  lemma UInt32From(stream: seq<byte>, at: nat)
    requires at + 4 <= |stream|
    ensures UInt32At(stream[at..], 0) == UInt32At(stream, at)
  {
  }

  /** One frame of the stream, at `at`. */
  lemma DeliveredAt(stream: seq<byte>, at: nat)
    requires at + 4 <= |stream|
    ensures var n := UInt32At(stream, at);
            Delivered(stream[at..])
            == if n == 0 then Delivered(stream[at + 4..])
               else if |stream| < at + 4 + n then []
               else [stream[at + 4..at + 4 + n]] + Delivered(stream[at + 4 + n..])
  {
    hide UInt32At;
    var rest, n := stream[at..], UInt32At(stream, at);
    UInt32From(stream, at);
    assert rest[4..] == stream[at + 4..];
    if at + 4 + n <= |stream| {
      assert rest[4..4 + n] == stream[at + 4..at + 4 + n];
      assert rest[4 + n..] == stream[at + 4 + n..];
    }
  }

  lemma NothingLeft(stream: seq<byte>)
    requires |stream| < 4
    ensures Delivered(stream) == []
  {
  }

  /** `read_message_length` and `read_message_body`, one after the other, as long as the stream supplies bytes. */
  method ReadMessages(stream: seq<byte>) returns (handed: seq<Body>)
    ensures handed == Delivered(stream)
  {
    hide Delivered, UInt32At;
    handed := [];
    var at := 0;
    assert stream[0..] == stream;
    while at + 4 <= |stream|
      invariant 0 <= at <= |stream|
      invariant handed + Delivered(stream[at..]) == Delivered(stream)
      decreases |stream| - at
    {
      DeliveredAt(stream, at);
      var len := UInt32At(stream, at);
      if len == 0 {
        at := at + 4;
      } else {
        if at + 4 + len > |stream| {
          break;
        }
        handed := handed + [stream[at + 4..at + 4 + len]];
        at := at + 4 + len;
      }
    }
    if |stream| < at + 4 {
      NothingLeft(stream[at..]);
    }
  }

  lemma FirstFrame(body: Body, after: seq<byte>)
    requires |body| < TWO_32
    ensures Delivered(Frame(body) + after) == (if body == [] then [] else [body]) + Delivered(after)
  {
    var stream := Frame(body) + after;
    Be32RoundTrip(|body|, [], body + after);
    assert stream == [] + Be32(|body|) + (body + after);
    assert stream[4..4 + |body|] == body;
    assert stream[4 + |body|..] == after;
  }

  /** The frame `signal_have` sends names the same piece at the other end. */
  lemma HaveFrameReads(piece: int, rest: seq<byte>)
    requires 0 <= piece < TWO_31
    ensures var bodies := Delivered(Frame(HaveBody(piece)) + rest);
            && |bodies| > 0 && bodies[0] == HaveBody(piece)
            && |bodies[0]| == 5 && bodies[0][0] == ID_HAVE && ReadHave(bodies[0][1..]) == Some(piece)
  {
    HaveRoundTrip(piece);
    FirstFrame(HaveBody(piece), rest);
  }

  /**
   * Correctly framed bodies are handed over exactly, in order, whatever follows them; keep-alives are not
   * messages.
   */
  lemma {:induction false} FramingRoundTrip(bodies: seq<Body>, rest: seq<byte>)
    requires forall k :: 0 <= k < |bodies| ==> |bodies[k]| < TWO_32
    ensures Delivered(Stream(bodies) + rest) == NonEmpty(bodies) + Delivered(rest)
  {
    hide Delivered, Frame;
    if bodies == [] {
      assert Stream(bodies) + rest == rest;
    } else {
      FirstFrame(bodies[0], Stream(bodies[1..]) + rest);
      assert Stream(bodies) + rest == Frame(bodies[0]) + (Stream(bodies[1..]) + rest);
      FramingRoundTrip(bodies[1..], rest);
    }
  }

  // ---------------------------------------------------------------- the two length prefixes built at size_t width

  /**
   * The prefix that `signal_bitfield` and `handle_request` put before a body of `n` bytes on a 64-bit little-endian
   * host: the length is byte-swapped at eight bytes and the low four are kept, which are the upper four of `n`.
   */
  function SizeTPrefix(n: nat): seq<byte> {
    Be32(n / TWO_32)
  }

  /**
   * The prefix is never the body's length: a reader takes it for a keep-alive and goes on to read the body itself
   * as frames.
   */
  lemma SizeTFrameMisread(body: Body, rest: seq<byte>)
    requires 0 < |body| < TWO_32
    ensures SizeTPrefix(|body|) != Be32(|body|)
    ensures Delivered(SizeTPrefix(|body|) + body + rest) == Delivered(body + rest)
  {
    var stream := SizeTPrefix(|body|) + body + rest;
    Be32RoundTrip(|body|, [], []);
    Be32RoundTrip(0, [], []);
    assert |body| / TWO_32 == 0;
    assert [] + Be32(0) + [] == Be32(0) && [] + Be32(|body|) + [] == Be32(|body|);
    assert UInt32At(stream, 0) == 0;
    assert stream[4..] == body + rest;
  }
}
