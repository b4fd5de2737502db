/** One connection of the swarm: its flags, the peer's bitfield, its request counter, and its message handlers. */
module PeerConnections {
  import opened Bytes
  import opened Layout
  import opened Bits
  import opened PieceCore
  import opened PieceInvariant
  import opened CoreInvariant
  import opened StorageFiles
  import opened PieceManagers
  import opened Wire
  import opened Handlers

  class PeerConnection {
    const id: nat                          // what a weak pointer to this connection compares equal by
    const pm: PieceManager
    const inFlightBlocks: InFlightCounter
    const socket: Outbox
    const peerBitfield: array<bool>
    var amChoked: bool
    var amInterested: bool
    var peerChoked: bool
    var peerInterested: bool

    ghost predicate Valid()
      reads this, pm, pm.pieces, pm.storage
    {
      && pm.Valid()
      && peerBitfield.Length == |pm.t.hashes|
    }

    ghost function View(): World
      reads this, pm, pm.pieces, inFlightBlocks, socket, peerBitfield
    {
      World(pm.View(),
            ConnState(amChoked, amInterested, peerChoked, peerInterested, peerBitfield[..], inFlightBlocks.value),
            socket.sent, socket in pm.peers)
    }

    constructor (id: nat, pm: PieceManager)
      requires pm.Valid()
      ensures Valid() && fresh(inFlightBlocks) && fresh(socket) && fresh(peerBitfield)
      ensures this.id == id && this.pm == pm
      ensures View() == World(pm.View(), ConnState(true, false, true, false, seq(|pm.t.hashes|, _ => false), 0), [], false)
    {
      this.id := id;
      this.pm := pm;
      inFlightBlocks := new InFlightCounter();
      socket := new Outbox();
      peerBitfield := new bool[|pm.t.hashes|](_ => false);
      amChoked, amInterested, peerChoked, peerInterested := true, false, true, false;
    }

    // ---------------------------------------------------------------- sending

    method SendInterested()
      modifies socket
      ensures socket.sent == old(socket.sent) + [Frame([ID_INTERESTED])]
    {
      socket.Send([0, 0, 0, 1, ID_INTERESTED]);
      assert Frame([ID_INTERESTED]) == [0, 0, 0, 1, ID_INTERESTED];
    }

    method SendRequest(piece: int, begin: int, length: int)
      modifies socket, inFlightBlocks
      ensures socket.sent == old(socket.sent) + [Frame(RequestBody(piece, begin, length))]
      ensures inFlightBlocks.value == old(inFlightBlocks.value) + 1
    {
      var msg := [0, 0, 0, 13, ID_REQUEST] + Be32(piece) + Be32(begin) + Be32(length);
      assert msg == Frame(RequestBody(piece, begin, length)) by {
        assert Be32(13) == [0, 0, 0, 13];
      }
      socket.Send(msg);
      inFlightBlocks.Add(1);
    }

    method SignalBitfield()
      modifies socket
      ensures socket.sent == old(socket.sent) + [SizeTPrefix(1 + |pm.bitfield|) + BitfieldBody(pm.bitfield)]
    {
      var buffer := SizeTPrefix(1 + |pm.bitfield|) + [ID_BITFIELD];
      buffer := buffer + pm.bitfield;
      assert buffer == SizeTPrefix(1 + |pm.bitfield|) + BitfieldBody(pm.bitfield);
      socket.Send(buffer);
    }

    method SignalUnchoke()
      modifies `peerChoked, socket
      ensures !peerChoked && socket.sent == old(socket.sent) + [Frame([ID_UNCHOKE])]
    {
      peerChoked := false;
      socket.Send(Be32(1) + [ID_UNCHOKE]);
    }

    // ---------------------------------------------------------------- requesting

    /** `maybe_request_next`, with nothing else running. */
    method MaybeRequestNext(clock: Clock)
      requires Valid()
      modifies socket, inFlightBlocks, pm`allComplete, pm.pieces
      ensures Valid()
      ensures WorldOk(pm.t, old(View()))
      ensures View() == AfterRequests(pm.t, old(View()), id, clock)
    {
      hide AfterRequestsFrom, CoreOk, NextBlock, Frame, RequestBody;
      ghost var w0 := View();
      var k := 0;
      while !amChoked && inFlightBlocks.value < MAX_IN_FLIGHT
        invariant Valid() && WorldOk(pm.t, View())
        invariant AfterRequestsFrom(pm.t, View(), id, clock, k) == AfterRequests(pm.t, w0, id, clock)
        decreases MAX_IN_FLIGHT - inFlightBlocks.value
      {
        RequestRound(pm.t, View(), id, clock, k);
        var now := clock(k);
        var req := pm.NextBlockRequest(peerBitfield[..], now, id);
        if req.None? {
          return;
        }
        var rest := pm.t.PieceLen(req.value.piece) - req.value.block * BLOCK;
        SendRequest(req.value.piece, req.value.block * BLOCK, if BLOCK < rest then BLOCK else rest);
        k := k + 1;
      }
      NoRequests(pm.t, View(), id, clock, k);
    }

    // ---------------------------------------------------------------- the peer's pieces

    method SetBitfield(payload: seq<byte>)
      requires forall k: nat :: HasPiece(payload, k) ==> k < peerBitfield.Length
      modifies peerBitfield
      ensures peerBitfield[..] == WithBits(old(peerBitfield[..]), payload)
    {
      ghost var has0 := peerBitfield[..];
      for i := 0 to |payload|
        invariant forall k :: 0 <= k < peerBitfield.Length ==>
          peerBitfield[k] == (has0[k] || (k < 8 * i && HasPiece(payload, k)))
      {
        var bit := 7;
        while bit >= 0
          invariant -1 <= bit <= 7
          invariant forall k :: 0 <= k < peerBitfield.Length ==>
            peerBitfield[k] == (has0[k] || (k < 8 * i + 7 - bit && HasPiece(payload, k)))
        {
          ghost var index := 8 * i + (7 - bit);
          assert index / 8 == i && index % 8 == 7 - bit;
          if TestBit(payload[i], bit) {
            assert HasPiece(payload, index);
            peerBitfield[i * 8 + (7 - bit)] := true;
          }
          bit := bit - 1;
        }
      }
      assert forall k :: 0 <= k < peerBitfield.Length && HasPiece(payload, k) ==> k < 8 * |payload|;
    }

    method HandleHave(payload: seq<byte>, clock: Clock)
      requires Valid()
      requires |payload| >= 4 ==> 0 <= Int32At(payload, 0) < |pm.t.hashes|
      modifies `amInterested, socket, inFlightBlocks, peerBitfield, pm`allComplete, pm.pieces
      ensures Valid()
      ensures WorldOk(pm.t, old(View()))
      ensures View() == OnHave(pm.t, old(View()), id, clock, payload)
    {
      hide AfterRequests, CoreOk, Frame;
      if |payload| < 4 {
        return;
      }
      var pieceIndex := Int32At(payload, 0);
      ghost var has0 := peerBitfield[..];
      peerBitfield[pieceIndex] := true;
      assert peerBitfield[..] == has0[pieceIndex := true];
      if !amInterested {
        amInterested := true;
        SendInterested();
      }
      MaybeRequestNext(clock);
    }

    method HandleBitfield(payload: seq<byte>, clock: Clock)
      requires Valid()
      requires forall k: nat :: HasPiece(payload, k) ==> k < |pm.t.hashes|
      modifies `amInterested, socket, inFlightBlocks, peerBitfield, pm`allComplete, pm.pieces
      ensures Valid()
      ensures WorldOk(pm.t, old(View()))
      ensures View() == OnBitfield(pm.t, old(View()), id, clock, payload)
    {
      hide AfterRequests, CoreOk, Frame;
      SetBitfield(payload);
      if !amInterested {
        amInterested := true;
        SendInterested();
      }
      MaybeRequestNext(clock);
    }

    method HandlePiece(payload: seq<byte>, clock: Clock)
      requires Valid()
      requires |payload| >= 8 ==> Answers(pm.t, pm.View(), Int32At(payload, 0), Int32At(payload, 4), payload[8..])
      modifies socket, inFlightBlocks, pm.pieces, pm.Peers()
      modifies pm`allComplete, pm`downloaded, pm`completed, pm`bitfield, pm`queue, pm`resume
      ensures Valid()
      ensures WorldOk(pm.t, old(View()))
      ensures View() == OnPiece(pm.t, old(View()), id, clock, payload)
      ensures forall o :: o in pm.peers && o != socket ==> o.sent == old(o.sent) + News(pm.t, old(pm.View()), payload)
    {
      hide AfterRequests, CoreOk, Sized, Indexable, StoreInRange, Completes, AddBlockWhole, Int32At, Frame, HaveBody;
      if |payload| < 8 {
        return;
      }
      var pieceIndex := Int32At(payload, 0);
      var begin := Int32At(payload, 4);
      ghost var w0, news := View(), News(pm.t, pm.View(), payload);
      inFlightBlocks.Add(-1);
      pm.AddBlock(pieceIndex, begin, payload[8..]);
      assert View() == w0.(core := AddBlockWhole(pm.t, w0.core, pieceIndex, begin, payload[8..]),
                           conn := w0.conn.(inFlight := w0.conn.inFlight - 1),
                           sent := w0.sent + if w0.listed then news else []);
      MaybeRequestNext(clock);
    }

    /** Serves a block from the files; an empty block is not answered. */
    method HandleRequest(payload: seq<byte>)
      requires Valid()
      modifies socket
      ensures View() == OnRequest(pm.t, old(View()), pm.storage.Content(), payload)
    {
      if |payload| < 12 {
        return;
      }
      var pieceIndex := UInt32At(payload, 0);
      var begin := UInt32At(payload, 4);
      var length := UInt32At(payload, 8);
      var block := pm.FetchBlock(pieceIndex, begin, length);
      if block == [] {
        return;
      }
      var buffer := SizeTPrefix(9 + |block|) + [ID_PIECE];
      buffer := buffer + Be32(pieceIndex) + Be32(begin);
      buffer := buffer + block;
      assert buffer == SizeTPrefix(9 + |block|) + PieceBody(pieceIndex, begin, block);
      socket.Send(buffer);
    }

    /** `handle_message`: dispatch on the message id. */
    method HandleMessage(body: Body, clock: Clock)
      requires Valid() && Acceptable(pm.t, View(), body)
      modifies this, socket, inFlightBlocks, peerBitfield, pm.pieces, pm.Peers()
      modifies pm`allComplete, pm`downloaded, pm`completed, pm`bitfield, pm`queue, pm`resume
      ensures Valid()
      ensures WorldOk(pm.t, old(View()))
      ensures View() == OnMessage(pm.t, old(View()), old(pm.storage.Content()), id, clock, body)
      ensures forall o :: o in pm.peers && o != socket ==>
                o.sent == old(o.sent) + if body != [] && body[0] == 7 then News(pm.t, old(pm.View()), body[1..]) else []
    {
      hide AfterRequests, CoreOk, OnPiece, OnHave, OnBitfield, OnRequest, Frame, Answers;
      if body == [] {
        return;
      }
      var payload := body[1..];
      match body[0]
      case 0 => amChoked := true;
      case 1 =>
        amChoked := false;
        if amInterested {
          MaybeRequestNext(clock);
        }
      case 2 =>
        peerInterested := true;
        SignalUnchoke();
      case 3 => peerInterested := false;
      case 4 => HandleHave(payload, clock);
      case 5 => HandleBitfield(payload, clock);
      case 6 => HandleRequest(payload);
      case 7 => HandlePiece(payload, clock);
      case _ =>
    }
  }
}
