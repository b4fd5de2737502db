/** The bitfield: piece `i` is bit `7 - i % 8` of byte `i / 8`. */
module Bits {
  import opened Bytes

  /** `x >> s`. */
  function Shr(x: nat, s: nat): nat {
    if s == 0 then x else Shr(x / 2, s - 1)
  }

  /** `1 << s`. */
  function Shl(s: nat): (m: nat)
    ensures m > 0
  {
    if s == 0 then 1 else 2 * Shl(s - 1)
  }

  predicate TestBit(x: nat, s: nat) {
    Shr(x, s) % 2 == 1
  }

  /** Adding the weight of a clear bit sets that bit and no other. */
  lemma {:induction false} AddBit(x: nat, s: nat, k: nat)
    requires !TestBit(x, s)
    ensures TestBit(x + Shl(s), k) <==> k == s || TestBit(x, k)
  {
    if s == 0 {
      assert k > 0 ==> (x + 1) / 2 == x / 2;
    } else if k > 0 {
      AddBit(x / 2, s - 1, k - 1);
      assert (x + Shl(s)) / 2 == x / 2 + Shl(s - 1);
    }
  }

  /** Setting a clear bit below bit `n` of a number below `1 << n` does not carry past it. */
  lemma {:induction false} AddBitBound(x: nat, s: nat, n: nat)
    requires s < n && x < Shl(n) && !TestBit(x, s)
    ensures x + Shl(s) < Shl(n)
  {
    if s == 0 {
    } else {
      AddBitBound(x / 2, s - 1, n - 1);
    }
  }

  lemma ByteBound()
    ensures Shl(8) == 256
  {
    assert Shl(4) == 16;
  }

  /** `x | (1 << s)`. */
  function SetBit(x: byte, s: nat): (y: byte)
    requires s < 8
    ensures forall k: nat :: TestBit(y, k) <==> k == s || TestBit(x, k)
  {
    if TestBit(x, s) then x
    else
      ByteBound();
      AddBitBound(x, s, 8);
      var y: byte := x + Shl(s);
      assert forall k: nat :: TestBit(y, k) <==> k == s || TestBit(x, k) by {
        forall k: nat
          ensures TestBit(y, k) <==> k == s || TestBit(x, k)
        {
          AddBit(x, s, k);
        }
      }
      y
  }

  predicate HasPiece(bits: seq<byte>, i: nat) {
    i / 8 < |bits| && TestBit(bits[i / 8], 7 - i % 8)
  }

  lemma ShrHalf(x: nat, s: nat, y: nat, z: nat)
    requires y == x / 2 && Shr(y, s) == z
    ensures Shr(x, s + 1) == z
  {
  }

  lemma Halves(x: nat)
    ensures x / 4 == x / 2 / 2 && x / 8 == x / 2 / 4 && x / 16 == x / 2 / 8 && x / 32 == x / 2 / 16
    ensures x / 64 == x / 2 / 32 && x / 128 == x / 2 / 64
  {
  }

  lemma ShrFew(x: nat)
    ensures Shr(x, 0) == x && Shr(x, 1) == x / 2 && Shr(x, 2) == x / 4 && Shr(x, 3) == x / 8
  {
    var y := x / 2;
    var z := y / 2;
    assert z == x / 4 && z / 2 == x / 8;
    ShrHalf(z, 0, z / 2, z / 2);
    ShrHalf(y, 0, z, z);
    ShrHalf(y, 1, z, z / 2);
    ShrHalf(x, 0, y, y);
    ShrHalf(x, 1, y, z);
    ShrHalf(x, 2, y, z / 2);
  }

  lemma ShrByte(x: nat)
    ensures Shr(x, 0) == x && Shr(x, 1) == x / 2 && Shr(x, 2) == x / 4 && Shr(x, 3) == x / 8
    ensures Shr(x, 4) == x / 16 && Shr(x, 5) == x / 32 && Shr(x, 6) == x / 64 && Shr(x, 7) == x / 128
  {
    hide Shr;
    var a, b, c, d := x / 2, x / 4, x / 8, x / 16;
    ShrFew(x);
    ShrFew(d);
    Halves(x);
    Halves(a);
    Halves(b);
    assert c == b / 2 && d == c / 2;
    assert d / 2 == x / 32 && d / 4 == x / 64 && d / 8 == x / 128;
    forall s | 0 <= s < 4
      ensures Shr(x, s + 4) == Shr(d, s)
    {
      ShrHalf(c, s, d, Shr(d, s));
      ShrHalf(b, s + 1, c, Shr(d, s));
      ShrHalf(a, s + 2, b, Shr(d, s));
      ShrHalf(x, s + 3, a, Shr(d, s));
    }
    assert Shr(x, 0 + 4) == d && Shr(x, 1 + 4) == d / 2 && Shr(x, 2 + 4) == d / 4 && Shr(x, 3 + 4) == d / 8;
  }

  /** The weight of a piece's bit in its byte: the first of eight pieces is the high bit. */
  function Weight(i: nat): (w: nat)
    ensures w > 0
  {
    match i % 8
    case 0 => 128
    case 1 => 64
    case 2 => 32
    case 3 => 16
    case 4 => 8
    case 5 => 4
    case 6 => 2
    case _ => 1
  }

  lemma BitOrder(bits: seq<byte>, i: nat)
    ensures HasPiece(bits, i) <==> i / 8 < |bits| && bits[i / 8] / Weight(i) % 2 == 1
  {
    hide Shr;
    if i / 8 < |bits| {
      ShrByte(bits[i / 8]);
      assert i % 8 in {0, 1, 2, 3, 4, 5, 6, 7};
    }
  }

  function MarkPiece(bits: seq<byte>, i: nat): (r: seq<byte>)
    requires i / 8 < |bits|
    ensures |r| == |bits|
    ensures forall k: nat :: HasPiece(r, k) <==> k == i || HasPiece(bits, k)
  {
    bits[i / 8 := SetBit(bits[i / 8], 7 - i % 8)]
  }

  lemma {:induction false} ZeroHasNoBit(s: nat)
    ensures !TestBit(0, s)
  {
    if s == 0 {
    } else {
      ZeroHasNoBit(s - 1);
    }
  }

  lemma NoPieces(n: nat)
    ensures forall i: nat :: !HasPiece(Zeros(n), i)
  {
    forall i: nat
      ensures !HasPiece(Zeros(n), i)
    {
      ZeroHasNoBit(7 - i % 8);
    }
  }
}
