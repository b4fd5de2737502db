/** Bytes, byte buffers and the big-endian integers of the peer wire protocol. */
module Bytes {

  type byte = x: int | 0 <= x < 256

  datatype Option<+T> = None | Some(value: T)

  /** A freshly sized buffer. */
  function Zeros(n: nat): (z: seq<byte>)
    ensures |z| == n
    ensures forall k :: 0 <= k < n ==> z[k] == 0
  {
    seq<byte>(n, _ => 0)
  }

  /** `std::vector::resize` with a fill value: keeps a prefix, pads with `fill`. */
  function Resize<T>(s: seq<T>, n: nat, fill: T): (r: seq<T>)
    ensures |r| == n
    ensures forall k :: 0 <= k < n ==> r[k] == if k < |s| then s[k] else fill
  {
    seq(n, k => if 0 <= k < |s| then s[k] else fill)
  }

  /** `s` with the bytes of `d` laid over it from `at` on; bytes of `d` that fall past the end of `s` are dropped. */
  function Overlay(s: seq<byte>, at: nat, d: seq<byte>): (r: seq<byte>)
    ensures |r| == |s|
    ensures forall p :: 0 <= p < |s| ==> r[p] == if at <= p < at + |d| then d[p - at] else s[p]
  {
    seq<byte>(|s|, p requires 0 <= p < |s| => if at <= p < at + |d| then d[p - at] else s[p])
  }

  /** `n` bytes of `s` from `at` on, reading zero past the end of `s`. */
  function Window(s: seq<byte>, at: nat, n: nat): (r: seq<byte>)
    ensures |r| == n
    ensures forall k :: 0 <= k < n ==> r[k] == if at + k < |s| then s[at + k] else 0
  {
    seq<byte>(n, k requires 0 <= k => if at + k < |s| then s[at + k] else 0)
  }

  lemma OverlayTwice(s: seq<byte>, at: nat, d: seq<byte>, e: seq<byte>)
    ensures Overlay(Overlay(s, at, d), at + |d|, e) == Overlay(s, at, d + e)
  {
    forall p | 0 <= p < |s|
      ensures Overlay(Overlay(s, at, d), at + |d|, e)[p] == Overlay(s, at, d + e)[p]
    {
    }
  }

  const TWO_31: int := 0x8000_0000
  const TWO_32: int := 0x1_0000_0000
  const TWO_63: int := 0x8000_0000_0000_0000
  const TWO_64: int := 0x1_0000_0000_0000_0000

  /** The four bytes written by shifting and masking a 32-bit value, most significant byte first. */
  function Be32(v: int): (b: seq<byte>)
    ensures |b| == 4
  {
    [v / 0x100_0000 % 256, v / 0x1_0000 % 256, v / 0x100 % 256, v % 256]
  }

  /** The `uint32_t` held in four big-endian bytes starting at `at`. */
  function UInt32At(b: seq<byte>, at: nat): (v: nat)
    requires at + 4 <= |b|
    ensures v < TWO_32
  {
    var b0: int, b1: int, b2: int, b3: int := b[at], b[at + 1], b[at + 2], b[at + 3];
    b0 * 0x100_0000 + b1 * 0x1_0000 + b2 * 0x100 + b3
  }

  /** The same four bytes assembled into a signed `int`. */
  function Int32At(b: seq<byte>, at: nat): (v: int)
    requires at + 4 <= |b|
    ensures -TWO_31 <= v < TWO_31
  {
    var u := UInt32At(b, at);
    if u < TWO_31 then u else u - TWO_32
  }

  /** One byte at a time. */
  lemma FourDigits(v: int)
    requires 0 <= v < TWO_32
    ensures v / 0x100_0000 % 256 * 0x100_0000 + v / 0x1_0000 % 256 * 0x1_0000 + v / 0x100 % 256 * 0x100 + v % 256 == v
  {
    var a := v / 0x100;
    var b := a / 0x100;
    assert b == v / 0x1_0000 && b / 0x100 == v / 0x100_0000;
    assert v == a * 0x100 + v % 256 && a == b * 0x100 + a % 256 && b == b / 0x100 * 0x100 + b % 256;
  }

  lemma Be32RoundTrip(v: int, pre: seq<byte>, post: seq<byte>)
    requires 0 <= v < TWO_32
    ensures UInt32At(pre + Be32(v) + post, |pre|) == v
    ensures v < TWO_31 ==> Int32At(pre + Be32(v) + post, |pre|) == v
  {
    var digits := Be32(v);
    var b := pre + digits + post;
    assert forall k :: 0 <= k < 4 ==> b[|pre| + k] == digits[k];
    FourDigits(v);
  }
}
