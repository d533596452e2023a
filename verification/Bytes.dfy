/** Bytes, little-endian numbers, and where byte strings stand in an image. */
module Bytes {
  type byte = x: int | 0 <= x < 256

  /** The `n` low bytes of a number, lowest first. */
  function LE(v: nat, n: nat): (s: seq<byte>)
    ensures |s| == n
  {
    if n == 0 then [] else [v % 256] + LE(v / 256, n - 1)
  }

  function Number(s: seq<byte>): nat { if s == [] then 0 else s[0] + 256 * Number(s[1..]) }

  function Bound(n: nat): (p: nat)
    ensures p > 0
  {
    if n == 0 then 1 else 256 * Bound(n - 1)
  }

  lemma {:induction false} NumberOfLE(v: nat, n: nat)
    requires v < Bound(n)
    ensures Number(LE(v, n)) == v
  {
    if n > 0 { NumberOfLE(v / 256, n - 1); }
  }

  function Zeros(n: nat): (s: seq<byte>)
    ensures |s| == n && forall k | 0 <= k < n :: s[k] == 0
  {
    seq(n, k => 0)
  }

  lemma {:induction false} ZerosAreZero(n: nat)
    ensures LE(0, n) == Zeros(n)
  {
    if n > 0 {
      ZerosAreZero(n - 1);
      assert Zeros(n) == [0] + Zeros(n - 1);
    }
  }

  /** `s` stands at offset `o` of the image. */
  predicate At(img: seq<byte>, o: nat, s: seq<byte>) { o + |s| <= |img| && img[o..o + |s|] == s }

  lemma AtBehind(a: seq<byte>, b: seq<byte>, o: nat, s: seq<byte>)
    requires At(b, o, s)
    ensures At(a + b, |a| + o, s)
  {
    assert (a + b)[|a| + o..|a| + o + |s|] == b[o..o + |s|];
  }

  lemma AtBefore(a: seq<byte>, b: seq<byte>, o: nat, s: seq<byte>)
    requires At(a, o, s)
    ensures At(a + b, o, s)
  {
    assert (a + b)[o..o + |s|] == a[o..o + |s|];
  }

  lemma AtPart(img: seq<byte>, o: nat, a: seq<byte>, b: seq<byte>)
    requires At(img, o, a + b)
    ensures At(img, o, a) && At(img, o + |a|, b)
  {
    assert (a + b)[..|a|] == a && (a + b)[|a|..] == b;
    assert img[o..o + |a|] == img[o..o + |a + b|][..|a|];
    assert img[o + |a|..o + |a| + |b|] == img[o..o + |a + b|][|a|..];
  }

  /** The number stored in `n` bytes at `o`. */
  function NumberAt(img: seq<byte>, o: nat, n: nat): nat
    requires o + n <= |img|
  {
    Number(img[o..o + n])
  }

  lemma NumberIsAt(img: seq<byte>, o: nat, v: nat, n: nat)
    requires At(img, o, LE(v, n)) && v < Bound(n)
    ensures NumberAt(img, o, n) == v
  {
    NumberOfLE(v, n);
  }

  /** A growing section of the image. */
  class PeCodeBuffer {
    var bytes: seq<byte>

    constructor ()
      ensures bytes == []
    {
      bytes := [];
    }

    method Emit8(b: byte)
      modifies this
      ensures bytes == old(bytes) + [b]
    {
      bytes := bytes + [b];
    }

    method Emit32(v: nat)
      requires v < 0x1_0000_0000
      modifies this
      ensures bytes == old(bytes) + LE(v, 4)
    {
      Emit8(v % 256);
      Emit8(v / 256 % 256);
      Emit8(v / 65536 % 256);
      Emit8(v / 16777216 % 256);
      FourBytes(v);
    }
  }

  lemma FourBytes(v: nat)
    ensures LE(v, 4) == [v % 256] + [v / 256 % 256] + [v / 65536 % 256] + [v / 16777216 % 256]
  {
    assert v / 256 / 256 == v / 65536 && v / 65536 / 256 == v / 16777216;
    assert LE(v, 4) == [v % 256] + LE(v / 256, 3);
    assert LE(v / 256, 3) == [v / 256 % 256] + LE(v / 65536, 2);
    assert LE(v / 65536, 2) == [v / 65536 % 256] + LE(v / 16777216, 1);
  }
}
