/** Byte strings and the fixed-width big-endian numbers written into them. */
module Bytes {
  import opened Base

  type byte = x: int | 0 <= x < 256
  type Bytes = seq<byte>

  function Pow256(n: nat): (p: int)
    ensures 0 < p
  {
    if n == 0 then 1 else 256 * Pow256(n - 1)
  }

  /** The low n bytes of v, most significant first. */
  function BigEndian(n: nat, v: nat): (s: Bytes)
    ensures |s| == n
  {
    if n == 0 then [] else BigEndian(n - 1, v / 256) + [v % 256]
  }

  function Number(s: Bytes): (v: nat)
    ensures v < Pow256(|s|)
  {
    if s == [] then 0 else Number(s[..|s| - 1]) * 256 + s[|s| - 1]
  }

  lemma {:induction false} NumberOfBigEndian(n: nat, v: nat)
    requires v < Pow256(n)
    ensures Number(BigEndian(n, v)) == v
  {
    if n > 0 {
      NumberOfBigEndian(n - 1, v / 256);
      assert BigEndian(n, v)[..n - 1] == BigEndian(n - 1, v / 256);
    }
  }

  lemma {:induction false} BigEndianOfNumber(s: Bytes)
    ensures BigEndian(|s|, Number(s)) == s
  {
    if s != [] {
      BigEndianOfNumber(s[..|s| - 1]);
      assert Number(s) / 256 == Number(s[..|s| - 1]) && Number(s) % 256 == s[|s| - 1];
    }
  }

  lemma {:induction false} ZeroBytes(n: nat, i: nat)
    requires i < n
    ensures BigEndian(n, 0)[i] == 0
  {
    if i < n - 1 { ZeroBytes(n - 1, i); }
  }

  /** Eight bytes hold exactly the unsigned 64-bit numbers. */
  lemma EightBytes()
    ensures Pow256(8) == TWO_64
  {
    assert Pow256(4) == 0x1_0000_0000;
    assert Pow256(8) == 256 * (256 * (256 * (256 * Pow256(4))));
  }
}
