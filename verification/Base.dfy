/** Shared vocabulary: optional values, the fixed-width integers of the source and their wrap-around. */
module Base {
  datatype Option<+T> = None | Some(value: T)

  /** A UUID read as a big-endian number, so that byte-wise comparison is `<`. */
  type AccountId = nat
  type PaymentId = nat
  /** A 32-byte hash read as a number. */
  type Hash = nat
  /** The text of a transaction hash, the key a settlement is tracked under. */
  type TxHash = string

  const TWO_63: int := 0x8000_0000_0000_0000
  const TWO_64: int := 0x1_0000_0000_0000_0000

  type int64 = x: int | -TWO_63 <= x < TWO_63
  type uint64 = x: int | 0 <= x < TWO_64

  /** How many full turns of 2^64 separate `x` from the int64 range. */
  function Turns(x: int): int { (x + TWO_63) / TWO_64 }

  /** The int64 that two's-complement arithmetic leaves in place of the mathematical result `x`. */
  function Wrap64(x: int): (r: int64)
    ensures -TWO_63 <= x < TWO_63 ==> r == x
  {
    x - TWO_64 * Turns(x)
  }

  /** Two results wrap to the same int64 exactly when they are congruent modulo 2^64. */
  lemma WrapUnique(x: int, y: int)
    ensures Wrap64(x) == Wrap64(y) <==> (x - y) % TWO_64 == 0
  {
    if (x - y) % TWO_64 == 0 {
      var k := (x - y) / TWO_64;
      assert x == y + TWO_64 * k;
      assert Turns(x) == Turns(y) + k;
    }
  }

  /** Wrapping early does not change where a sum ends up. */
  lemma WrapAdd(x: int, y: int)
    ensures Wrap64(Wrap64(x) + y) == Wrap64(x + y)
  {
    assert Turns(Wrap64(x) + y) == Turns(x + y) - Turns(x);
  }
}
