/**
 * The 32-bit hash codes the entity values compute in an `unchecked` block:
 * multiplication and exclusive-or wrap around modulo 2^32.
 */
module Hashing {
  import opened Text
  import opened Numbers

  /**
   * StringComparer.OrdinalIgnoreCase.GetHashCode. The runtime's own string
   * hash is not reproduced; what matters is that it reads the string only
   * through its case-folded form, so strings equal ignoring case hash alike.
   */
  function HashIgnoreCase(s: string): bv32 {
    Polynomial(FoldCase(s))
  }

  function Polynomial(s: string): bv32
    decreases |s|
  {
    if |s| == 0 then 5381 else (Polynomial(s[..|s| - 1]) * 33) ^ ((s[|s| - 1] as int) as bv32)
  }

  /** Int32.GetHashCode: the value itself, read as 32 bits in two's complement. */
  function Int32Hash(n: int32): (r: bv32)
    ensures r == ((n as int) % 0x1_0000_0000) as bv32
  {
    var v := if n >= 0 then n as int else n as int + 0x1_0000_0000;
    assert v == (n as int) % 0x1_0000_0000;
    v as bv32
  }

  /** One step of the `hash * 397 ^ next` combination, with 32-bit wrap-around. */
  function Combine(hash: bv32, next: bv32): (r: bv32)
    ensures r ^ next == hash * 397
    ensures r ^ (hash * 397) == next
  {
    (hash * 397) ^ next
  }

  /** Strings equal ignoring case have the same case-insensitive hash. */
  lemma HashIgnoreCaseAgrees(a: string, b: string)
    requires EqualsIgnoreCase(a, b)
    ensures HashIgnoreCase(a) == HashIgnoreCase(b)
  {
  }
}
