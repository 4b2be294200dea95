/** Shared vocabulary: optional values, and the two pieces of 64-bit arithmetic whose wrap-around the
    components lean on. */
module Common {

  datatype Option<+T> = None | Some(value: T)

  const TWO_TO_THE_32: nat := 0x1_0000_0000
  const TWO_TO_THE_64: nat := 0x1_0000_0000_0000_0000

  type Word64 = x: nat | x < TWO_TO_THE_64

  /** Unsigned 64-bit `a - b`: a clock that steps backwards reads as a huge elapsed time. */
  function Elapsed(now: nat, since: nat): nat {
    if since <= now then now - since else (now - since) % TWO_TO_THE_64
  }

  function Add64(a: nat, b: nat): Word64 {
    (a + b) % TWO_TO_THE_64
  }

  function Min(a: int, b: int): int { if a <= b then a else b }

  function Max(a: int, b: int): int { if a <= b then b else a }

  lemma SubsetIsSmaller<T>(x: set<T>, y: set<T>)
    requires x <= y
    ensures |x| <= |y|
  {
    assert y == x + (y - x);
  }
}
