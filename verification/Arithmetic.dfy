/** Integer functions that several components need. */
module Arithmetic {

  function Min(a: int, b: int): int { if a < b then a else b }

  function Max(a: int, b: int): int { if a < b then b else a }

  /** The narrowing of a wide integer to a 32-bit `int`. */
  function ToInt32(n: int): int {
    var m := n % 0x1_0000_0000;
    if m < 0x8000_0000 then m else m - 0x1_0000_0000
  }

  /** A positive number survives the narrowing exactly when it fits. */
  lemma Int32Range(q: int)
    requires 1 <= q
    ensures ToInt32(q) <= q && (ToInt32(q) == q <==> q < 0x8000_0000)
  {
  }
}
