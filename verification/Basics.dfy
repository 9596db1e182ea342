/** What several components share. */
module Basics {
  datatype Option<+T> = None | Some(value: T)

  function Pow2(n: nat): nat { if n == 0 then 1 else 2 * Pow2(n - 1) }

  lemma {:induction false} Pow2IsPositive(n: nat)
    ensures Pow2(n) >= 1
  {
    if n > 0 { Pow2IsPositive(n - 1); }
  }
}
