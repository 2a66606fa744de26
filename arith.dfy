/** Small facts about multiplication and division shared by the index and size models. */
module Arith {

  lemma {:induction false} MulLe(x: nat, y: nat, z: nat)
    requires x <= y
    ensures x * z <= y * z
  {
  }

  /** One more factor: (q + 1) * z == q * z + z. */
  lemma {:induction false} MulSucc(q: int, z: int)
    ensures (q + 1) * z == q * z + z
  {
  }
}
