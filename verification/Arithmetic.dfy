/** Facts about products that several modules need.
 */
module Arithmetic {

  lemma MulMono(x: int, y: int, b: int)
    requires 0 <= b
    ensures x <= y ==> x * b <= y * b
  {
  }

  lemma Distribute(n: nat, d: nat)
    ensures n * (d + 1) == n * d + n
  {
  }
}
