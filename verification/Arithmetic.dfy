/** Facts about products, quotients and consecutive pieces that several modules use. */
module Arithmetic {
  lemma Distribute(c: int, x: int, y: int)
    ensures c * (x + y) == c * x + c * y
  {
  }

  lemma NotNegative(a: nat, b: nat)
    ensures a * b >= 0
  {
  }

  lemma QuotientIs(j: nat, d: nat, q: nat, r: nat)
    requires d > 0 && r < d && j == d * q + r
    ensures j / d == q && j % d == r
  {
    var q', r' := j / d, j % d;
    assert j == d * q' + r';
    MulBeats(d, q - q');
    assert d * (q - q') == r' - r;
  }

  lemma MulBeats(d: nat, x: int)
    ensures x >= 1 ==> d * x >= d
    ensures x <= -1 ==> d * x + d <= 0
  {
  }

  /** Where piece `j` starts. */
  function Offset(sizes: seq<nat>, j: nat): nat
    requires j <= |sizes|
  {
    if j == 0 then 0 else Offset(sizes, j - 1) + sizes[j - 1]
  }

  lemma {:induction false} OffsetsGrow(sizes: seq<nat>, j: nat, k: nat)
    requires j <= k <= |sizes|
    ensures Offset(sizes, j) <= Offset(sizes, k)
  {
    if j < k { OffsetsGrow(sizes, j, k - 1); }
  }
}
