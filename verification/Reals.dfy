/** Whole multiples of a real number. */
module Reals {
  function Times(n: nat, x: real): real {
    n as real * x
  }

  lemma OneMoreTime(n: nat, x: real)
    ensures Times(n + 1, x) == Times(n, x) + x && Times(0, x) == 0.0
  {
    assert (n + 1) as real == n as real + 1.0;
  }

  lemma NoneTimes(n: nat, x: real)
    ensures Times(n, x) == 0.0 <==> n == 0 || x == 0.0
  {
  }
}
