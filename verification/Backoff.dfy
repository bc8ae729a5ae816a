/** The retry delays of the Hub's workers, in whole seconds. */
module Backoff {

  function Power(n: nat): nat {
    if n == 0 then 1 else 2 * Power(n - 1)
  }

  /** Two to the number of attempts, which counts no further than `cap`. */
  function Delay(attempts: nat, cap: nat): nat {
    Power(if attempts < cap then attempts else cap)
  }

  lemma {:induction false} PowerGrows(a: nat, b: nat)
    requires a <= b
    ensures 1 <= Power(a) <= Power(b)
    decreases b
  {
    if b == 0 {
    } else {
      PowerGrows(if a < b then a else a - 1, b - 1);
    }
  }

  /** A delay never shrinks with the attempts and stays between one second and the cap. */
  lemma DelayGrows(a: nat, b: nat, cap: nat)
    requires a <= b
    ensures 1 <= Delay(a, cap) <= Delay(b, cap) <= Power(cap)
    ensures b < cap ==> Delay(b + 1, cap) == 2 * Delay(b, cap)
    ensures Delay(0, cap) == 1 && (cap <= b ==> Delay(b, cap) == Delay(cap, cap))
  {
    var x, y := if a < cap then a else cap, if b < cap then b else cap;
    PowerGrows(x, y);
    PowerGrows(y, cap);
  }
}
