/** Products of reals, each fact proved once, away from everything else. */
module Reals {

  lemma Distributed(a: real, b: real, c: real)
    ensures (a + b) * c == a * c + b * c
  {
  }

  /** A stretch of time at a rate is its two parts at that rate. */
  lemma InTwoParts(from: real, mid: real, to: real, rate: real)
    ensures (to - from) * rate == (mid - from) * rate + (to - mid) * rate
  {
    Distributed(mid - from, to - mid, rate);
  }

  lemma NoTime(at: real, rate: real)
    ensures (at - at) * rate == 0.0
  {
  }

  lemma Positive(a: real, b: real)
    requires a > 0.0 && b > 0.0
    ensures a * b > 0.0
  {
  }

  lemma NotNegative(a: real, b: real)
    requires a >= 0.0 && b >= 0.0
    ensures a * b >= 0.0
  {
  }

  /** At two rates the same stretch comes out the same only when it is empty or
      the rates are one. */
  lemma SameProduct(t: real, a: real, b: real)
    ensures t * a == t * b <==> t == 0.0 || a == b
  {
    if t * a == t * b && t != 0.0 {
      assert a == t * a / t && b == t * b / t;
    }
  }

  lemma Exchanged(a: real, b: real, c: real)
    ensures a * b * c == c * b * a
  {
  }

  /** What goes into `a`, `b` times over. */
  function Quotient(a: real, b: real): (q: real)
    requires b > 0.0
    ensures q * b == a
    ensures a > 0.0 ==> q > 0.0
  {
    a / b
  }
}
