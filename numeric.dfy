/** Helpers on reals and sample buffers used by several modules. */
module Numeric {
  function Abs(x: real): real { if x < 0.0 then -x else x }

  /** A buffer of `n` samples of silence (`np.zeros(n)`). */
  function Zeros(n: nat): (z: seq<real>)
    ensures |z| == n && forall i :: 0 <= i < n ==> z[i] == 0.0
  {
    seq(n, _ => 0.0)
  }
}
