/** Shared error results and the scalar arithmetic every stage uses. */
module Common {

  /** The ways an operation of the pipeline can fail. The first four are the
      Python exceptions the code raises; NonFinite stands for a numpy result
      made of inf/nan values (numpy only warns); NotModelled marks a
      computation this model leaves out (real powers, logarithms,
      convolution). */
  datatype Error =
    | ValueError
    | IndexError
    | KeyError
    | ZeroDivisionError
    | NonFinite
    | NotModelled

  datatype Option<+T> = None | Some(value: T) {
    function GetOr(default: T): T {
      match this
      case Some(v) => v
      case None => default
    }
  }

  datatype Result<+T> = Ok(value: T) | Err(error: Error)

  /** numpy.clip(v, lo, hi), which numpy computes as minimum(maximum(v, lo), hi). */
  function Clip(v: real, lo: real, hi: real): (r: real)
    ensures lo <= hi ==> lo <= r <= hi
    ensures lo <= v <= hi ==> r == v
    ensures v <= lo ==> r == (if lo <= hi then lo else hi)
    ensures hi <= v ==> r == hi
  {
    var m := if v < lo then lo else v;
    if m > hi then hi else m
  }

  lemma ClipMonotone(v: real, w: real, lo: real, hi: real)
    requires v <= w
    ensures Clip(v, lo, hi) <= Clip(w, lo, hi)
  {
  }

  /** Conversion of a float to an integer type: truncation toward zero. */
  function Trunc(v: real): (r: int)
    ensures 0.0 <= v ==> 0 <= r && r as real <= v < r as real + 1.0
    ensures v < 0.0 ==> r <= 0 && r as real - 1.0 < v <= r as real
  {
    if v >= 0.0 then v.Floor else -((-v).Floor)
  }

  /** The float-to-unsigned cast of numpy's astype: truncation, then
      wrap-around modulo 2^bits. */
  function CastUnsigned(v: real, modulus: nat): (r: int)
    requires modulus > 0
    ensures 0 <= r < modulus
    ensures 0.0 <= v < modulus as real ==> r == v.Floor
  {
    Trunc(v) % modulus
  }

  function U8(v: real): (r: int)
    ensures 0 <= r < 256
    ensures 0.0 <= v < 256.0 ==> r == v.Floor
  {
    CastUnsigned(v, 256)
  }

  function U16(v: real): (r: int)
    ensures 0 <= r < 65536
    ensures 0.0 <= v < 65536.0 ==> r == v.Floor
  {
    CastUnsigned(v, 65536)
  }
}
