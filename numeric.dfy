/** Helpers shared by the model: bytes, the C float-to-int cast, the
    transcendental functions the source takes from libm, and the two
    console streams the loggers print to. */
module Numeric {

  /** One unsigned 8-bit value (a `char` of a buffer, a colour channel). */
  type byte = b: int | 0 <= b < 256

  datatype Option<+T> = None | Some(value: T)

  /** `sinf`, `cosf` and `sqrtf` are foreign; the model takes them as
      parameters, exactly as `draw_wall` already takes `view_cos`/`view_sin`. */
  datatype Libm = Libm(sin: real -> real, cos: real -> real, sqrt: real -> real)

  /** The C cast `(int32_t)f`: truncation toward zero (range overflow of the
      32-bit target is not modelled). */
  function Trunc(r: real): (n: int)
    ensures r >= 0.0 ==> 0 <= n && n as real <= r < n as real + 1.0
    ensures r < 0.0 ==> n <= 0 && n as real - 1.0 < r <= n as real
  {
    if r >= 0.0 then r.Floor else -((-r).Floor)
  }

  /** `stdout` and `stderr`. */
  datatype Stream = Stdout | Stderr

  function Min(a: int, b: int): (r: int) { if a < b then a else b }
  function Max(a: int, b: int): (r: int) { if a > b then a else b }
}
