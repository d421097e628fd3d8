/** Optional values, fallible results and file contents shared by every component. */
module Wrappers {

  datatype Option<+T> = None | Some(value: T)

  datatype Result<+T, +E> = Ok(value: T) | Err(error: E)

  type Byte = i: int | 0 <= i < 256
  type Bytes = seq<Byte>

  /** A digest stands for the bytes it was taken of: no two contents share one. */
  datatype Digest = Sha256(of: Bytes)

  function Max(a: int, b: int): int {
    if a >= b then a else b
  }

  function Min(a: int, b: int): int {
    if a <= b then a else b
  }

  /** Python's `round` of the exact quotient `num / den`: ties go to the even neighbour. */
  function RoundHalfEven(num: int, den: int): int
    requires den > 0
  {
    var q, r := num / den, num % den;
    if 2 * r < den then q
    else if 2 * r > den then q + 1
    else if q % 2 == 0 then q
    else q + 1
  }
}
