/**
 * Machine-level types shared by the kernel model: nullable references
 * and the fixed-width C integers whose wrap-around the kernel relies on.
 */
module Base {

  /** A C pointer that may be NULL; `Some(i)` refers to slot `i` of a table. */
  datatype Option<T> = None | Some(value: T)

  const U32_LIMIT: int := 0x1_0000_0000

  /** C `unsigned` on the 32-bit targets (i386, or1k). */
  type u32 = x: int | 0 <= x < U32_LIMIT

  /** C `short`. */
  type short = x: int | -0x8000 <= x < 0x8000

  /** `x++` on an `unsigned`: one more, except that 2^32 - 1 wraps to 0. */
  function IncU32(x: u32): (r: u32)
    ensures x < U32_LIMIT - 1 ==> r == x + 1
    ensures x == U32_LIMIT - 1 ==> r == 0
  {
    (x + 1) % U32_LIMIT
  }

  /** `x - y` on `unsigned` operands (modulo 2^32). */
  function SubU32(x: u32, y: u32): (r: u32)
    ensures y <= x ==> r == x - y
    ensures x < y ==> r == x - y + U32_LIMIT
  {
    (x - y) % U32_LIMIT
  }

  /** `x + y` on `unsigned` operands (modulo 2^32). */
  function AddU32(x: u32, y: u32): (r: u32)
    ensures x + y < U32_LIMIT ==> r == x + y
    ensures U32_LIMIT <= x + y ==> r == x + y - U32_LIMIT
  {
    (x + y) % U32_LIMIT
  }

  /**
   * `x++` on a `short`: the increment is done in `int` and converted back,
   * which the compilers the kernel is built with do by wrapping.
   */
  function IncShort(x: short): (r: short)
    ensures x < 0x7fff ==> r == x + 1
    ensures x == 0x7fff ==> r == -0x8000
  {
    (x + 1 + 0x8000) % 0x1_0000 - 0x8000
  }
}
