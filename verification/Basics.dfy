/** Types shared by all modules: the machine integers of the source and the two result types. */
module Basics {
  const I32_MAX: int := 0x7fff_ffff
  const I32_MIN: int := -0x8000_0000
  const U32_LIMIT: int := 0x1_0000_0000
  const U64_LIMIT: nat := 0x1_0000_0000_0000_0000

  type i32 = x: int | I32_MIN <= x <= I32_MAX
  type u32 = x: int | 0 <= x < U32_LIMIT
  type byte = x: int | 0 <= x < 256

  datatype Option<+T> = None | Some(value: T)

  datatype Result<+T, +E> = Ok(value: T) | Err(error: E)

  function Min(a: int, b: int): int {
    if a <= b then a else b
  }

  function Max(a: int, b: int): int {
    if a <= b then b else a
  }

  /** `i32::checked_add`. */
  function CheckedAdd(a: i32, b: i32): (r: Option<i32>)
    ensures r.Some? <==> I32_MIN <= a + b <= I32_MAX
    ensures r.Some? ==> r.value == a + b
  {
    if I32_MIN <= a + b <= I32_MAX then Some(a + b) else None
  }
}
