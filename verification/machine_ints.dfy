/** Fixed-width integers of the binding's Rust/C boundary, modelled on unbounded `int`. */
module MachineInts {
  import opened Results

  const I32_MIN: int := -0x8000_0000
  const I32_MAX: int := 0x7fff_ffff
  const U32_LIMIT: int := 0x1_0000_0000

  type u8 = x: int | 0 <= x < 0x100
  type u32 = x: int | 0 <= x < 0x1_0000_0000
  type i32 = x: int | -0x8000_0000 <= x < 0x8000_0000

  predicate InI32(x: int) {
    I32_MIN <= x <= I32_MAX
  }

  /** Rust's `u as i32` on a `u32`: the same 32 bits read in two's complement. */
  function U32AsI32(u: u32): (r: i32)
    ensures (r - u) % U32_LIMIT == 0
    ensures u <= I32_MAX ==> r == u
    ensures u > I32_MAX ==> r < 0
  {
    if u <= I32_MAX then u else u - U32_LIMIT
  }

  /** Rust's `x as u32` on an `i32`. */
  function I32AsU32(x: i32): (r: u32)
    ensures (r - x) % U32_LIMIT == 0
    ensures x >= 0 ==> r == x
  {
    if x >= 0 then x else x + U32_LIMIT
  }

  /** Rust's `a * b` on `i32` in a build with overflow checks: `None` stands for the panic. */
  function MulI32(a: i32, b: i32): (r: Option<i32>)
    ensures r.Some? <==> InI32(a * b)
    ensures r.Some? ==> r.value == a * b
  {
    if InI32(a * b) then Some(a * b) else None
  }
}
