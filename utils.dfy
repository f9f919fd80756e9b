/**
 * Value-preserving widening of unsigned integers to the pointer-sized
 * unsigned integer (`IntoUsize::as_usize` in yjit/src/utils.rs).
 *
 * The width of `usize` is a parameter of the target: at least 16 bits on
 * every Rust target, 64 bits on every target the JIT supports. The u64 and
 * u32 conversions exist only on 64-bit targets, the u16 and u8 ones
 * everywhere.
 */
module Utils {
  import opened Wrappers

  const U8_LIMIT: int := 0x100
  const U16_LIMIT: int := 0x1_0000
  const U32_LIMIT: int := 0x1_0000_0000
  const U64_LIMIT: int := 0x1_0000_0000_0000_0000

  newtype U8 = x: int | 0 <= x < U8_LIMIT
  newtype U16 = x: int | 0 <= x < U16_LIMIT
  newtype U32 = x: int | 0 <= x < U32_LIMIT
  newtype U64 = x: int | 0 <= x < U64_LIMIT

  /** The pointer widths Rust targets come in. */
  predicate ValidPointerWidth(bits: nat) {
    bits == 16 || bits == 32 || bits == 64
  }

  /** Largest value of `usize` plus one, on a target with the given pointer width. */
  function UsizeLimit(bits: nat): (limit: int)
    requires ValidPointerWidth(bits)
    ensures limit >= U16_LIMIT
    ensures bits == 64 ==> limit == U64_LIMIT
  {
    if bits == 16 then U16_LIMIT else if bits == 32 then U32_LIMIT else U64_LIMIT
  }

  /** The checked conversion `try_into::<usize>()`: the value when it fits, else an error. */
  function TryIntoUsize(x: int, bits: nat): (r: Option<int>)
    requires ValidPointerWidth(bits)
    ensures r.Some? <==> 0 <= x < UsizeLimit(bits)
    ensures r.Some? ==> r.value == x
  {
    if 0 <= x < UsizeLimit(bits) then Some(x) else None
  }

  /** `u64::as_usize`, compiled only for 64-bit targets: the value is kept. */
  function U64AsUsize(x: U64, bits: nat): (r: int)
    requires bits == 64
    ensures 0 <= r < UsizeLimit(bits)
    ensures TryIntoUsize(x as int, bits) == Some(r)
  {
    x as int
  }

  /** `u32::as_usize`, compiled only for 64-bit targets: the value is kept. */
  function U32AsUsize(x: U32, bits: nat): (r: int)
    requires bits == 64
    ensures 0 <= r < UsizeLimit(bits)
    ensures TryIntoUsize(x as int, bits) == Some(r)
  {
    x as int
  }

  /** `u16::as_usize`, an alias of the lossless `into()`: the value is kept on every target. */
  function U16AsUsize(x: U16, bits: nat): (r: int)
    requires ValidPointerWidth(bits)
    ensures 0 <= r < UsizeLimit(bits)
    ensures TryIntoUsize(x as int, bits) == Some(r)
  {
    x as int
  }

  /** `u8::as_usize`, an alias of the lossless `into()`: the value is kept on every target. */
  function U8AsUsize(x: U8, bits: nat): (r: int)
    requires ValidPointerWidth(bits)
    ensures 0 <= r < UsizeLimit(bits)
    ensures TryIntoUsize(x as int, bits) == Some(r)
  {
    x as int
  }

  /**
   * The unit test `min_max_preserved_after_cast_to_usize`: the extreme values
   * of u64 and u32 convert to the same usize as the checked conversion.
   */
  lemma MinMaxPreservedAfterCastToUsize()
    ensures Some(U64AsUsize(0, 64)) == TryIntoUsize(0, 64)
    ensures Some(U64AsUsize((U64_LIMIT - 1) as U64, 64)) == TryIntoUsize(U64_LIMIT - 1, 64)
    ensures Some(U32AsUsize(0, 64)) == TryIntoUsize(0, 64)
    ensures Some(U32AsUsize((U32_LIMIT - 1) as U32, 64)) == TryIntoUsize(U32_LIMIT - 1, 64)
  {
  }
}
