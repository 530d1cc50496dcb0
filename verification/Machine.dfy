// Integer widths of the C sources, as subset types of int: arithmetic is exact and every
// store into a field of one of these types is a proof that the value fits.
module Machine {

  const U8_LIMIT := 0x100
  const U32_LIMIT := 0x1_0000_0000
  const S32_LIMIT := 0x8000_0000

  type u8 = x: int | 0 <= x < 0x100
  type u32 = x: int | 0 <= x < 0x1_0000_0000
  type s32 = x: int | -0x8000_0000 <= x < 0x8000_0000
  // A time or a delay in microseconds that is not negative.
  type Micros = x: int | 0 <= x < 0x8000_0000

  datatype Option<+T> = None | Some(value: T) {
    predicate IsFailure() { None? }

    function PropagateFailure<U>(): Option<U>
      requires None?
    {
      None
    }

    function Extract(): T
      requires Some?
    {
      value
    }
  }
}
