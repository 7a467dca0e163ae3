/** Machine integer widths used by the Win32 platform layer, and a small Option. */
module Types {
  /** 2^32: the modulus of DWORD / uint32 arithmetic. */
  const U32: int := 0x1_0000_0000
  /** 2^64: the modulus of uint64 arithmetic. */
  const U64: int := 0x1_0000_0000_0000_0000

  type uint32 = x: int | 0 <= x < 0x1_0000_0000
  type uint64 = x: int | 0 <= x < 0x1_0000_0000_0000_0000
  type byte = x: int | 0 <= x < 0x100
  type int16 = x: int | -0x8000 <= x < 0x8000

  datatype Option<T> = None | Some(value: T)
}
