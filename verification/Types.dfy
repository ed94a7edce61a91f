/** Values shared by the client library and the server. */
module Types {

  datatype Option<+T> = None | Some(value: T)

  type Path = string

  /** `pid_t` and `int`. */
  type Int32 = x: int | -0x8000_0000 <= x < 0x8000_0000

  type Tid = Int32

  /** `capio_off64_t`, `uintmax_t`: 64-bit unsigned. */
  type U64 = x: int | 0 <= x < TWO_64

  const TWO_64: int := 0x1_0000_0000_0000_0000

  const ULLONG_MAX: U64 := 0xFFFF_FFFF_FFFF_FFFF
}
