/** Fixed-width integers of the Go source and the small helpers they need. */
module Base {

  /** Go's `byte` / `uint8`. */
  type byte = x: int | 0 <= x < 0x100

  /** Go's `uint16`. */
  type uint16 = x: int | 0 <= x < 0x1_0000

  /** A 4-bit field of an opcode: a register index, a sprite height. */
  type nibble = x: int | 0 <= x < 0x10

  /** A 12-bit address field of an opcode. */
  type addr12 = x: int | 0 <= x < 0x1000

  datatype Option<+T> = None | Some(value: T)

  /** `a + b` on `uint8`: wraps modulo 256. */
  function Add8(a: byte, b: byte): (r: byte)
    ensures r == a + b || r == a + b - 0x100
  {
    (a + b) % 0x100
  }

  /** `a - b` on `uint8`: wraps modulo 256. */
  function Sub8(a: byte, b: byte): (r: byte)
    ensures r == a - b || r == a - b + 0x100
  {
    (a - b) % 0x100
  }

  /** `a * b` on `uint8`: keeps the low 8 bits of the product. */
  function Mul8(a: byte, b: byte): (r: byte)
  {
    (a * b) % 0x100
  }

  /** `a + b` on `uint16`: wraps modulo 65536. */
  function Add16(a: uint16, b: uint16): (r: uint16)
    ensures r == a + b || r == a + b - 0x1_0000
  {
    (a + b) % 0x1_0000
  }
}
