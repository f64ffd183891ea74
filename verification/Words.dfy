// Machine words of the TDX module, with their wrap-around arithmetic, and the option type.
module Words {
  datatype Option<T> = None | Some(value: T)

  const TWO32: int := 0x1_0000_0000
  const TWO64: int := 0x1_0000_0000_0000_0000

  type u8 = x: int | 0 <= x < 0x100
  type u16 = x: int | 0 <= x < 0x1_0000
  type u64 = x: int | 0 <= x < 0x1_0000_0000_0000_0000

  // C's unsigned subtraction and addition on uint64_t.
  function Sub64(a: u64, b: u64): u64 {
    (a - b) % TWO64
  }

  function Add64(a: u64, b: u64): u64 {
    (a + b) % TWO64
  }
}
