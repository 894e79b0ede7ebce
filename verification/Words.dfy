/** The unsigned machine words of the source. */
module Words {

  type byte = x: int | 0 <= x < 0x100

  type u32 = x: int | 0 <= x < 0x1_0000_0000

  const U8_MAX: int := 0xFF

  const U32_MAX: int := 0xFFFF_FFFF

  const U32_RANGE: int := 0x1_0000_0000
}
