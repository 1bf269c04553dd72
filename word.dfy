/** Machine words of the ATtiny firmware and a small Option type. */
module Word {

  /** 2^16: every `uint16_t` quantity of the firmware is reduced modulo this. */
  const M16: int := 0x1_0000

  /** `uint16_t`; avr-gcc's `unsigned int` is 16 bits wide, so its arithmetic wraps at M16. */
  type u16 = x: int | 0 <= x < 0x1_0000

  /** `uint8_t` */
  type u8 = x: int | 0 <= x < 0x100

  datatype Option<T> = None | Some(value: T)

  /** Adding a multiple of the modulus, or reducing an addend first, does not change a sum mod 2^16. */
  lemma ModAddLeft(a: int, b: int)
    ensures (a % M16 + b) % M16 == (a + b) % M16
  {
    var q := a / M16;
    assert a == M16 * q + a % M16;
  }
}
