/** Key bits of the input layer's per-player bitmask (`unsigned int`). The
    toolkit header that fixes their values is not part of this model; the
    values below are distinct single bits and nothing proved here depends on
    which bits they are. */
module Keys {
  type Bits = bv32

  const Start: Bits := 0x0000_0020
  const Fire3: Bits := 0x0000_0100
  const Fire4: Bits := 0x0000_0200
  const Fire5: Bits := 0x0000_0400
  const Fire6: Bits := 0x0000_0800
  /** The marker the input layer reports on a frame without a new key event. */
  const Delay: Bits := 0x0010_0000
  /** `EV_QUIT`: the platform asked the application to exit. */
  const Quit: Bits := 0x8000_0000

  predicate Has(keys: Bits, key: Bits)
  {
    keys & key != 0
  }

  /** Two key sets differ exactly when their exclusive-or has a bit set. */
  lemma XorDiffers(a: Bits, b: Bits)
    ensures (a ^ b != 0) == (a != b)
  {
  }
}
