// The powers of two at which the machine words of the source end.
module Words {
  const TWO32: nat := 0x1_0000_0000
  const TWO48: nat := 0x1_0000_0000_0000
  const TWO56: nat := 0x100_0000_0000_0000
  const TWO63: int := 0x8000_0000_0000_0000
  const TWO64: nat := 0x1_0000_0000_0000_0000
}
