/** Numbers that several modules share. */
module Numbers {
  const TWO_32 := 0x1_0000_0000

  function Min(a: int, b: int): int { if a < b then a else b }
}
