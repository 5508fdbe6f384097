/** The Math.min and Math.max helpers the rules use. */
module Numbers {
  /** Math.min and Math.max on two reals. */
  function Min(a: real, b: real): real
  {
    if a <= b then a else b
  }

  function Max(a: real, b: real): real
  {
    if a >= b then a else b
  }

  function MaxInt(a: int, b: int): int
  {
    if a >= b then a else b
  }
}
