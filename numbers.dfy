/** The Math.min and Math.max the games use, over exact reals and over whole numbers. */
module Numbers {
  function Min(a: real, b: real): real { if a <= b then a else b }
  function Max(a: real, b: real): real { if a >= b then a else b }
  function MaxInt(a: int, b: int): int { if a >= b then a else b }
}
