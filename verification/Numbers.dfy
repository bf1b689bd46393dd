/** Rounding, shared by pricing and statistics. */
module Numbers {

  function Ceiling(x: real): (c: int)
    ensures (c - 1) as real < x <= c as real
  {
    -((-x).Floor)
  }
}
