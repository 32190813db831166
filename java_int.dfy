/**
 * Java's 32-bit `int`: the range of the type and the two's-complement
 * narrowing that `int` multiplication and a `(int)` cast of a `long` apply.
 */
module JavaInt {

  const Modulus: int := 0x1_0000_0000
  const MinInt: int := -0x8000_0000
  const MaxInt: int := 0x7fff_ffff

  predicate IsInt(x: int) {
    MinInt <= x <= MaxInt
  }

  /** The Java `int` that an exact integer result is narrowed to. */
  function Wrap(x: int): (r: int)
    ensures IsInt(r)
    ensures (x - r) % Modulus == 0
    ensures IsInt(x) ==> r == x
  {
    var m := x % Modulus;
    if m <= MaxInt then m else m - Modulus
  }
}
