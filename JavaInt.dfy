/**
 * Java's 32-bit `int`: its range and the two's-complement wrap-around of
 * its arithmetic, which Dafny's unbounded integers do not have.
 */
module JavaInt {

  const Modulus: int := 0x1_0000_0000
  const MinInt: int := -0x8000_0000
  const MaxInt: int := 0x7FFF_FFFF

  newtype int32 = x: int | -0x8000_0000 <= x < 0x8000_0000

  predicate InRange(v: int) {
    MinInt <= v <= MaxInt
  }

  /** The int that Java's 32-bit arithmetic yields for the mathematical value `v`. */
  function Wrap(v: int): (r: int32)
    ensures (r as int - v) % Modulus == 0
    ensures InRange(v) ==> r as int == v
  {
    var m := (v + 0x8000_0000) % Modulus;
    (m - 0x8000_0000) as int32
  }

  /** Two ints with the same residue are the same int: `Wrap` picks the only candidate. */
  lemma WrapIsUnique(v: int, w: int32)
    requires (w as int - v) % Modulus == 0
    ensures Wrap(v) == w
  {
  }
}
