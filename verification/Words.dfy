/** Fixed-width arithmetic of the C sources: bytes, 32-bit words held as integers, C division. */
module Words {

  type byte = bv8

  const TWO_32: int := 0x1_0000_0000

  type u32 = x: int | 0 <= x < TWO_32

  /** Conversion to an unsigned 32-bit word: reduction modulo 2^32. */
  function ToU32(x: int): u32 {
    x % TWO_32
  }

  /** Reinterpretation of an unsigned 32-bit word as a signed one. */
  function ToS32(x: u32): int {
    if x < 0x8000_0000 then x else x - TWO_32
  }

  function Abs(x: int): nat {
    if x < 0 then -x else x
  }

  /** C integer division truncates toward zero; Dafny's is Euclidean. */
  function TruncDiv(a: int, b: int): int
    requires b != 0
  {
    var q := Abs(a) / Abs(b);
    if (a < 0) == (b < 0) then q else -q
  }

  lemma MulMonotone(q: int, a: int, b: int)
    requires q > 0
    ensures a <= b ==> q * a <= q * b
  {
  }

  lemma QuotientIs(x: int, q: int, n: int)
    requires q > 0 && q * n <= x < q * n + q
    ensures x / q == n
  {
    var z := x / q;
    assert x == q * z + x % q;
    MulMonotone(q, z + 1, n);
    MulMonotone(q, n + 1, z);
  }

  lemma TruncDivBelow(a: int, b: int)
    requires Abs(a) < Abs(b)
    ensures TruncDiv(a, b) == 0
  {
    QuotientIs(Abs(a), Abs(b), 0);
  }
}
