/** Go's `int` on a 64-bit platform: its range, and the two's-complement
    wrap-around its arithmetic performs. */
module GoInt {

  const MaxUint64: int := 0xFFFF_FFFF_FFFF_FFFF
  const MaxInt64: int := 0x7FFF_FFFF_FFFF_FFFF
  const MinInt64: int := -0x8000_0000_0000_0000
  const Modulus: int := 0x1_0000_0000_0000_0000

  predicate InInt64(n: int) {
    MinInt64 <= n <= MaxInt64
  }

  /** The values of Go's `int`. */
  type Int64 = n: int | InInt64(n)

  /** Go's `a - b` on two `int`s: the exact difference, wrapped into range by
      taking away or adding 2^64 when it overflows. */
  function Sub64(a: Int64, b: Int64): (r: Int64)
    ensures InInt64(a - b) ==> r == a - b
  {
    assert InInt64(a) && InInt64(b);
    var d := a - b;
    if d > MaxInt64 then d - Modulus
    else if d < MinInt64 then d + Modulus
    else d
  }

  /** The wrapped difference is the one value in range that differs from the
      exact difference by a multiple of 2^64. */
  lemma Sub64Congruent(a: Int64, b: Int64, r: int)
    requires InInt64(r)
    ensures (a - b - r) % Modulus == 0 <==> r == Sub64(a, b)
  {
    var w := Sub64(a, b);
    assert InInt64(w) && InInt64(r);
    var k := a - b - w;
    assert k == 0 || k == Modulus || k == -Modulus;
    var e := w - r;
    assert -Modulus < e < Modulus;
    assert a - b - r == k + e;
    if e > 0 {
      assert (k + e) % Modulus == e;
    } else if e < 0 {
      assert (k + e) % Modulus == Modulus + e;
    }
  }

  /** A difference just past the top of the range wraps to the bottom. */
  lemma Sub64PastMax(a: Int64, b: Int64)
    requires a - b > MaxInt64
    ensures Sub64(a, b) == a - b - Modulus
  {
  }
}
