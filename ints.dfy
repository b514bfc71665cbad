/** Java's 32-bit `int`, where its width matters to the core. */
module Ints {

  const INT_MIN: int := -0x8000_0000
  const INT_MAX: int := 0x7fff_ffff

  newtype Int32 = x: int | -0x8000_0000 <= x < 0x8000_0000

  /** The value of `n` after Java's `n++`: the 32-bit int congruent to
      n + 1 modulo 2^32, which the range of `Int32` makes unique. */
  function Increment(n: Int32): (r: Int32)
    ensures (r as int - (n as int + 1)) % 0x1_0000_0000 == 0
  {
    if n == 0x7fff_ffff then -0x8000_0000 else n + 1
  }

  /** Below the largest int, `n++` is plain addition; at it, it wraps to the
      smallest int. */
  lemma IncrementWraps(n: Int32)
    ensures n as int < INT_MAX ==> Increment(n) as int == n as int + 1
    ensures n as int == INT_MAX ==> Increment(n) as int == INT_MIN
  {
    var r := Increment(n) as int;
    var k := (r - (n as int + 1)) / 0x1_0000_0000;
    assert r - (n as int + 1) == k * 0x1_0000_0000;
    if n as int < INT_MAX {
      assert k == 0;
    } else {
      assert k == -1;
    }
  }
}
