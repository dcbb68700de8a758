/** The fixed-width integer semantics of C# that the generators rely on:
    unchecked wrap-around of `int` and `long` arithmetic and the `%` operator,
    which truncates toward zero (its result takes the sign of the dividend). */
module CSharpInt {

  const Int32Min: int := -0x8000_0000
  const Int32Max: int := 0x7FFF_FFFF
  const Int64Min: int := -0x8000_0000_0000_0000
  const Int64Max: int := 0x7FFF_FFFF_FFFF_FFFF

  const Two32: int := 0x1_0000_0000
  const Two64: int := 0x1_0000_0000_0000_0000

  type Int32 = x: int | Int32Min <= x <= Int32Max
  type Int64 = x: int | Int64Min <= x <= Int64Max

  /** The value an unchecked `int` operation produces for the exact result `x`. */
  function Wrap32(x: int): (r: Int32)
    ensures (r - x) % Two32 == 0
    ensures Int32Min <= x <= Int32Max ==> r == x
  {
    var m := x % Two32;
    if m > Int32Max then m - Two32 else m
  }

  /** The value an unchecked `long` operation produces for the exact result `x`. */
  function Wrap64(x: int): (r: Int64)
    ensures (r - x) % Two64 == 0
    ensures Int64Min <= x <= Int64Max ==> r == x
  {
    var m := x % Two64;
    if m > Int64Max then m - Two64 else m
  }

  /** C#'s `a / b` for a positive divisor: the quotient truncated toward zero. */
  function Quot(a: int, b: int): int
    requires b > 0
  {
    if a >= 0 then a / b else -((-a) / b)
  }

  /** C#'s `a % b` for a positive divisor (every divisor in the model is a
      positive constant): what remains of `a` after taking out the truncated
      quotient, smaller than the divisor in magnitude, with the sign of the
      dividend. */
  function Rem(a: int, b: int): (r: int)
    requires b > 0
    ensures a == b * Quot(a, b) + r
    ensures -b < r < b
    ensures a >= 0 ==> 0 <= r
    ensures a <= 0 ==> r <= 0
  {
    if a >= 0 then
      a % b
    else
      var q, m := (-a) / b, (-a) % b;
      assert -a == b * q + m && 0 <= m < b;
      assert a == b * (-q) - m;
      -m
  }

  /** A dividend already smaller in magnitude than the divisor is its own remainder. */
  lemma RemSmall(a: int, b: int)
    requires b > 0
    ensures -b < a < b ==> Rem(a, b) == a
  {
  }

  /** Two wraps in a row cost nothing more than one: the intermediate
      overflow of `x * 31` in `x * 31 + y` does not change the final value. */
  lemma {:induction false} Wrap64Absorbs(x: int, y: int)
    ensures Wrap64(Wrap64(x) + y) == Wrap64(x + y)
  {
    var w := Wrap64(x);
    assert (w - x) % Two64 == 0;
    var k := (w - x) / Two64;
    assert w + y == (x + y) + k * Two64;
    ModuloShift64(x + y, k);
  }

  lemma ModuloShift64(a: int, k: int)
    ensures (a + k * Two64) % Two64 == a % Two64
  {
  }

  /** Wrapping a factor does not change a product modulo 2^32. */
  lemma Wrap32Times(a: int, b: int)
    ensures (Wrap32(Wrap32(a) * b) - a * b) % Two32 == 0
  {
    var w := Wrap32(a);
    var k := (w - a) / Two32;
    assert w - a == k * Two32;
    var v := Wrap32(w * b);
    var j := (v - w * b) / Two32;
    assert v - w * b == j * Two32;
    assert w * b - a * b == (k * b) * Two32 by {
      assert w * b - a * b == (w - a) * b;
    }
    MultipleOfTwo32(k * b + j);
  }

  lemma MultipleOfTwo32(m: int)
    ensures (m * Two32) % Two32 == 0
  {
  }

  /** A value congruent to `x` modulo 2^32, plus `y`, wraps to a value congruent to `x + y`. */
  lemma Wrap32Plus(w: int, x: int, y: int)
    requires (w - x) % Two32 == 0
    ensures (Wrap32(w + y) - (x + y)) % Two32 == 0
  {
    var k := (w - x) / Two32;
    assert w == x + k * Two32;
    var v := Wrap32(w + y);
    var j := (v - (w + y)) / Two32;
    assert v == (x + y) + (k + j) * Two32;
  }
}
