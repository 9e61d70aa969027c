/** The .NET value types the model needs: Guid and the wrapping 32-bit int. */
module Primitives {

  /** A System.Guid: a 128-bit value, compared only for equality. */
  newtype Guid = x: int | 0 <= x < 0x1_0000_0000_0000_0000_0000_0000_0000_0000

  /** Guid.Empty, the default value of an unassigned Guid property. */
  const EmptyGuid: Guid := 0

  const Int32Min: int := -0x8000_0000
  const Int32Max: int := 0x7FFF_FFFF
  const TwoTo32: int := 0x1_0000_0000

  /** A C# `int`. */
  newtype int32 = x: int | -0x8000_0000 <= x < 0x8000_0000

  /** Reduces an unbounded integer to the int32 that agrees with it modulo 2^32. */
  function Wrap(n: int): (r: int32)
    ensures Int32Min <= n <= Int32Max ==> r as int == n
    ensures (n - r as int) % TwoTo32 == 0
  {
    var m := (n - Int32Min) % TwoTo32;
    assert n - (m + Int32Min) == TwoTo32 * ((n - Int32Min) / TwoTo32);
    (m + Int32Min) as int32
  }

  /** C# `a + b` on ints in an unchecked context: the sum wraps around. */
  function WrapAdd(a: int32, b: int32): (r: int32)
    ensures Int32Min <= a as int + b as int <= Int32Max ==> r as int == a as int + b as int
    ensures (a as int + b as int - r as int) % TwoTo32 == 0
  {
    Wrap(a as int + b as int)
  }

  /** Two integers that differ by a multiple of 2^32 wrap to the same int32. */
  lemma {:induction false} WrapCongruent(n: int, k: int)
    ensures Wrap(n + k * TwoTo32) == Wrap(n)
  {
    var a := n - Int32Min;
    assert (a + k * TwoTo32) % TwoTo32 == a % TwoTo32 by {
      ModShift(a, k);
    }
    assert n + k * TwoTo32 - Int32Min == a + k * TwoTo32;
  }

  lemma {:induction false} ModShift(a: int, k: int)
    ensures (a + k * TwoTo32) % TwoTo32 == a % TwoTo32
  {
    var q, r := a / TwoTo32, a % TwoTo32;
    assert a == q * TwoTo32 + r;
    assert a + k * TwoTo32 == (q + k) * TwoTo32 + r;
  }

  /** Wrapping an intermediate result does not change the final wrapped sum. */
  lemma {:induction false} WrapOfSum(n: int, m: int)
    ensures Wrap(Wrap(n) as int + m) == Wrap(n + m)
  {
    var w := Wrap(n) as int;
    var k := (n - w) / TwoTo32;
    assert n - w == k * TwoTo32;
    WrapCongruent(w + m, k);
    assert w + m + k * TwoTo32 == n + m;
  }

  /** Wrapping addition is associative, so successive increments compose. */
  lemma {:induction false} WrapAddAssociative(x: int32, a: int32, b: int32)
    ensures WrapAdd(WrapAdd(x, a), b) == WrapAdd(x, WrapAdd(a, b))
  {
    var sum := x as int + a as int + b as int;
    calc {
      WrapAdd(WrapAdd(x, a), b);
      Wrap(Wrap(x as int + a as int) as int + b as int);
      { WrapOfSum(x as int + a as int, b as int); }
      Wrap(sum);
      { assert sum == a as int + b as int + x as int;
        WrapOfSum(a as int + b as int, x as int); }
      Wrap(Wrap(a as int + b as int) as int + x as int);
      WrapAdd(x, WrapAdd(a, b));
    }
  }
}
