// Java integer arithmetic: two's-complement wrap-around of `long` and `int`
// and division that truncates toward zero (JLS section 15.17.2).
module JavaNum {
  const TWO_31: int := 0x8000_0000
  const TWO_32: int := 0x1_0000_0000
  const TWO_63: int := 0x8000_0000_0000_0000
  const TWO_64: int := 0x1_0000_0000_0000_0000

  predicate IsLong(x: int) { -TWO_63 <= x < TWO_63 }
  predicate IsInt(x: int) { -TWO_31 <= x < TWO_31 }

  /** Java's `long`. */
  type Long = x: int | -TWO_63 <= x < TWO_63
  /** Java's `int`. */
  type Int = x: int | -TWO_31 <= x < TWO_31

  /** The value a `long` holds after an operation whose exact result is x. */
  function Wrap64(x: int): (r: Long)
    ensures IsLong(r)
    ensures (x - r) % TWO_64 == 0
  {
    (x + TWO_63) % TWO_64 - TWO_63
  }

  /** The narrowing cast `(int) x` of a `long` (JLS section 5.1.3). */
  function Wrap32(x: int): (r: Int)
    ensures IsInt(r)
    ensures (x - r) % TWO_32 == 0
  {
    (x + TWO_31) % TWO_32 - TWO_31
  }

  lemma Wrap64Identity(x: int)
    requires IsLong(x)
    ensures Wrap64(x) == x
  {
    assert 0 <= x + TWO_63 < TWO_64;
  }

  lemma Wrap32Identity(x: int)
    requires IsInt(x)
    ensures Wrap32(x) == x
  {
    assert 0 <= x + TWO_31 < TWO_32;
  }

  /** Java's `a / b`: the quotient rounded toward zero. */
  function JavaDiv(a: int, b: int): (q: int)
    requires b != 0
    ensures a >= 0 ==> 0 <= a - q * b
    ensures a <= 0 ==> a - q * b <= 0
    ensures -(if b < 0 then -b else b) < a - q * b < (if b < 0 then -b else b)
  {
    if a >= 0 then (if b > 0 then a / b else -(a / -b))
    else (if b > 0 then -((-a) / b) else (-a) / (-b))
  }
}
