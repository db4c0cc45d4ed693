/** Fixed-width integers and the operators of the C language, written out over `int`. */
module CTypes {

  type int8 = x: int | -0x80 <= x < 0x80
  type int16 = x: int | -0x8000 <= x < 0x8000
  type int32 = x: int | -0x8000_0000 <= x < 0x8000_0000
  type int64 = x: int | -0x8000_0000_0000_0000 <= x < 0x8000_0000_0000_0000
  type uint8 = x: int | 0 <= x < 0x100
  type uint16 = x: int | 0 <= x < 0x1_0000
  type uint32 = x: int | 0 <= x < 0x1_0000_0000
  type uint64 = x: int | 0 <= x < 0x1_0000_0000_0000_0000

  const TWO16: int := 0x1_0000
  const TWO32: int := 0x1_0000_0000
  const TWO64: int := 0x1_0000_0000_0000_0000

  datatype Option<+T> = None | Some(value: T)

  /** C's `/`: the quotient truncated toward zero. */
  function TruncDiv(a: int, b: int): int
    requires 0 < b
  {
    if 0 <= a then a / b else -((-a) / b)
  }

  /** C's `%`: the remainder has the sign of the dividend. */
  function TruncMod(a: int, b: int): int
    requires 0 < b
  {
    a - TruncDiv(a, b) * b
  }

  /** The quotient and remainder of a Euclidean division are unique. */
  lemma DivUnique(a: int, b: int, q: int, r: int)
    requires 0 < b && a == q * b + r && 0 <= r < b
    ensures a / b == q && a % b == r
  {
    var q' := a / b;
    var k := q - q';
    assert k * b == a % b - r by {
      assert a == q' * b + a % b;
      assert k * b == q * b - q' * b;
    }
    SmallMultiple(k, b);
  }

  lemma SmallMultiple(k: int, b: int)
    requires 0 < b && -b < k * b < b
    ensures k == 0
  {
    if k >= 1 {
      MulGrows(k, b);
    } else if k <= -1 {
      MulGrows(-k, b);
    }
  }

  lemma MulGrows(k: int, b: int)
    requires 0 < b && 1 <= k
    ensures b <= k * b
  {
    assert 0 <= (k - 1) * b;
  }

  /** Conversion to a 32-bit signed integer, reducing modulo 2^32. */
  function ToInt32(x: int): int32 {
    (x + 0x8000_0000) % TWO32 - 0x8000_0000
  }

  /** Reducing an intermediate result does not matter. */
  lemma ToInt32Once(x: int, d: int)
    ensures ToInt32(ToInt32(x) - d) == ToInt32(x - d)
  {
    var k := (x + 0x8000_0000) / TWO32;
    var y := x - d + 0x8000_0000;
    assert ToInt32(x) == x - k * TWO32;
    DivUnique(y - k * TWO32, TWO32, y / TWO32 - k, y % TWO32);
  }

  /** Conversion to a 64-bit signed integer, reducing modulo 2^64. */
  function ToInt64(x: int): int64 {
    (x + 0x8000_0000_0000_0000) % TWO64 - 0x8000_0000_0000_0000
  }

  /** Conversion to a 64-bit unsigned integer. */
  function ToUint64(x: int): uint64 {
    x % TWO64
  }
}
