// Shared value types: optional values, error results, and the 32-bit and
// 8-bit integer arithmetic of the JVM, written out explicitly because Dafny
// integers are unbounded.
module Base {

  datatype Option<+T> = None | Some(value: T)

  datatype Result<+T, +E> = Ok(value: T) | Err(error: E)

  const IntMin: int := -0x8000_0000
  const IntMax: int := 0x7FFF_FFFF

  predicate IsInt32(x: int) { IntMin <= x <= IntMax }

  /** JVM `Int` arithmetic wraps around modulo 2^32 into the signed range. */
  function Wrap32(x: int): (r: int)
    ensures IsInt32(r)
    ensures (r - x) % 0x1_0000_0000 == 0
    ensures IsInt32(x) ==> r == x
  {
    (x - IntMin) % 0x1_0000_0000 + IntMin
  }

  /** Kotlin `Int.toByte()`: keeps the low 8 bits, as a signed byte. */
  function ToByte(x: int): (r: int)
    ensures -128 <= r <= 127
    ensures (r - x) % 256 == 0
    ensures -128 <= x <= 127 ==> r == x
  {
    (x + 128) % 256 - 128
  }

  /**
   * JVM integer division truncates toward zero; Dafny's `/` is Euclidean,
   * so the two differ when an operand is negative.
   */
  function TruncDiv(a: int, b: int): (q: int)
    requires b != 0
    ensures a >= 0 && b > 0 ==> q == a / b
    ensures a < 0 && b > 0 ==> q == -((-a) / b)
  {
    var n := if a >= 0 then a else -a;
    var d := if b >= 0 then b else -b;
    if (a >= 0) == (b > 0) then n / d else -(n / d)
  }
}
