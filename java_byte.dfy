/** Java's signed 8-bit `byte` and the narrowing casts the vote counters use. */
module JavaByte {

  /** The values a Java `byte` can hold. */
  type Byte = x: int | -128 <= x < 128

  /** The narrowing conversion `(byte) x`: keeps the low eight bits, read as
    * two's complement. Sums and differences of two bytes, the only values
    * the counters cast, fall in the first three branches. */
  function ToByte(x: int): (b: Byte)
    ensures -128 <= x < 128 ==> b == x
    ensures 128 <= x < 384 ==> b == x - 256
    ensures -384 <= x < -128 ==> b == x + 256
  {
    if -128 <= x < 128 then x
    else if 128 <= x < 384 then x - 256
    else if -384 <= x < -128 then x + 256
    else (x + 128) % 256 - 128
  }

  /** The cast changes its argument by a multiple of 256 and nothing else. */
  lemma ToByteCongruent(x: int)
    ensures (x - ToByte(x)) % 256 == 0
    ensures ToByte(x) == (x + 128) % 256 - 128
  {
  }

  /** `Math.abs` on the difference of two bytes, far from the 32-bit limit
    * where Java's `Math.abs(Integer.MIN_VALUE)` stays negative. */
  function Abs(x: int): (r: int)
    requires -256 < x < 256
    ensures r >= 0
    ensures r == x || r == -x
  {
    if x < 0 then -x else x
  }

  /** The `++` of a `byte` field: `b = (byte) (b + 1)`. */
  function Increment(b: Byte): (r: Byte)
    ensures b < 127 ==> r == b + 1
    ensures b == 127 ==> r == -128
  {
    ToByte(b + 1)
  }
}
