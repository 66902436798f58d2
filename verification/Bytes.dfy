/** Bytes and the small wrappers shared by every component. */
module Bytes {

  type Byte = b: int | 0 <= b < 256
  type Bytes = seq<Byte>

  datatype Option<+T> = None | Some(value: T)

  const TWO_31: int := 0x8000_0000
  const TWO_32: int := 0x1_0000_0000

  /** Conversion of an unsigned value to a 32-bit signed one: the low 32 bits read as two's complement. */
  function ToInt32(n: int): (r: int)
    ensures -TWO_31 <= r < TWO_31
    ensures (r - n) % TWO_32 == 0
    ensures 0 <= n < TWO_31 ==> r == n
  {
    var low := n % TWO_32;
    if low < TWO_31 then low else low - TWO_32
  }

  /** Conversion of a signed value to a 32-bit unsigned one. */
  function ToUint32(n: int): (r: nat)
    ensures r < TWO_32
    ensures (r - n) % TWO_32 == 0
    ensures 0 <= n < TWO_32 ==> r == n
  {
    n % TWO_32
  }
}
