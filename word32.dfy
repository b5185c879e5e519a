/*
 * C `uint32_t` arithmetic shared by the driver models: values are held as
 * unbounded integers and every place where the C code can wrap calls Wrap32.
 */
module Word32 {

  /** C `uint8_t`; bytes are held as integers so that the arithmetic stays linear. */
  type byte = x: int | 0 <= x < 256

  const U32_LIMIT: int := 0x1_0000_0000

  predicate IsU32(x: int) { 0 <= x < U32_LIMIT }

  /** C `uint32_t` arithmetic result: wraps modulo 2^32. */
  function Wrap32(x: int): (r: int)
    ensures IsU32(r)
    ensures IsU32(x) ==> r == x
  {
    x % U32_LIMIT
  }
}
