/** C and C++ value representations shared by the whole model: nullable
    pointers, NUL-terminated strings and fixed-width integer conversions. */
module CValues {

  /** A pointer that may be NULL. */
  datatype Option<+T> = None | Some(value: T)

  /** The characters of a C string, without its terminating NUL. */
  type CString = seq<char>

  /** A C string cannot hold a NUL before its terminator. */
  predicate IsCString(s: seq<char>)
  {
    forall i :: 0 <= i < |s| ==> s[i] != '\0'
  }

  /** The character at i of a C string; past the end, the terminator. */
  function CharAt(s: CString, i: nat): (c: char)
    ensures IsCString(s) ==> (c == '\0' <==> i >= |s|)
  {
    if i < |s| then s[i] else '\0'
  }

  const TWO_32: int := 0x1_0000_0000
  const TWO_31: int := 0x8000_0000

  /** Values of a 32-bit unsigned integer (DWORD, uint32_t). */
  type UInt32 = x: int | 0 <= x < TWO_32

  /** The conversion of a 32-bit unsigned value to a 32-bit signed int
      (two's complement wrap-around). */
  function UInt32ToInt32(x: UInt32): (r: int)
    ensures -TWO_31 <= r < TWO_31
    ensures (r - x) % TWO_32 == 0
    ensures x < TWO_31 ==> r == x
  {
    if x < TWO_31 then x else x - TWO_32
  }

  /** The conversion of an int to a 32-bit unsigned value (reduction modulo
      2^32, as C does for a signed-to-unsigned conversion). */
  function ToUInt32(x: int): (r: UInt32)
    ensures (r - x) % TWO_32 == 0
    ensures 0 <= x < TWO_32 ==> r == x
  {
    x % TWO_32
  }

  /** The conversion of an int to an 8-bit unsigned field (Uint8). */
  function ToUInt8(x: int): (r: int)
    ensures 0 <= r < 256
    ensures (r - x) % 256 == 0
    ensures 0 <= x < 256 ==> r == x
  {
    x % 256
  }

  /** The conversion of an int to a 16-bit unsigned field (Uint16). */
  function ToUInt16(x: int): (r: int)
    ensures 0 <= r < 0x1_0000
    ensures (r - x) % 0x1_0000 == 0
    ensures 0 <= x < 0x1_0000 ==> r == x
  {
    x % 0x1_0000
  }
}
