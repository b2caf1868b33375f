/**
 * Fixed-width C++ scalar types used by the configuration element and the
 * HTTP adapters, with the conversions between them written out: Dafny's
 * integers are unbounded, so every width, wrap-around and sign change the
 * C++ code relies on is explicit here.
 */
module Primitives {

  /** `int`: 32-bit two's complement. */
  newtype Int32 = x: int | -0x8000_0000 <= x < 0x8000_0000

  /** `long long`: 64-bit two's complement. */
  newtype Int64 = x: int | -0x8000_0000_0000_0000 <= x < 0x8000_0000_0000_0000

  /** `std::byte`: eight unsigned bits. */
  newtype Byte = x: int | 0 <= x < 0x100

  /** `char`: eight bits, signed as on the x86 and x86-64 ABIs. */
  newtype CChar = x: int | -0x80 <= x < 0x80

  /** A `double`, kept as its IEEE 754 binary64 bit pattern; no arithmetic on it is modelled. */
  datatype F64 = F64(bits: bv64)

  /**
   * A `float`, given by the `double` it widens to. Widening a binary32 value
   * to binary64 is exact, so this loses nothing the model needs.
   */
  datatype F32 = F32(asDouble: F64)

  /** 2^64: `std::size_t` arithmetic is modulo this number. */
  const SizeTModulus: int := 0x1_0000_0000_0000_0000

  /** No object exceeds PTRDIFF_MAX bytes, so no `std::vector` holds 2^63 elements. */
  const MaxVectorLength: int := 0x8000_0000_0000_0000

  /** `static_cast<std::size_t>(i)` for an `int`: the value modulo 2^64. */
  function ToSizeT(i: Int32): (n: nat)
    ensures n < SizeTModulus
    ensures (n - i as int) % SizeTModulus == 0
    ensures 0 <= i ==> n == i as int
    ensures i < 0 ==> n >= SizeTModulus - 0x8000_0000 > MaxVectorLength
  {
    if i < 0 then i as int + SizeTModulus else i as int
  }

  /** `static_cast<long long>(i)` for an `int`: widening keeps the number. */
  function WidenToLongLong(i: Int32): (r: Int64)
    ensures r as int == i as int
  {
    i as int as Int64
  }

  /** `static_cast<char>(b)` for a `std::byte`: the same bits read as a signed char. */
  function ByteToChar(b: Byte): (c: CChar)
    ensures (c as int - b as int) % 0x100 == 0
    ensures c < 0 <==> b >= 0x80
  {
    if b < 0x80 then b as int as CChar else (b as int - 0x100) as CChar
  }

  /** `static_cast<std::byte>(c)` for a `char`: the same bits read as unsigned. */
  function CharToByte(c: CChar): (b: Byte)
    ensures (b as int - c as int) % 0x100 == 0
    ensures b >= 0x80 <==> c < 0
  {
    if c < 0 then (c as int + 0x100) as Byte else c as int as Byte
  }

  /** Converting a byte to a char and back yields the original byte. */
  lemma ByteCharByte(b: Byte)
    ensures CharToByte(ByteToChar(b)) == b
  {
  }

  /** Converting a char to a byte and back yields the original char. */
  lemma CharByteChar(c: CChar)
    ensures ByteToChar(CharToByte(c)) == c
  {
  }

  /**
   * `std::string(p)` for a `const char *p`: the characters before the first
   * NUL. The C++ constructor demands a NUL-terminated array, hence the requires.
   */
  function CStringPrefix(s: seq<char>): (r: string)
    requires '\0' in s
    ensures |r| < |s| && r == s[..|r|]
    ensures s[|r|] == '\0'
    ensures '\0' !in r
  {
    if s[0] == '\0' then [] else [s[0]] + CStringPrefix(s[1..])
  }
}
