/** Option and the fixed-width integer types the client code works with. */
module Basics {

  datatype Option<+T> = None | Some(value: T)

  /** 2^64: the modulus of std::uint64_t arithmetic. */
  const Uint64Modulus: int := 0x1_0000_0000_0000_0000

  /** std::uint8_t (and the bytes of a QByteArray or std::string read as unsigned). */
  type byte = x: int | 0 <= x < 256

  /** std::uint64_t */
  type uint64 = x: int | 0 <= x < Uint64Modulus
}
