// Fixed-width unsigned words of the C++ code, and the wrap-around of casts to them.
module Words {
  const U32_MAX: nat := 0xFFFF_FFFF
  const U64_MAX: nat := 0xFFFF_FFFF_FFFF_FFFF

  type uint8 = x: nat | x < 0x100
  type uint16 = x: nat | x < 0x1_0000
  type uint32 = x: nat | x < 0x1_0000_0000
  type uint64 = x: nat | x < 0x1_0000_0000_0000_0000

  /** The cast to uint32_t of a (possibly wrapped) difference. */
  function Wrap32(x: int): uint32 {
    x % 0x1_0000_0000
  }

  /** The value of a uint64_t expression whose exact value is x. */
  function Wrap64(x: int): uint64 {
    x % 0x1_0000_0000_0000_0000
  }

  datatype Option<+T> = None | Some(value: T)

  /** A value, or the exception that the C++ code throws instead. */
  datatype Result<+T> = Ok(value: T) | Thrown
}
