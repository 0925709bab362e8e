/** Definitions every part uses. */
module Prelude {
  datatype Option<+T> = None | Some(value: T)

  /** 32-bit unsigned fields truncate what is stored in them. */
  function U32(x: nat): nat {
    if x < 0x1_0000_0000 then x else x % 0x1_0000_0000
  }

  /** And 64-bit ones. */
  function U64(x: nat): nat {
    if x < 0x1_0000_0000_0000_0000 then x else x % 0x1_0000_0000_0000_0000
  }
}
