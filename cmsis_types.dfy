/** C and CMSIS-RTOS2 types shared by the deadline converter and the memory pool. */
module CmsisTypes {

  /** 2^32: the modulus of `uint32_t` arithmetic. */
  const Uint32Modulus: int := 0x1_0000_0000

  /** A C `uint32_t`. */
  type Uint32 = x: int | 0 <= x < Uint32Modulus

  /** A value that may be absent (a C pointer that may be NULL). */
  datatype Option<+T> = None | Some(value: T)

  /** The `osStatus_t` results produced by the memory pool: `osOK` and `osErrorParameter`. */
  datatype Status = Ok | ErrorParameter
}
