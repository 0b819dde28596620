/** Status codes and machine integers shared by the networking and MQTT layers.
    The device is a 32-bit Cortex-M part: UINT and ULONG are both 32 bits wide. */
module Status {

  /** A 32-bit unsigned value (the C types UINT and ULONG on this target). */
  type U32 = x: int | 0 <= x < 0x1_0000_0000

  /** NetX success status; WICED's WWD_SUCCESS has the same value. */
  const NX_SUCCESS: U32 := 0x00

  /** NetX generic failure status, returned by the repository's own code. */
  const NX_NOT_SUCCESSFUL: U32 := 0x43

  /** WICED driver success status. */
  const WWD_SUCCESS: U32 := 0
}

/** The optional value used where the C code may have nothing to report. */
module Wrappers {
  datatype Option<+T> = None | Some(value: T)
}
