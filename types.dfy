/** Machine-width integer types and small records shared by the script
    interpreter model. */
module Types {

  /** A signed 16-bit value: what the operand stack holds and what
      ARG_INT16 operands decode to. */
  type int16 = x: int | -0x8000 <= x < 0x8000

  /** An unsigned 8-bit value: what one block counter holds. */
  type byte = x: int | 0 <= x < 0x100

  /** An unsigned 32-bit value: ids decoded by ARG_UINT32, thread ids and
      notify flags. */
  type uint32 = x: int | 0 <= x < 0x1_0000_0000

  datatype Option<+T> = None | Some(value: T)

  datatype Result<+T, +E> = Ok(value: T) | Err(error: E)

  /** What a handler asks the scheduler to do with the issuing thread
      (the `_result` field of an OpCall). `Continue` is the value the
      dispatcher puts there before calling the handler. */
  datatype Outcome = Continue | Suspend | Yield | Terminate

  /** The two fields of a live script thread that opNotifyThreadId reads. */
  datatype ThreadRecord = ThreadRecord(notifyFlags: uint32, callingThreadId: uint32)
}
