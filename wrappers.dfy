/** Option and Result, the failure-carrying shapes shared by every module of the model,
    with the few combinators the source code chains together. */
module Wrappers {

  datatype Option<+T> = None | Some(value: T)

  datatype Result<+T, +E> = Ok(value: T) | Err(error: E) {
    predicate IsFailure() { Err? }

    function PropagateFailure<U>(): Result<U, E>
      requires Err?
    {
      Err(error)
    }

    function Extract(): T
      requires Ok?
    {
      value
    }
  }

  /** The bytes handled by the source (`u8`). */
  type byte = b: int | 0 <= b < 256

  /** Unsigned integers of the source's fixed widths. */
  type u16 = n: int | 0 <= n < 0x1_0000
  type u32 = n: int | 0 <= n < 0x1_0000_0000
  type u64 = n: int | 0 <= n < 0x1_0000_0000_0000_0000

  /** Signed 32-bit integers (`i32`, and CRAM's ITF-8 values). */
  type i32 = n: int | -0x8000_0000 <= n < 0x8000_0000
}
