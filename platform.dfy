/**
 * The pieces of the Java platform the socket utilities stand on: 32-bit `int`
 * arithmetic, bytes, `Optional`, exceptions turned into values, and the
 * outcomes of the underlying calls (`bind`, `connect`, `accept`, `read`,
 * `write`, `setSoTimeout`, `close`) whose result the utilities cannot see.
 */
module Platform {

  /** Java's `int`. */
  newtype int32 = x: int | -0x8000_0000 <= x < 0x8000_0000

  /** An unsigned byte of a byte stream (Java stores it signed; the bit pattern is the same). */
  newtype uint8 = x: int | 0 <= x < 0x100

  const TWO_TO_32: int := 0x1_0000_0000

  /** Two's-complement truncation of an exact integer to Java's `int`, as `int` arithmetic does. */
  function Wrap32(x: int): (r: int32)
    ensures (r as int - x) % TWO_TO_32 == 0
  {
    var m := x % TWO_TO_32;
    if m < 0x8000_0000 then m as int32 else (m - TWO_TO_32) as int32
  }

  /** Java's `Optional<T>`. */
  datatype Option<+T> = None | Some(value: T)

  /** A call that either returns a value or throws the named exception. */
  datatype Result<+T, +E> = Ok(value: T) | Err(error: E)

  /** What an underlying non-blocking platform call did: returned, or threw an `IOException`. */
  datatype Outcome = Success | IoErr

  /**
   * What an underlying blocking platform call did: completed, threw a
   * `SocketTimeoutException` because the configured timeout elapsed, or threw
   * some other `IOException`.
   */
  datatype BlockingOutcome = Completed | TimedOut | Failed

  /** A utility that either returns normally or re-throws `SocketTimeoutException` to its caller. */
  datatype Completion<+T> = Normal(value: T) | TimeoutSignal
}
