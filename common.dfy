/** Shared value types of the frame pipeline: bytes, the error cases the
    C++ code throws, and the Option/Result wrappers used to model them. */
module Common {

  /** One octet of a frame buffer (`uint8_t`). */
  newtype byte = x: int | 0 <= x < 256

  /** The exceptions the core throws, by their C++ type. */
  datatype Error =
    | RuntimeError(what: string)
    | InvalidArgument(what: string)
    | SystemError(what: string)

  datatype Option<T> = None | Some(value: T)

  datatype Result<T> = Ok(value: T) | Err(error: Error)

  /** A `void` operation that either returns or throws. */
  datatype Outcome = Done | Threw(error: Error)

  /** The zero-initialised contents of a freshly sized `std::vector<uint8_t>`. */
  function Zeros(n: nat): (z: seq<byte>)
    ensures |z| == n
    ensures forall i :: 0 <= i < n ==> z[i] == 0
  {
    seq(n, _ => 0 as byte)
  }
}
