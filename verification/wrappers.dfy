/** Option and Result types shared by the modules. */
module Wrappers {

  datatype Option<+T> = None | Some(value: T)

  datatype Result<+R, +E> = Success(value: R) | Failure(error: E)
}

/** Raw binary data: an `ArrayBuffer` seen as a sequence of octets. */
module Bytes {
  type byte = b: int | 0 <= b < 256

  type Bytes = seq<byte>
}
