/** Value types shared by every component: optional values, results and the
    errors the adapters return or pass through. */
module Base {

  /** Go's `nil`-or-value, used for optional pointers and for the `error` return. */
  datatype Option<+T> = None | Some(value: T)

  /** A value or the error that replaced it. */
  datatype Result<+T> = Ok(value: T) | Err(error: Error)

  /** The errors that appear in the modelled code. */
  datatype Error =
    /** `_errInvalidResultOption`: a List/Read/Write call without a usable output or payload. */
    | InvalidResultOption
    /** go-micro's `store.ErrNotFound`, and the cache stores' miss error. */
    | NotFound
    /** the MongoDB driver's `mongo.ErrNoDocuments`. */
    | NoDocuments
    /** `_ErrInvalidNonceSize` of the AES encryptor. */
    | InvalidNonceSize
    /** `aes.KeySizeError`: a key of the given length is not an AES key. */
    | KeySizeError(size: int)
    /** `io.EOF` and `io.ErrUnexpectedEOF` from `io.ReadFull`. */
    | EOF
    | UnexpectedEOF
    /** The MongoDB server's refusal of a find whose skip is negative. */
    | NegativeSkip
    /** mapstructure's refusal to decode into a nil output. */
    | ResultNotPointer
    /** An error produced by a foreign library (driver, network, codec), identified by a code. */
    | Failure(code: int)

  /** A Go `byte`. */
  type byte = x: int | 0 <= x < 256

  /** A Go `uint` on a 64-bit platform. */
  type uint64 = x: int | 0 <= x < 0x1_0000_0000_0000_0000

  /** Go's conversion `int64(u)` of a `uint`: two's-complement reinterpretation. */
  function ToInt64(u: uint64): (r: int)
    ensures -0x8000_0000_0000_0000 <= r < 0x8000_0000_0000_0000
    ensures r >= 0 <==> u < 0x8000_0000_0000_0000
    ensures r % 0x1_0000_0000_0000_0000 == u
  {
    if u < 0x8000_0000_0000_0000 then u else u - 0x1_0000_0000_0000_0000
  }
}
