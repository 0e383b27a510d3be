/** What the crypto wrappers share: `io.ReadFull` over a randomness source, and
    the base64 codec as a pair of uninterpreted functions. */
module CryptoCommon {
  import opened Base

  /** A reader that delivers `bytes` and then fails with `failure` (`EOF` for a
      source that simply runs dry). */
  datatype RandomSource = RandomSource(bytes: seq<byte>, failure: Error)

  /** `io.ReadFull(r, buf)` with `len(buf) == n`: exactly `n` bytes, or `EOF` when
      nothing could be read, `ErrUnexpectedEOF` when the source ran dry part way,
      and the source's own failure otherwise. */
  function ReadFull(r: RandomSource, n: nat): (res: Result<seq<byte>>)
    ensures res.Ok? <==> |r.bytes| >= n
    ensures res.Ok? ==> |res.value| == n && res.value == r.bytes[..n]
    ensures res.Err? && r.failure == EOF ==> res.error == (if |r.bytes| == 0 then EOF else UnexpectedEOF)
    ensures res.Err? && r.failure != EOF ==> res.error == r.failure
  {
    if |r.bytes| >= n then Ok(r.bytes[..n])
    else if |r.bytes| > 0 && r.failure == EOF then Err(UnexpectedEOF)
    else Err(r.failure)
  }

  /** `base64.StdEncoding`'s encoder and decoder (section 4 of RFC 4648). */
  datatype Base64 = Base64(encode: seq<byte> -> string, decode: string -> Result<seq<byte>>)

  /** A codec whose decoder inverts its encoder, as the standard one does. */
  ghost predicate RoundTrips(b: Base64)
  {
    forall bytes :: b.decode(b.encode(bytes)) == Ok(bytes)
  }
}
