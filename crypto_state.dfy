/** The OAuth state generator of crypto/state.go: a 64-byte random token in hex,
    an HMAC-SHA-256 of that token under the secret in base64, joined by "." with
    every '+' removed, then query-escaped. HMAC, base64 and the escaper are
    uninterpreted functions; the random bytes come from a `RandomSource`. */
module CryptoState {
  import opened Base
  import opened CryptoCommon

  /** The number of random bytes in a state token. */
  const TokenBytes := 64

  predicate IsLowerHex(c: char)
  {
    ('0' <= c <= '9') || ('a' <= c <= 'f')
  }

  function HexDigit(d: int): (c: char)
    requires 0 <= d < 16
    ensures IsLowerHex(c)
  {
    if d < 10 then ('0' as int + d) as char else ('a' as int + d - 10) as char
  }

  function HexValue(c: char): (d: int)
    requires IsLowerHex(c)
    ensures 0 <= d < 16 && HexDigit(d) == c
  {
    if c <= '9' then c as int - '0' as int else c as int - 'a' as int + 10
  }

  /** `hex.EncodeToString`: two lower-case digits per byte, high nibble first. */
  function HexEncode(bytes: seq<byte>): (s: string)
    ensures |s| == 2 * |bytes|
    ensures forall i :: 0 <= i < |s| ==> IsLowerHex(s[i])
    decreases |bytes|
  {
    if bytes == [] then ""
    else [HexDigit(bytes[0] / 16), HexDigit(bytes[0] % 16)] + HexEncode(bytes[1..])
  }

  /** The inverse of `HexEncode` on its image. */
  function HexDecode(s: string): Option<seq<byte>>
    decreases |s|
  {
    if s == [] then Some([])
    else if |s| < 2 || !IsLowerHex(s[0]) || !IsLowerHex(s[1]) then None
    else match HexDecode(s[2..])
      case None => None
      case Some(rest) => Some([HexValue(s[0]) * 16 + HexValue(s[1])] + rest)
  }

  lemma {:induction false} HexRoundTrip(bytes: seq<byte>)
    ensures HexDecode(HexEncode(bytes)) == Some(bytes)
    decreases |bytes|
  {
    if bytes != [] {
      var s := HexEncode(bytes);
      assert s[2..] == HexEncode(bytes[1..]);
      HexRoundTrip(bytes[1..]);
      var b := bytes[0];
      assert HexValue(HexDigit(b / 16)) == b / 16;
      assert HexValue(HexDigit(b % 16)) == b % 16;
      assert [b] + bytes[1..] == bytes;
    }
  }

  /** `randomHex(n)`: the hex of `n` random bytes, or "" and the source's failure. */
  function RandomHex(n: nat, rand: RandomSource): (r: (string, Option<Error>))
    ensures r.1.None? ==> |r.0| == 2 * n && (forall i :: 0 <= i < |r.0| ==> IsLowerHex(r.0[i]))
    ensures r.1.None? <==> |rand.bytes| >= n
    ensures r.1.Some? ==> r.0 == ""
  {
    match ReadFull(rand, n)
    case Err(e) => ("", Some(e))
    case Ok(bytes) => (HexEncode(bytes), None)
  }

  /** `h.Write` of the message into an `hmac.New(sha256.New, secret)`: `mac` is
      HMAC-SHA-256 of a message under a key and `writeFault` a failure of the
      write. */
  function HmacBase64(message: string, secret: string, mac: (string, string) -> seq<byte>, b: Base64, writeFault: Option<Error>)
    : (r: (string, Option<Error>))
    ensures r.1 == writeFault
    ensures r.1.Some? ==> r.0 == ""
    ensures r.1.None? && RoundTrips(b) ==> b.decode(r.0) == Ok(mac(secret, message))
  {
    if writeFault.Some? then ("", writeFault) else (b.encode(mac(secret, message)), None)
  }

  /** `strings.ReplaceAll(s, "+", "")`. */
  function RemovePlus(s: string): (r: string)
    ensures '+' !in r
    ensures |r| == |s| - multiset(s)['+']
    decreases |s|
  {
    if s == [] then ""
    else
      assert s == [s[0]] + s[1..];
      (if s[0] == '+' then "" else [s[0]]) + RemovePlus(s[1..])
  }

  /** The state before escaping. */
  function Unescaped(mac: string, token: string): string
  {
    RemovePlus(mac + "." + token)
  }

  /** `GenerateState(secret)`; `escape` is `url.QueryEscape`. */
  function GenerateState(secret: string, rand: RandomSource, mac: (string, string) -> seq<byte>, b: Base64,
                         writeFault: Option<Error>, escape: string -> string): (r: (string, Option<Error>))
    ensures r.1.None? <==> |rand.bytes| >= TokenBytes && writeFault.None?
    ensures r.1.Some? ==> r.0 == ""
    ensures |rand.bytes| < TokenBytes ==> r == ("", Some(ReadFull(rand, TokenBytes).error))
    ensures |rand.bytes| >= TokenBytes && writeFault.Some? ==> r == ("", writeFault)
  {
    var (ts, err) := RandomHex(TokenBytes, rand);
    if err.Some? then ("", err)
    else
      var (h, err2) := HmacBase64(ts, secret, mac, b, writeFault);
      if err2.Some? then ("", err2)
      else (escape(Unescaped(h, ts)), None)
  }

  // ------------------------------------------------------------- properties

  /** A successful `hmacBase64` returns a non-empty string: the HMAC is never empty
      (HMAC-SHA-256 yields 32 bytes) and a round-tripping codec that encodes no
      bytes as "" encodes nothing else as "". */
  lemma HmacBase64NonEmpty(message: string, secret: string, mac: (string, string) -> seq<byte>, b: Base64)
    requires RoundTrips(b) && b.encode([]) == ""
    requires |mac(secret, message)| == 32
    ensures HmacBase64(message, secret, mac, b, None).1 == None
    ensures HmacBase64(message, secret, mac, b, None).0 != ""
  {
    assert b.decode(b.encode([])) == Ok([]);
  }

  /** Removing '+' distributes over concatenation and keeps strings without '+'. */
  lemma {:induction false} RemovePlusAppend(a: string, b: string)
    ensures RemovePlus(a + b) == RemovePlus(a) + RemovePlus(b)
    decreases |a|
  {
    if a == [] {
      assert a + b == b;
    } else {
      assert (a + b)[0] == a[0] && (a + b)[1..] == a[1..] + b;
      RemovePlusAppend(a[1..], b);
    }
  }

  lemma {:induction false} RemovePlusNoPlus(s: string)
    requires '+' !in s
    ensures RemovePlus(s) == s
    decreases |s|
  {
    if s != [] {
      assert s[0] != '+';
      assert '+' !in s[1..];
      RemovePlusNoPlus(s[1..]);
    }
  }

  /** The token is 128 lower-case hex digits, the HMAC is taken over the token
      under the secret, and the unescaped state is the HMAC without its '+'
      characters, a '.', and the token intact. */
  lemma StateShape(secret: string, rand: RandomSource, mac: (string, string) -> seq<byte>, b: Base64, escape: string -> string)
    requires |rand.bytes| >= TokenBytes
    ensures var token := HexEncode(rand.bytes[..TokenBytes]);
      && |token| == 128
      && GenerateState(secret, rand, mac, b, None, escape)
           == (escape(RemovePlus(b.encode(mac(secret, token))) + "." + token), None)
  {
    var token := HexEncode(rand.bytes[..TokenBytes]);
    var h := b.encode(mac(secret, token));
    assert RandomHex(TokenBytes, rand) == (token, None);
    assert HmacBase64(token, secret, mac, b, None) == (h, None);
    NoPlusInHex(token);
    UnescapedJoin(h, token);
  }

  /** With a token free of '+', the unescaped state is the HMAC without '+',
      the separator and the token. */
  lemma UnescapedJoin(mac: string, token: string)
    requires '+' !in token
    ensures Unescaped(mac, token) == RemovePlus(mac) + "." + token
  {
    RemovePlusAppend(mac + ".", token);
    RemovePlusAppend(mac, ".");
    RemovePlusNoPlus(token);
    RemovePlusNoPlus(".");
  }

  /** Hex digits are neither '+' nor '.'. */
  lemma NoPlusInHex(s: string)
    requires forall i :: 0 <= i < |s| ==> IsLowerHex(s[i])
    ensures '+' !in s && '.' !in s
  {
  }

  /** The unescaped state has no '+', and its last '.' is the separator: what
      follows it is exactly the token. */
  lemma UnescapedSplitsAtLastDot(mac: string, token: string)
    requires forall i :: 0 <= i < |token| ==> IsLowerHex(token[i])
    ensures '+' !in Unescaped(mac, token)
    ensures var u := Unescaped(mac, token); var k := |u| - |token| - 1;
      && 0 <= k && u[k] == '.' && u[k + 1..] == token
      && forall j :: k < j < |u| ==> u[j] != '.'
  {
    NoPlusInHex(token);
    RemovePlusAppend(mac + ".", token);
    RemovePlusAppend(mac, ".");
    RemovePlusNoPlus(token);
    RemovePlusNoPlus(".");
  }
}
