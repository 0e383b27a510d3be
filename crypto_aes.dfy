/** The AES-GCM encryptor of crypto/aes.go. The key is copied into a 32-byte
    buffer (truncated or zero-padded), a random nonce is drawn and put in front
    of the sealed text, and the whole is base64-encoded; decryption undoes the
    framing. AES, GCM and base64 are uninterpreted functions. */
module CryptoAes {
  import opened Base
  import opened CryptoCommon

  /** The length `Encrypt` and `Decrypt` give every key: AES-256. */
  const KeySize := 32

  /** `gcm.NonceSize()` of a GCM built with `cipher.NewGCM`: the standard 12 bytes. */
  const NonceSize := 12

  /** AES-GCM's seal and open for a key and nonce, left uninterpreted. `open`
      yields `None` when authentication fails. */
  datatype Gcm = Gcm(seal: (seq<byte>, seq<byte>, seq<byte>) -> seq<byte>,
                     open: (seq<byte>, seq<byte>, seq<byte>) -> Option<seq<byte>>)

  /** An AEAD in which opening what was sealed under the same key and nonce
      gives the plaintext back. */
  ghost predicate Opens(g: Gcm)
  {
    forall k, n, p :: g.open(k, n, g.seal(k, n, p)) == Some(p)
  }

  function Min(a: int, b: int): int
  {
    if a < b then a else b
  }

  /** `validKey := make([]byte, 32); copy(validKey, key)`. */
  function NormalizedKey(key: seq<byte>): (k: seq<byte>)
    ensures |k| == KeySize
    ensures forall i :: 0 <= i < Min(|key|, KeySize) ==> k[i] == key[i]
    ensures forall i :: Min(|key|, KeySize) <= i < KeySize ==> k[i] == 0
  {
    seq(KeySize, i requires 0 <= i < KeySize => if i < |key| then key[i] else 0)
  }

  /** The same, as the source does it: a zeroed buffer filled in place. */
  method NormalizeKey(key: seq<byte>) returns (k: seq<byte>)
    ensures k == NormalizedKey(key)
  {
    var buf := new byte[KeySize](_ => 0);
    var n := Min(|key|, KeySize);
    for i := 0 to n
      invariant forall j :: 0 <= j < i ==> buf[j] == key[j]
      invariant forall j :: i <= j < KeySize ==> buf[j] == 0
    {
      buf[i] := key[i];
    }
    k := buf[..];
  }

  /** `aes.NewCipher`: only 16-, 24- and 32-byte keys are AES keys. */
  function NewCipher(key: seq<byte>): (r: Result<seq<byte>>)
    ensures r.Err? <==> |key| != 16 && |key| != 24 && |key| != 32
    ensures r.Err? ==> r.error == KeySizeError(|key|)
    ensures r.Ok? ==> r.value == key
  {
    if |key| == 16 || |key| == 24 || |key| == 32 then Ok(key) else Err(KeySizeError(|key|))
  }

  /** `gcm.Seal(nonce, nonce, plaintext, nil)`: the sealed text appended to the nonce. */
  function Frame(nonce: seq<byte>, sealed: seq<byte>): seq<byte>
  {
    nonce + sealed
  }

  /** Encrypt's outcome for a normalised key: the text, or "" and the error. */
  function EncryptResult(text: seq<byte>, key: seq<byte>, g: Gcm, b: Base64, rand: RandomSource): (string, Option<Error>)
  {
    var k := NormalizedKey(key);
    match ReadFull(rand, NonceSize)
    case Err(e) => ("", Some(e))
    case Ok(nonce) => (b.encode(Frame(nonce, g.seal(k, nonce, text))), None)
  }

  /** Decrypt's outcome: a base64 failure and a buffer shorter than a nonce are
      errors; an authentication failure yields "" without an error. */
  function DecryptResult(text: string, key: seq<byte>, g: Gcm, b: Base64): (seq<byte>, Option<Error>)
  {
    var k := NormalizedKey(key);
    match b.decode(text)
    case Err(e) => ([], Some(e))
    case Ok(buf) =>
      if |buf| < NonceSize then ([], Some(InvalidNonceSize))
      else match g.open(k, buf[..NonceSize], buf[NonceSize..])
        case None => ([], None)
        case Some(p) => (p, None)
  }

  /** `rand` is the randomness source the nonce is read from. The key is always
      32 bytes, so the cipher constructor cannot fail here. */
  method Encrypt(text: seq<byte>, key: seq<byte>, g: Gcm, b: Base64, rand: RandomSource) returns (out: string, err: Option<Error>)
    ensures (out, err) == EncryptResult(text, key, g, b, rand)
  {
    var k := NormalizeKey(key);
    NormalizedKeyIsAesKey(key);
    var c := NewCipher(k);
    var nonce := ReadFull(rand, NonceSize);
    match nonce {
      case Err(e) =>
        return "", Some(e);
      case Ok(n) =>
        var result := Frame(n, g.seal(c.value, n, text));
        return b.encode(result), None;
    }
  }

  method Decrypt(text: string, key: seq<byte>, g: Gcm, b: Base64) returns (out: seq<byte>, err: Option<Error>)
    ensures (out, err) == DecryptResult(text, key, g, b)
  {
    var k := NormalizeKey(key);
    NormalizedKeyIsAesKey(key);
    var c := NewCipher(k);
    var decoded := b.decode(text);
    if decoded.Err? {
      return [], Some(decoded.error);
    }
    var buf := decoded.value;
    if |buf| < NonceSize {
      return [], Some(InvalidNonceSize);
    }
    var nonce, ciphertext := buf[..NonceSize], buf[NonceSize..];
    var plaintext := g.open(c.value, nonce, ciphertext);
    if plaintext.None? {
      return [], None;
    }
    return plaintext.value, None;
  }

  // ------------------------------------------------------------- properties

  /** A normalised key is always accepted by `aes.NewCipher`. */
  lemma NormalizedKeyIsAesKey(key: seq<byte>)
    ensures NewCipher(NormalizedKey(key)) == Ok(NormalizedKey(key))
  {
  }

  /** A long key is cut to its first 32 bytes; a short one is zero-padded. */
  lemma NormalizedKeyShape(key: seq<byte>)
    ensures |key| >= KeySize ==> NormalizedKey(key) == key[..KeySize]
    ensures |key| <= KeySize ==> NormalizedKey(key) == key + seq(KeySize - |key|, _ => 0)
  {
  }

  /** Keys that agree on their first 32 bytes, or are equal up to zero padding
      within 32 bytes, are the same key. */
  lemma NormalizedKeyPrefix(a: seq<byte>, b: seq<byte>)
    requires forall i :: 0 <= i < KeySize ==> (if i < |a| then a[i] else 0) == (if i < |b| then b[i] else 0)
    ensures NormalizedKey(a) == NormalizedKey(b)
  {
  }

  /** Splitting a frame at `NonceSize` recovers its nonce and its sealed part. */
  lemma FrameSplit(nonce: seq<byte>, sealed: seq<byte>)
    requires |nonce| == NonceSize
    ensures Frame(nonce, sealed)[..NonceSize] == nonce && Frame(nonce, sealed)[NonceSize..] == sealed
    ensures |Frame(nonce, sealed)| >= NonceSize
  {
  }

  /** Decrypting what Encrypt produced under the same key gives the plaintext
      back, when base64 decoding inverts encoding and GCM opens what it sealed. */
  lemma EncryptThenDecrypt(text: seq<byte>, key: seq<byte>, g: Gcm, b: Base64, rand: RandomSource)
    requires Opens(g) && RoundTrips(b)
    requires |rand.bytes| >= NonceSize
    ensures EncryptResult(text, key, g, b, rand).1 == None
    ensures DecryptResult(EncryptResult(text, key, g, b, rand).0, key, g, b) == (text, None)
  {
    var k := NormalizedKey(key);
    var nonce := rand.bytes[..NonceSize];
    var sealed := g.seal(k, nonce, text);
    FrameSplit(nonce, sealed);
    assert b.decode(b.encode(Frame(nonce, sealed))) == Ok(Frame(nonce, sealed));
    assert g.open(k, nonce, sealed) == Some(text);
  }

  /** A buffer shorter than a nonce is refused, and a failed base64 decode is
      passed on, both with an empty text. */
  lemma DecryptErrors(text: string, key: seq<byte>, g: Gcm, b: Base64)
    ensures b.decode(text).Err? ==> DecryptResult(text, key, g, b) == ([], Some(b.decode(text).error))
    ensures b.decode(text).Ok? && |b.decode(text).value| < NonceSize ==> DecryptResult(text, key, g, b) == ([], Some(InvalidNonceSize))
  {
  }

  /** An authentication failure is swallowed: no error, empty plaintext. */
  lemma DecryptSwallowsAuthFailure(text: string, key: seq<byte>, g: Gcm, b: Base64)
    requires b.decode(text).Ok? && |b.decode(text).value| >= NonceSize
    requires g.open(NormalizedKey(key), b.decode(text).value[..NonceSize], b.decode(text).value[NonceSize..]).None?
    ensures DecryptResult(text, key, g, b) == ([], None)
  {
  }

  /** A randomness failure aborts Encrypt with "" and that failure. */
  lemma EncryptNonceFailure(text: seq<byte>, key: seq<byte>, g: Gcm, b: Base64, rand: RandomSource)
    requires |rand.bytes| < NonceSize
    ensures EncryptResult(text, key, g, b, rand) == ("", Some(ReadFull(rand, NonceSize).error))
  {
  }
}
