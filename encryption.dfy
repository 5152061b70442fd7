/**
 * Credential encryption: the key, taken from configuration, and the two
 * Base64 text fields (ciphertext and nonce) under which an encrypted
 * credential dictionary is stored.
 *
 * AES-GCM and the JSON serialisation of the dictionary are collaborators
 * the model does not open: `Aead` and `Codec` carry them as functions, and
 * `SoundAead` / `SoundCodec` state the one property the design relies on,
 * that opening what was sealed (loading what was dumped) gives it back.
 */
module Encryption {
  import opened Wrappers
  import opened Base64
  import Text

  /** A credential dictionary: field name to value. */
  type Credentials = map<string, string>

  /** The stored form: exactly the two Base64 text fields. */
  datatype EncryptedCredentials = EncryptedCredentials(encryptedData: string, nonce: string)

  datatype CipherError =
    | MissingKey              // the configured key is empty
    | UnsupportedKeySize(size: nat)  // AES-GCM accepts 128, 192 or 256-bit keys only
    | MalformedBase64         // a stored field is not Base64
    | AuthenticationFailed    // the GCM tag does not match
    | MalformedPlaintext      // the decrypted bytes are not a serialised dictionary

  const MissingKeyMessage := "ENCRYPTION_KEY environment variable must be set in production"

  /** The text of the exception each error is raised as. */
  function Describe(e: CipherError): string {
    match e
    case MissingKey => MissingKeyMessage
    case UnsupportedKeySize(_) => "AESGCM key must be 128, 192, or 256 bits."
    case MalformedBase64 => "Incorrect padding"
    case AuthenticationFailed => ""
    case MalformedPlaintext => "Invalid JSON"
  }

  /** Length of the fallback key and of a generated key: 256 bits. */
  const KeySize := 32
  /** Length of every nonce: 96 bits. */
  const NonceSize := 12

  predicate UsableKeySize(n: nat) {
    n == 16 || n == 24 || n == 32
  }

  /** Authenticated encryption, as (key, nonce, data) functions. */
  datatype Aead = Aead(seal: (Bytes, Bytes, Bytes) -> Bytes, open: (Bytes, Bytes, Bytes) -> Option<Bytes>)

  /** Opening with the key and nonce used for sealing returns the sealed plaintext. */
  ghost predicate SoundAead(a: Aead) {
    forall k: Bytes, n: Bytes, p: Bytes ::
      UsableKeySize(|k|) && |n| == NonceSize ==> a.open(k, n, a.seal(k, n, p)) == Some(p)
  }

  /** Serialisation of a credential dictionary to bytes and back. */
  datatype Codec = Codec(dump: Credentials -> Bytes, load: Bytes -> Option<Credentials>)

  ghost predicate SoundCodec(c: Codec) {
    forall m: Credentials :: c.load(c.dump(m)) == Some(m)
  }

  function Min(a: int, b: int): int {
    if a < b then a else b
  }

  /**
   * The development fallback for a key that is not Base64: its UTF-8 bytes,
   * cut to 32 bytes or padded with zero bytes up to 32.
   */
  function DevKey(key: string): (k: Bytes)
    ensures |k| == KeySize
    ensures forall i :: 0 <= i < Min(KeySize, |Text.Utf8(key)|) ==> k[i] == Text.Utf8(key)[i]
    ensures forall i :: Min(KeySize, |Text.Utf8(key)|) <= i < KeySize ==> k[i] == 0
  {
    var u := Text.Utf8(key);
    var n := Min(KeySize, |u|);
    u[..n] + seq(KeySize - n, _ => 0)
  }

  /**
   * The key bytes for a configured key: an error when it is empty, its
   * Base64 decoding when it is Base64, the development fallback otherwise.
   */
  function GetEncryptionKey(key: string): (r: Result<Bytes, CipherError>)
    ensures r.Err? <==> key == ""
    ensures r.Err? ==> r.error == MissingKey
    ensures r.Ok? && Decode(key).Some? ==> r.value == Decode(key).value
    ensures r.Ok? && Decode(key).None? ==> r.value == DevKey(key)
  {
    if key == "" then Err(MissingKey)
    else
      match Decode(key)
      case Some(b) => Ok(b)
      case None => Ok(DevKey(key))
  }

  /**
   * The fallback key of an ASCII text of at most 32 characters is its
   * character codes followed by zero bytes; the fallback key of a text of
   * at least 32 characters is the first 32 bytes of its UTF-8 form, never
   * padded.
   */
  lemma DevKeyOfText(key: string)
    ensures Text.IsAscii(key) && |key| <= KeySize ==>
      && (forall i :: 0 <= i < |key| ==> DevKey(key)[i] == key[i] as int)
      && (forall i :: |key| <= i < KeySize ==> DevKey(key)[i] == 0)
    ensures |key| >= KeySize ==>
      |Text.Utf8(key)| >= KeySize && forall i :: 0 <= i < KeySize ==> DevKey(key)[i] == Text.Utf8(key)[i]
  {
    Text.Utf8Length(key);
    if Text.IsAscii(key) {
      Text.Utf8Ascii(key);
    }
  }

  /** The key as the cipher accepts it: the key bytes, refused unless 16, 24 or 32 bytes long. */
  function CipherKey(key: string): (r: Result<Bytes, CipherError>)
    ensures r.Ok? <==> GetEncryptionKey(key).Ok? && UsableKeySize(|GetEncryptionKey(key).value|)
    ensures r.Ok? ==> r.value == GetEncryptionKey(key).value
    ensures r.Err? ==> r.error == (if GetEncryptionKey(key).Err? then GetEncryptionKey(key).error
                                   else UnsupportedKeySize(|GetEncryptionKey(key).value|))
    ensures r.Err? ==> r.error == MissingKey || r.error.UnsupportedKeySize?
  {
    var k :- GetEncryptionKey(key);
    if UsableKeySize(|k|) then Ok(k) else Err(UnsupportedKeySize(|k|))
  }

  /**
   * Seal the serialised dictionary under the configured key and a fresh
   * 12-byte nonce, and return both as Base64 text.
   */
  function EncryptCredentials(key: string, aead: Aead, codec: Codec, nonce: Bytes, creds: Credentials)
    : (r: Result<EncryptedCredentials, CipherError>)
    requires |nonce| == NonceSize
    ensures r.Ok? <==> CipherKey(key).Ok?
    ensures r.Err? ==> r.error == CipherKey(key).error
    ensures r.Ok? ==> Decode(r.value.nonce) == Some(nonce)
    ensures r.Ok? ==> Decode(r.value.encryptedData) == Some(aead.seal(CipherKey(key).value, nonce, codec.dump(creds)))
  {
    var k :- CipherKey(key);
    var ciphertext := aead.seal(k, nonce, codec.dump(creds));
    DecodeEncode(ciphertext);
    DecodeEncode(nonce);
    Ok(EncryptedCredentials(Encode(ciphertext), Encode(nonce)))
  }

  /** Decode both fields, open the ciphertext and load the dictionary; each step can fail. */
  function DecryptCredentials(key: string, aead: Aead, codec: Codec, enc: EncryptedCredentials)
    : (r: Result<Credentials, CipherError>)
    ensures CipherKey(key).Err? ==> r == Err(CipherKey(key).error)
    ensures CipherKey(key).Ok? && (Decode(enc.encryptedData).None? || Decode(enc.nonce).None?) ==>
      r == Err(MalformedBase64)
    ensures CipherKey(key).Ok? && Decode(enc.encryptedData).Some? && Decode(enc.nonce).Some? ==>
      (var plain := aead.open(CipherKey(key).value, Decode(enc.nonce).value, Decode(enc.encryptedData).value);
       && (plain.None? ==> r == Err(AuthenticationFailed))
       && (plain.Some? && codec.load(plain.value).None? ==> r == Err(MalformedPlaintext))
       && (plain.Some? && codec.load(plain.value).Some? ==> r == Ok(codec.load(plain.value).value)))
    ensures r.Ok? ==>
      && CipherKey(key).Ok? && Decode(enc.encryptedData).Some? && Decode(enc.nonce).Some?
      && var plain := aead.open(CipherKey(key).value, Decode(enc.nonce).value, Decode(enc.encryptedData).value);
         plain.Some? && codec.load(plain.value) == Some(r.value)
  {
    var k :- CipherKey(key);
    match (Decode(enc.encryptedData), Decode(enc.nonce))
    case (Some(ciphertext), Some(nonce)) =>
      (match aead.open(k, nonce, ciphertext)
       case None => Err(AuthenticationFailed)
       case Some(plaintext) =>
         match codec.load(plaintext)
         case None => Err(MalformedPlaintext)
         case Some(creds) => Ok(creds))
    case _ => Err(MalformedBase64)
  }

  /** Whatever was encrypted decrypts to the original dictionary. */
  lemma DecryptEncrypt(key: string, aead: Aead, codec: Codec, nonce: Bytes, creds: Credentials)
    requires SoundAead(aead) && SoundCodec(codec)
    requires |nonce| == NonceSize
    requires EncryptCredentials(key, aead, codec, nonce, creds).Ok?
    ensures DecryptCredentials(key, aead, codec, EncryptCredentials(key, aead, codec, nonce, creds).value) == Ok(creds)
  {
    var k := CipherKey(key).value;
    var plaintext := codec.dump(creds);
    assert aead.open(k, nonce, aead.seal(k, nonce, plaintext)) == Some(plaintext);
  }

  /** A new key for configuration: 32 random bytes, as Base64 text. */
  function GenerateEncryptionKey(random: Bytes): (s: string)
    requires |random| == KeySize
    ensures GetEncryptionKey(s) == Ok(random)
    ensures CipherKey(s) == Ok(random)
  {
    DecodeEncode(random);
    EncodeLength(random);
    Encode(random)
  }

  /**
   * A configured key that is Base64 text is decoded and used as it is, never
   * padded: when it decodes to a length the cipher refuses (a plain-text
   * development key such as "password1234" decodes to nine bytes), every
   * encryption fails.
   */
  lemma Base64KeyIsNotPadded(raw: Bytes, aead: Aead, codec: Codec, nonce: Bytes, creds: Credentials)
    requires |raw| > 0 && !UsableKeySize(|raw|)
    requires |nonce| == NonceSize
    ensures GetEncryptionKey(Encode(raw)) == Ok(raw)
    ensures EncryptCredentials(Encode(raw), aead, codec, nonce, creds) == Err(UnsupportedKeySize(|raw|))
  {
    DecodeEncode(raw);
    EncodeLength(raw);
  }
}
