/** `EncryptionUtils` of the Android client
    (android/app/src/main/java/pbg/oracle/app/EncryptionUtils.java).

    Strings are sealed with AES-GCM under a key kept in the Android Keystore
    under one alias, and stored as Base64 (RFC 4648 section 4) of the buffer
    `iv ++ ciphertext`, the IV being 96 bits and the tag 128 bits
    (NIST SP 800-38D section 5.2.1.1). The cipher, UTF-8 and Base64 are the
    platform's: they are the function fields of `Platform`, and the
    properties the code relies on are the predicate `Valid`. Java byte
    arrays are modelled on their bit patterns (`byte`). */
module Encryption {
  import opened Wrappers
  import opened Bytes

  const KEY_ALIAS: string := "OracleKeyAlias"
  const ANDROID_KEYSTORE: string := "AndroidKeyStore"
  const TRANSFORMATION: string := "AES/GCM/NoPadding"
  /** The GCM IV length in bytes. */
  const IV_LENGTH: nat := 12
  /** The GCM tag length in bits. */
  const TAG_BITS: nat := 128
  /** The generated AES key size in bits. */
  const KEY_SIZE: nat := 256

  /** A handle to a key held by the keystore; its bits never leave it. */
  datatype SecretKey = SecretKey(handle: nat)

  /** The exceptions `encrypt` and `decrypt` can throw. */
  datatype Exception =
    | KeyStoreUnavailable   // KeyStore.getInstance / load / key generation failed
    | IllegalBase64         // Base64.getDecoder().decode rejected the text
    | NegativeArraySize     // the decoded buffer is shorter than the IV
    | BadTag                // GCM authentication failed (AEADBadTagException)

  /** The primitives `EncryptionUtils` calls into.
      `seal(key, iv, plain)` is `doFinal` in encrypt mode (ciphertext and tag),
      `open(key, iv, tagBits, sealed)` is `doFinal` in decrypt mode, None when
      the tag does not authenticate. */
  datatype Platform = Platform(
    seal: (SecretKey, seq<byte>, seq<byte>) -> seq<byte>,
    open: (SecretKey, seq<byte>, nat, seq<byte>) -> Option<seq<byte>>,
    utf8Encode: string -> seq<byte>,
    utf8Decode: seq<byte> -> string,
    base64Encode: seq<byte> -> string,
    base64Decode: string -> Option<seq<byte>>)

  /** What the code relies on: AES-GCM opens what it sealed under the same
      key and a 12-byte IV, UTF-8 and Base64 round-trip, and the empty text
      is the Base64 of no bytes. */
  ghost predicate Valid(p: Platform) {
    && (forall k, iv, m :: |iv| == IV_LENGTH ==> p.open(k, iv, TAG_BITS, p.seal(k, iv, m)) == Some(m))
    && (forall s :: p.utf8Decode(p.utf8Encode(s)) == s)
    && (forall b :: p.base64Decode(p.base64Encode(b)) == Some(b))
    && p.base64Decode("") == Some([])
  }

  // ---------------------------------------------------------------------
  // The IV framing

  /** The stored buffer: the IV, then the sealed bytes. */
  function Frame(iv: seq<byte>, sealed: seq<byte>): seq<byte> {
    iv + sealed
  }

  /** `decrypt`'s split: the first 12 bytes are the IV, the rest the sealed
      bytes; a shorter buffer makes `new byte[length - 12]` throw. */
  function Split(combined: seq<byte>): (r: Option<(seq<byte>, seq<byte>)>)
    ensures r.None? <==> |combined| < IV_LENGTH
    ensures r.Some? ==> |r.value.0| == IV_LENGTH && Frame(r.value.0, r.value.1) == combined
  {
    if |combined| < IV_LENGTH then None else Some((combined[..IV_LENGTH], combined[IV_LENGTH..]))
  }

  /** Splitting a framed buffer gives back its IV and sealed bytes. */
  lemma SplitFrame(iv: seq<byte>, sealed: seq<byte>)
    requires |iv| == IV_LENGTH
    ensures |Frame(iv, sealed)| == IV_LENGTH + |sealed|
    ensures Split(Frame(iv, sealed)) == Some((iv, sealed))
  {
    assert Frame(iv, sealed)[..IV_LENGTH] == iv;
    assert Frame(iv, sealed)[IV_LENGTH..] == sealed;
  }

  /** `System.arraycopy` between two distinct arrays. */
  method ArrayCopy(src: array<byte>, srcPos: nat, dest: array<byte>, destPos: nat, length: nat)
    requires src != dest
    requires srcPos + length <= src.Length && destPos + length <= dest.Length
    modifies dest
    ensures dest[..] == old(dest[..destPos]) + src[srcPos..srcPos + length] + old(dest[destPos + length..])
  {
    for k := 0 to length
      invariant dest[..destPos] == old(dest[..destPos])
      invariant dest[destPos..destPos + k] == src[srcPos..srcPos + k]
      invariant dest[destPos + k..] == old(dest[destPos + k..])
    {
      dest[destPos + k] := src[srcPos + k];
      assert dest[destPos..destPos + k + 1] == dest[destPos..destPos + k] + [dest[destPos + k]];
      assert src[srcPos..srcPos + k + 1] == src[srcPos..srcPos + k] + [src[srcPos + k]];
    }
    assert dest[..] == dest[..destPos] + dest[destPos..destPos + length] + dest[destPos + length..];
  }

  /** A fresh array holding the bytes of s. */
  method ToArray(s: seq<byte>) returns (a: array<byte>)
    ensures fresh(a) && a[..] == s
  {
    a := new byte[|s|](i requires 0 <= i < |s| => s[i]);
  }

  /** `encrypt`'s buffer: a new array of |iv| + |sealed| bytes, the IV copied
      to the front and the sealed bytes after it. */
  method FrameBuffer(iv: seq<byte>, sealed: seq<byte>) returns (combined: array<byte>)
    ensures fresh(combined) && combined[..] == Frame(iv, sealed)
  {
    var ivArray := ToArray(iv);
    var sealedArray := ToArray(sealed);
    combined := new byte[ivArray.Length + sealedArray.Length];
    ArrayCopy(ivArray, 0, combined, 0, ivArray.Length);
    ArrayCopy(sealedArray, 0, combined, ivArray.Length, sealedArray.Length);
    assert combined[..ivArray.Length] == iv;
  }

  /** `decrypt`'s buffers: the IV array of 12 bytes and the array of the
      remaining bytes, or the exception `new byte[length - 12]` throws. */
  method SplitBuffer(combined: array<byte>) returns (r: Result<(array<byte>, array<byte>), Exception>)
    ensures Split(combined[..]).None? ==> r == Failure(NegativeArraySize)
    ensures Split(combined[..]).Some? ==>
      && r.Success? && fresh(r.value.0) && fresh(r.value.1)
      && (r.value.0[..], r.value.1[..]) == Split(combined[..]).value
  {
    if combined.Length < IV_LENGTH {
      return Failure(NegativeArraySize);
    }
    var iv := new byte[IV_LENGTH];
    var sealed := new byte[combined.Length - IV_LENGTH];
    ArrayCopy(combined, 0, iv, 0, IV_LENGTH);
    ArrayCopy(combined, IV_LENGTH, sealed, 0, sealed.Length);
    assert iv[..] == combined[..][..IV_LENGTH];
    assert sealed[..] == combined[..][IV_LENGTH..];
    return Success((iv, sealed));
  }

  // ---------------------------------------------------------------------
  // The keystore

  /** `getSecretKey` on the alias entries: the key under KEY_ALIAS if there
      is one, otherwise `generated`, which is then stored under it. */
  function GetOrCreate(entries: map<string, SecretKey>, generated: SecretKey): (r: (SecretKey, map<string, SecretKey>))
    ensures KEY_ALIAS in r.1 && r.1[KEY_ALIAS] == r.0
    ensures KEY_ALIAS in entries ==> r.0 == entries[KEY_ALIAS] && r.1 == entries
    ensures KEY_ALIAS !in entries ==> r.0 == generated
    ensures forall a :: a != KEY_ALIAS ==> (a in r.1 <==> a in entries)
    ensures forall a :: a != KEY_ALIAS && a in entries ==> r.1[a] == entries[a]
  {
    if KEY_ALIAS in entries then (entries[KEY_ALIAS], entries)
    else (generated, entries[KEY_ALIAS := generated])
  }

  /** After the first call, every later call returns the same key and
      changes nothing, whatever key the generator would have produced. */
  lemma GetOrCreateStable(entries: map<string, SecretKey>, first: SecretKey, later: SecretKey)
    ensures var (key, after) := GetOrCreate(entries, first);
      GetOrCreate(after, later) == (key, after)
  {
  }

  /** The Android Keystore as `EncryptionUtils` sees it: alias entries, and
      whether it can be opened at all. */
  class KeyStore {
    var entries: map<string, SecretKey>
    var available: bool

    constructor (entries: map<string, SecretKey>, available: bool)
      ensures this.entries == entries && this.available == available
    {
      this.entries := entries;
      this.available := available;
    }

    /** `getSecretKey`: load the keystore, return the alias key, or generate
        one (`generated`) and keep it under the alias. */
    method GetSecretKey(generated: SecretKey) returns (r: Result<SecretKey, Exception>)
      modifies this
      ensures available == old(available)
      ensures !available ==> r == Failure(KeyStoreUnavailable) && entries == old(entries)
      ensures available ==> (r.Success? && (r.value, entries) == GetOrCreate(old(entries), generated))
    {
      if !available {
        return Failure(KeyStoreUnavailable);
      }
      if KEY_ALIAS in entries {
        return Success(entries[KEY_ALIAS]);
      }
      entries := entries[KEY_ALIAS := generated];
      return Success(generated);
    }
  }

  // ---------------------------------------------------------------------
  // encrypt / decrypt

  /** What `encrypt(plainText)` returns and the keystore entries after it,
      with `iv` the IV the cipher chose. */
  function EncryptSpec(p: Platform, entries: map<string, SecretKey>, available: bool,
                       generated: SecretKey, iv: seq<byte>, plainText: string)
    : (Result<string, Exception>, map<string, SecretKey>)
  {
    if !available then (Failure(KeyStoreUnavailable), entries)
    else
      var (key, after) := GetOrCreate(entries, generated);
      (Success(p.base64Encode(Frame(iv, p.seal(key, iv, p.utf8Encode(plainText))))), after)
  }

  /** What `decrypt(text)` returns and the keystore entries after it. The
      text is decoded and split before the key is fetched, so a malformed
      text never creates a key. */
  function DecryptSpec(p: Platform, entries: map<string, SecretKey>, available: bool,
                       generated: SecretKey, text: string)
    : (Result<string, Exception>, map<string, SecretKey>)
  {
    match p.base64Decode(text)
    case None => (Failure(IllegalBase64), entries)
    case Some(combined) =>
      match Split(combined)
      case None => (Failure(NegativeArraySize), entries)
      case Some((iv, sealed)) =>
        if !available then (Failure(KeyStoreUnavailable), entries)
        else
          var (key, after) := GetOrCreate(entries, generated);
          match p.open(key, iv, TAG_BITS, sealed)
          case None => (Failure(BadTag), after)
          case Some(plain) => (Success(p.utf8Decode(plain)), after)
  }

  /** `encrypt(plainText)`. */
  method Encrypt(ks: KeyStore, p: Platform, plainText: string, iv: seq<byte>, generated: SecretKey)
    returns (r: Result<string, Exception>)
    modifies ks
    ensures ks.available == old(ks.available)
    ensures (r, ks.entries) == EncryptSpec(p, old(ks.entries), old(ks.available), generated, iv, plainText)
  {
    var key := ks.GetSecretKey(generated);
    if key.Failure? {
      return Failure(key.error);
    }
    var sealed := p.seal(key.value, iv, p.utf8Encode(plainText));
    var combined := FrameBuffer(iv, sealed);
    return Success(p.base64Encode(combined[..]));
  }

  /** `decrypt(text)`. */
  method Decrypt(ks: KeyStore, p: Platform, text: string, generated: SecretKey)
    returns (r: Result<string, Exception>)
    modifies ks
    ensures ks.available == old(ks.available)
    ensures (r, ks.entries) == DecryptSpec(p, old(ks.entries), old(ks.available), generated, text)
  {
    var decoded := p.base64Decode(text);
    if decoded.None? {
      return Failure(IllegalBase64);
    }
    var combined := ToArray(decoded.value);
    var parts := SplitBuffer(combined);
    if parts.Failure? {
      return Failure(parts.error);
    }
    var (iv, sealed) := parts.value;
    var key := ks.GetSecretKey(generated);
    if key.Failure? {
      return Failure(key.error);
    }
    var plain := p.open(key.value, iv[..], TAG_BITS, sealed[..]);
    if plain.None? {
      return Failure(BadTag);
    }
    return Success(p.utf8Decode(plain.value));
  }

  /** `decrypt(encrypt(s)) == s` with the same stored key: once `encrypt`
      has created or found the key, `decrypt` finds it again, splits off the
      IV the cipher chose and opens the sealed bytes; the keystore is left as
      `encrypt` left it. */
  lemma DecryptEncrypt(p: Platform, entries: map<string, SecretKey>, first: SecretKey, later: SecretKey,
                       iv: seq<byte>, plainText: string)
    requires Valid(p) && |iv| == IV_LENGTH
    ensures var (cipherText, after) := EncryptSpec(p, entries, true, first, iv, plainText);
      && cipherText.Success?
      && DecryptSpec(p, after, true, later, cipherText.value) == (Success(plainText), after)
  {
    var (key, after) := GetOrCreate(entries, first);
    var sealed := p.seal(key, iv, p.utf8Encode(plainText));
    SplitFrame(iv, sealed);
    GetOrCreateStable(entries, first, later);
  }

  /** The empty text (what storage returns for an absent entry) always fails
      to decrypt, and does not touch the keystore. */
  lemma DecryptEmpty(p: Platform, entries: map<string, SecretKey>, available: bool, generated: SecretKey)
    requires p.base64Decode("") == Some([])
    ensures DecryptSpec(p, entries, available, generated, "") == (Failure(NegativeArraySize), entries)
  {
  }
}
