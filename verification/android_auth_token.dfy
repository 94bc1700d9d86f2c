/** The Android client's version of the authorization token
    (`createAuthToken` and `bytesToHex` in
    android/app/src/main/java/pbg/oracle/app/PollingThread.java).

    It differs from the worker's token in three ways: the nonce is a Java
    `long` sum, the signature is embedded as a raw CBOR byte string, and any
    exception while minting is swallowed into the empty string. Java byte
    arrays hold signed bytes; the CBOR library and the signer are modelled on
    their bit patterns (`byte`), and `bytesToHex` on the signed values. */
module AndroidAuthToken {
  import opened Wrappers
  import opened Bytes
  import Cbor
  import AuthToken

  const INT64_MIN: int := -0x8000_0000_0000_0000
  const INT64_MAX: int := 0x7fff_ffff_ffff_ffff

  predicate IsInt64(x: int) {
    INT64_MIN <= x <= INT64_MAX
  }

  predicate IsInt32(x: int) {
    -0x8000_0000 <= x <= 0x7fff_ffff
  }

  /** Java `long` arithmetic: the result modulo 2^64, read back as a signed value. */
  function WrapInt64(x: int): (r: int)
    ensures IsInt64(r)
    ensures (r - x) % 0x1_0000_0000_0000_0000 == 0
  {
    var m := (x - INT64_MIN) % 0x1_0000_0000_0000_0000;
    m + INT64_MIN
  }

  lemma WrapInt64OfInt64(x: int)
    requires IsInt64(x)
    ensures WrapInt64(x) == x
  {
  }

  /** `timestamp + random` in `long` arithmetic, with `random` drawn by
      `SecureRandom.nextInt(1000)`. */
  function Nonce(timestamp: int, random: int): (nonce: int)
    requires IsInt64(timestamp) && 0 <= random < 1000
    ensures IsInt64(nonce)
    ensures timestamp <= INT64_MAX - 999 ==> timestamp <= nonce <= timestamp + 999
  {
    WrapInt64(timestamp + random)
  }

  /** The Java byte with the same eight bits as an unsigned byte. */
  function Signed(b: byte): (s: int8)
    ensures Unsigned(s) == b
  {
    if b < 128 then b as int as int8 else (b as int - 256) as int8
  }

  function SignedAll(bs: seq<byte>): (ss: seq<int8>)
    ensures |ss| == |bs|
    ensures UnsignedAll(ss) == bs
  {
    seq(|bs|, i requires 0 <= i < |bs| => Signed(bs[i]))
  }

  /** `String.format("%02x", b)` for a Java byte: the two lower-case hex
      digits of the byte's unsigned value. */
  function Format02x(b: int8): (s: string)
    ensures |s| == 2
  {
    ByteToHex(Unsigned(b))
  }

  /** `bytesToHex`: appends `%02x` of every byte to a StringBuilder. The
      result is the Base16 spelling of the unsigned bytes, so it has two
      characters per byte, is lower-case, and `FromHex` inverts it. */
  method BytesToHex(bytes: array<int8>) returns (s: string)
    ensures s == ToHex(UnsignedAll(bytes[..]))
  {
    s := "";
    for i := 0 to bytes.Length
      invariant s == ToHex(UnsignedAll(bytes[..i]))
    {
      assert UnsignedAll(bytes[..i + 1]) == UnsignedAll(bytes[..i]) + [Unsigned(bytes[i])];
      ToHexAppend(UnsignedAll(bytes[..i]), [Unsigned(bytes[i])]);
      s := s + Format02x(bytes[i]);
    }
    assert bytes[..bytes.Length] == bytes[..];
  }

  /** The output of `bytesToHex` has two characters per byte and decodes back
      to the bits of the input. */
  lemma BytesToHexInvertible(bytes: seq<int8>)
    ensures |ToHex(UnsignedAll(bytes))| == 2 * |bytes|
    ensures FromHex(ToHex(UnsignedAll(bytes))).Some?
    ensures SignedAll(FromHex(ToHex(UnsignedAll(bytes))).value) == bytes
  {
    FromHexToHex(UnsignedAll(bytes));
    var back := SignedAll(UnsignedAll(bytes));
    forall i | 0 <= i < |bytes| ensures back[i] == bytes[i] {
      assert Unsigned(back[i]) == Unsigned(bytes[i]);
    }
  }

  /** Signatures produced by `EncryptionUtils.getSignature` fit in a Java array. */
  ghost predicate SignerFitsArrays(sign: (seq<byte>, seq<byte>) -> Option<seq<byte>>) {
    forall m, k :: sign(m, k).Some? ==> |sign(m, k).value| <= 0x7fff_ffff
  }

  /** `createAuthToken(privateKey, deviceId)`: `sign(message, privateKey)` is
      `EncryptionUtils.getSignature`, None when it throws. The payload is the
      CBOR array [message bytes, signature bytes], both byte strings, then
      `bytesToHex`. A throwing signer yields "" (the catch block). */
  function CreateAuthToken(sign: (seq<byte>, seq<byte>) -> Option<seq<byte>>, privateKey: seq<byte>,
                           deviceId: int, timestamp: int, random: int): (token: string)
    requires IsInt64(timestamp) && 0 <= random < 1000 && IsInt32(deviceId)
    requires SignerFitsArrays(sign)
  {
    var nonce := Nonce(timestamp, random);
    var message := AuthToken.Message(nonce, deviceId);
    match sign(message, privateKey)
    case None => ""
    case Some(signature) =>
      AuthToken.ParseEncodedPayload(nonce, deviceId, Cbor.ByteString(signature));
      var payload := Cbor.Encode(Cbor.Array([Cbor.ByteString(message), Cbor.ByteString(signature)]));
      ToHex(UnsignedAll(SignedAll(payload)))
  }

  /** The token is empty exactly when signing threw; otherwise a receiver
      reads back the message, the raw signature bytes over exactly that
      message, the device id and a nonce within a second after the
      timestamp (barring `long` overflow). */
  lemma CreateAuthTokenParses(sign: (seq<byte>, seq<byte>) -> Option<seq<byte>>, privateKey: seq<byte>,
                              deviceId: int, timestamp: int, random: int)
    requires IsInt64(timestamp) && 0 <= random < 1000 && IsInt32(deviceId)
    requires SignerFitsArrays(sign)
    ensures var nonce := Nonce(timestamp, random);
      var message := AuthToken.Message(nonce, deviceId);
      var token := CreateAuthToken(sign, privateKey, deviceId, timestamp, random);
      && (token == "" <==> sign(message, privateKey).None?)
      && (token != "" ==>
            AuthToken.ParseAuthToken(token)
              == Some(AuthToken.Token(message, Cbor.ByteString(sign(message, privateKey).value), nonce, deviceId)))
  {
    var nonce := Nonce(timestamp, random);
    var message := AuthToken.Message(nonce, deviceId);
    match sign(message, privateKey)
    case None =>
    case Some(signature) =>
      AuthToken.ParseEncodedPayload(nonce, deviceId, Cbor.ByteString(signature));
      var payload := Cbor.Encode(Cbor.Array([Cbor.ByteString(message), Cbor.ByteString(signature)]));
      assert |payload| > 0 by {
        assert payload[..|Cbor.Head(Cbor.ARRAY, 2)|] == Cbor.Head(Cbor.ARRAY, 2);
      }
  }
}
