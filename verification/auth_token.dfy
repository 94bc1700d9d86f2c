/** The authorization token of the service worker (`createAuthToken` in
    src/worker/Secrets.ts) and the way a server reads it back.

    The token is the lower-case Base16 spelling of the CBOR array
    [message as a byte string, signature], where the message is the CBOR
    array [nonce, deviceId] and the signature is made over exactly those
    message bytes. The clock and the random source are parameters; the
    BIP32 signer is an abstract function from message bytes to the CBOR
    item the signing library writes for its signature. */
module AuthToken {
  import opened Wrappers
  import opened Bytes
  import opened Cbor

  /** `Date.now() + Math.floor(Math.random() * 1000)`, with `random` the
      value drawn from [0, 1). */
  function Nonce(now: int, random: real): (nonce: int)
    requires 0.0 <= random < 1.0
    ensures now <= nonce <= now + 999
  {
    now + (random * 1000.0).Floor
  }

  /** The signed message: `encodeTuple([encodeInt(nonce), encodeInt(deviceId)])`. */
  function Message(nonce: int, deviceId: int): seq<byte>
    requires InRange(nonce) && InRange(deviceId)
  {
    WellFormedInt(nonce);
    WellFormedInt(deviceId);
    Encode(Array([Int(nonce), Int(deviceId)]))
  }

  /** What a receiver recovers from a token. */
  datatype Token = Token(message: seq<byte>, signature: Item, nonce: int, deviceId: int)

  /** The receiving side: Base16-decode, read [bytes, signature], then read
      [nonce, deviceId] out of the embedded message bytes. */
  function ParseAuthToken(token: string): Option<Token> {
    match FromHex(token)
    case None => None
    case Some(payload) =>
      match Decode(payload)
      case Some(Array(outer)) =>
        if |outer| == 2 && outer[0].ByteString? then
          var message := outer[0].bytes;
          match Decode(message)
          case Some(Array(inner)) =>
            if |inner| == 2 && IntValue(inner[0]).Some? && IntValue(inner[1]).Some? then
              Some(Token(message, outer[1], IntValue(inner[0]).value, IntValue(inner[1]).value))
            else None
          case _ => None
        else None
      case _ => None
  }

  /** The token carrying `message` and `signature`: Base16 of the CBOR array
      [message as a byte string, signature]. */
  function EncodePayload(message: seq<byte>, signature: Item): string
    requires |message| < MAX_ARG && WellFormed(signature)
  {
    ToHex(Encode(Array([ByteString(message), signature])))
  }

  lemma ParseEncodedPayload(nonce: int, deviceId: int, signature: Item)
    requires InRange(nonce) && InRange(deviceId) && WellFormed(signature)
    ensures |Message(nonce, deviceId)| < MAX_ARG
    ensures ParseAuthToken(EncodePayload(Message(nonce, deviceId), signature))
         == Some(Token(Message(nonce, deviceId), signature, nonce, deviceId))
  {
    WellFormedInt(nonce);
    WellFormedInt(deviceId);
    var inner := Array([Int(nonce), Int(deviceId)]);
    var message := Encode(inner);
    assert |message| < MAX_ARG by {
      assert message == Head(ARRAY, 2) + EncodeAll([Int(nonce), Int(deviceId)]);
      assert EncodeAll([Int(nonce), Int(deviceId)]) == Encode(Int(nonce)) + EncodeAll([Int(deviceId)]);
      assert EncodeAll([Int(deviceId)]) == Encode(Int(deviceId)) + EncodeAll([]);
    }
    var outer := Array([ByteString(message), signature]);
    FromHexToHex(Encode(outer));
    DecodeOfEncode(outer);
    DecodeOfEncode(inner);
    IntValueOfInt(nonce);
    IntValueOfInt(deviceId);
  }

  /** `createAuthToken(privateKey, deviceId)` with the clock reading `now`,
      the random draw `random` and `sign` standing for
      `makeBip32PrivateKey(hexToBytes(privateKey)).sign`. The receiver gets
      back a nonce within a second after `now`, the device id, and a
      signature over exactly the message bytes the token carries. */
  function CreateAuthToken(sign: seq<byte> -> Item, deviceId: int, now: int, random: real): (token: string)
    requires 0.0 <= random < 1.0
    requires InRange(now) && InRange(now + 999) && InRange(deviceId)
    requires forall m :: WellFormed(sign(m))
    ensures forall k :: 0 <= k < |token| ==> IsLowerHexDigit(token[k])
    ensures ParseAuthToken(token).Some?
    ensures var t := ParseAuthToken(token).value;
      && now <= t.nonce <= now + 999
      && t.deviceId == deviceId
      && t.message == Message(t.nonce, deviceId)
      && t.signature == sign(t.message)
  {
    var nonce := Nonce(now, random);
    var message := Message(nonce, deviceId);
    ParseEncodedPayload(nonce, deviceId, sign(message));
    var token := EncodePayload(message, sign(message));
    ToHexIsLowerCase(Encode(Array([ByteString(message), sign(message)])));
    token
  }

  /** Two tokens minted with different nonces or device ids carry different
      messages, so a signature cannot be moved from one to the other. */
  lemma MessageInjective(n1: int, d1: int, n2: int, d2: int)
    requires InRange(n1) && InRange(d1) && InRange(n2) && InRange(d2)
    requires Message(n1, d1) == Message(n2, d2)
    ensures n1 == n2 && d1 == d2
  {
    WellFormedInt(n1);
    WellFormedInt(d1);
    WellFormedInt(n2);
    WellFormedInt(d2);
    EncodeInjective(Array([Int(n1), Int(d1)]), Array([Int(n2), Int(d2)]));
    IntValueOfInt(n1);
    IntValueOfInt(n2);
    IntValueOfInt(d1);
    IntValueOfInt(d2);
  }
}
