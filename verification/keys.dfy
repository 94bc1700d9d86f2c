/** Reduction of a 32-byte Ed25519 private key to a secp256k1 private scalar
    (pwa/src/ui/hooks/keys.ts; src/worker/auth.ts holds an identical copy).
    The key is read as a big-endian integer and reduced modulo the order n of
    the secp256k1 group (SEC 2, version 2, section 2.4.1). The public-key
    derivations of the elliptic-curve library are abstract functions. */
module Keys {
  import opened Wrappers
  import opened Bytes

  /** The order n of the secp256k1 base point. */
  const N: nat := 115792089237316195423570985008687907852837564279074904382605163141518161494337

  /** `deriveSecp256k1PrivateKey(privateKey)`: hex text in, hex text of the
      reduced scalar out; None where `hexToBytes` throws. */
  function DeriveSecp256k1PrivateKey(privateKey: string): (r: Option<string>)
    ensures r.Some? <==> FromHex(privateKey).Some?
  {
    match FromHex(privateKey)
    case None => None
    case Some(bytes) => Some(ToHex(EncodeIntBE(DecodeIntBE(bytes) % N)))
  }

  /** The derived key reads back as the input integer modulo n: it is below
      n and congruent to the input, it is written without leading zero
      bytes, and an input already below n keeps its value. */
  lemma DeriveReduces(privateKey: string)
    requires FromHex(privateKey).Some?
    ensures var derived := DeriveSecp256k1PrivateKey(privateKey).value;
      var input := DecodeIntBE(FromHex(privateKey).value);
      && FromHex(derived).Some?
      && var s := DecodeIntBE(FromHex(derived).value);
      && s == input % N
      && s < N
      && (input < N ==> s == input)
      && (s > 0 ==> FromHex(derived).value[0] != 0)
  {
    var input := DecodeIntBE(FromHex(privateKey).value);
    var s := input % N;
    FromHexToHex(EncodeIntBE(s));
    DecodeEncodeIntBE(s);
  }

  /** `deriveSchnorrPrivateKey`. */
  function DeriveSchnorrPrivateKey(privateKey: string): (r: Option<string>) {
    DeriveSecp256k1PrivateKey(privateKey)
  }

  /** `deriveECDSAPrivateKey`. */
  function DeriveECDSAPrivateKey(privateKey: string): (r: Option<string>) {
    DeriveSecp256k1PrivateKey(privateKey)
  }

  /** Bitcoin's Schnorr key and Ethereum's ECDSA key are the same scalar. */
  lemma SchnorrIsECDSA(privateKey: string)
    ensures DeriveSchnorrPrivateKey(privateKey) == DeriveECDSAPrivateKey(privateKey)
    ensures DeriveSchnorrPrivateKey(privateKey).Some? <==> FromHex(privateKey).Some?
  {
  }

  /** `deriveSchnorrPublicKey` / `deriveECDSAPublicKey`: `derive` is the
      curve library's `derivePublicKey`. */
  function DerivePublicKey(derive: seq<byte> -> seq<byte>, privateKey: string): (r: Option<string>)
    ensures r.Some? <==> FromHex(privateKey).Some?
  {
    match DeriveSecp256k1PrivateKey(privateKey)
    case None => None
    case Some(scalar) =>
      FromHexToHex(EncodeIntBE(DecodeIntBE(FromHex(privateKey).value) % N));
      Some(ToHex(derive(FromHex(scalar).value)))
  }

  /** Keys congruent modulo n derive the same private scalar, hence the same
      public key whatever the curve. */
  lemma {:induction false} CongruentKeysAgree(derive: seq<byte> -> seq<byte>, a: string, b: string)
    requires FromHex(a).Some? && FromHex(b).Some?
    requires DecodeIntBE(FromHex(a).value) % N == DecodeIntBE(FromHex(b).value) % N
    ensures DeriveSecp256k1PrivateKey(a) == DeriveSecp256k1PrivateKey(b)
    ensures DerivePublicKey(derive, a) == DerivePublicKey(derive, b)
  {
  }
}
