/** The Cardano asset logic both feed signers share (src/worker/feed.ts and
    pwa/src/worker/feed.ts): asset classes, the CIP-67 asset-name labels,
    the CIP-68 reference-to-metadata token mapping, the CIP-26 metadata URL
    and `getAssetClassInfo`.

    Chain queries and HTTP requests are not modelled: a `Client` says what
    they return. */
module Cardano {
  import opened Wrappers
  import opened Bytes
  import opened Js
  import opened Stages

  // ---------------------------------------------------------------------
  // CIP-67 labels

  /** One bit of CRC-8 with polynomial x^8 + x^2 + x + 1 (0x07). */
  function CrcBit(c: bv8): bv8 {
    if c & 0x80 != 0 then (c << 1) ^ 0x07 else c << 1
  }

  function CrcByte(c: bv8): bv8 {
    CrcBit(CrcBit(CrcBit(CrcBit(CrcBit(CrcBit(CrcBit(CrcBit(c))))))))
  }

  /** CRC-8 (polynomial 0x07, initial value 0) of a byte string. */
  function Crc8(bs: seq<bv8>): bv8 {
    if bs == [] then 0 else CrcByte(Crc8(bs[..|bs| - 1]) ^ bs[|bs| - 1])
  }

  /** The 4-byte asset-name prefix CIP-67 assigns to a label: a zero
      nibble, the 16-bit label, the CRC-8 of the label's two bytes and a
      zero nibble. */
  function LabelPrefix(n: bv16): (p: seq<byte>)
    ensures |p| == 4 && p[0] < 16 && p[3] % 16 == 0
  {
    var hi: bv8 := (n >> 8) as bv8;
    var lo: bv8 := (n & 0xff) as bv8;
    var crc := Crc8([hi, lo]);
    [(hi >> 4) as int as byte,
     ((hi << 4) | (lo >> 4)) as int as byte,
     ((lo << 4) | (crc >> 4)) as int as byte,
     (crc << 4) as int as byte]
  }

  /** `hexToBytes("0014df10")`: the prefix of a CIP-68 reference (user)
      token name. */
  const REFERENCE_PREFIX: seq<byte> := [0x00, 0x14, 0xdf, 0x10]
  /** `hexToBytes("000643b0")`: the prefix of a CIP-68 metadata token name. */
  const METADATA_PREFIX: seq<byte> := [0x00, 0x06, 0x43, 0xb0]

  /** The two hard-coded prefixes are those of CIP-67 labels 333 and 100. */
  lemma PrefixesAreCip67Labels()
    ensures LabelPrefix(333) == REFERENCE_PREFIX
    ensures LabelPrefix(100) == METADATA_PREFIX
  {
    var one: bv8, x4d: bv8, zero: bv8, x64: bv8 := 0x01, 0x4d, 0x00, 0x64;
    assert [one, x4d][..1] == [one];
    assert Crc8([one]) == CrcByte(one) == 0x07;
    assert Crc8([one, x4d]) == CrcByte(0x07 ^ x4d) == 0xf1;
    assert [zero, x64][..1] == [zero];
    assert Crc8([zero]) == CrcByte(zero) == 0x00;
    assert Crc8([zero, x64]) == CrcByte(x64) == 0x3b;
  }

  // ---------------------------------------------------------------------
  // CIP-68 token names

  datatype AssetClass = AssetClass(mph: seq<byte>, tokenName: seq<byte>)

  /** `ADA`: the empty policy and token name. */
  const ADA: AssetClass := AssetClass([], [])

  /** `s.slice(0, n)`. */
  function Take<T>(s: seq<T>, n: nat): (r: seq<T>)
    ensures r <= s && |r| == if n <= |s| then n else |s|
  {
    if n <= |s| then s[..n] else s
  }

  /** `s.slice(n)`. */
  function Drop<T>(s: seq<T>, n: nat): (r: seq<T>)
    ensures Take(s, n) + r == s
  {
    if n <= |s| then s[n..] else []
  }

  /** `equalsBytes(tokenName.slice(0, 4), hexToBytes("0014df10"))`. */
  predicate HasReferencePrefix(tokenName: seq<byte>) {
    Take(tokenName, 4) == REFERENCE_PREFIX
  }

  /** `hexToBytes("000643b0").concat(tokenName.slice(4))`. */
  function MetadataTokenName(tokenName: seq<byte>): (m: seq<byte>)
    ensures |m| >= 4 && m[..4] == METADATA_PREFIX
  {
    METADATA_PREFIX + Drop(tokenName, 4)
  }

  /** A reference token's metadata token has a name of the same length that
      differs only in its label; it is not itself a reference token, and
      distinct reference tokens have distinct metadata tokens. */
  lemma MetadataTokenNameMapping(t: seq<byte>, u: seq<byte>)
    requires HasReferencePrefix(t) && HasReferencePrefix(u)
    ensures |MetadataTokenName(t)| == |t|
    ensures MetadataTokenName(t)[4..] == t[4..]
    ensures !HasReferencePrefix(MetadataTokenName(t))
    ensures MetadataTokenName(t) == MetadataTokenName(u) ==> t == u
  {
    var m := MetadataTokenName(t);
    assert m[1] != REFERENCE_PREFIX[1];
    if m == MetadataTokenName(u) {
      assert t[4..] == m[4..] == u[4..];
      assert t == t[..4] + t[4..] && u == u[..4] + u[4..];
    }
  }

  /** UTF-8 as the codec library implements it. */
  datatype Utf8 = Utf8(encode: string -> seq<byte>, decode: seq<byte> -> string)

  /** `makeRWAMetadataAssetClass(mph, ticker)`. */
  function RWAMetadataAssetClass(utf8: Utf8, mph: seq<byte>, ticker: string): (ac: AssetClass)
    ensures ac.mph == mph && METADATA_PREFIX <= ac.tokenName
  {
    AssetClass(mph, METADATA_PREFIX + utf8.encode(ticker))
  }

  /** The RWA path rebuilds the metadata token from the ticker decoded out
      of the minted token's name; when that name is a reference token whose
      suffix is well-formed UTF-8, this is exactly the CIP-68 metadata
      token. */
  lemma RWAMetadataIsCip68(utf8: Utf8, ac: AssetClass)
    requires HasReferencePrefix(ac.tokenName)
    requires utf8.encode(utf8.decode(Drop(ac.tokenName, 4))) == Drop(ac.tokenName, 4)
    ensures RWAMetadataAssetClass(utf8, ac.mph, utf8.decode(Drop(ac.tokenName, 4)))
            == AssetClass(ac.mph, MetadataTokenName(ac.tokenName))
  {
  }

  // ---------------------------------------------------------------------
  // CIP-26

  /** `assetClass.toString()`: policy and token name in hex, dot-separated. */
  function AssetClassString(ac: AssetClass): string {
    ToHex(ac.mph) + "." + ToHex(ac.tokenName)
  }

  /** `s.replace(c, "")` for a one-character pattern: the first occurrence
      of `c` removed. */
  function RemoveFirst(s: string, c: char): (r: string)
    ensures c !in s ==> r == s
    ensures |r| == if c in s then |s| - 1 else |s|
  {
    if s == [] then []
    else if s[0] == c then s[1..]
    else [s[0]] + RemoveFirst(s[1..], c)
  }

  lemma {:induction false} RemoveFirstAfter(x: string, y: string, c: char)
    requires c !in x
    ensures RemoveFirst(x + [c] + y, c) == x + y
  {
    if x != [] {
      assert (x + [c] + y)[1..] == x[1..] + [c] + y;
      RemoveFirstAfter(x[1..], y, c);
    }
  }

  /** The network `makeBlockfrostV0Client` is given for a stage. */
  datatype NetworkName = MainnetNetwork | PreprodNetwork

  function NetworkOf(stage: StageName): (net: NetworkName)
    ensures net == PreprodNetwork <==> stage == Preprod
  {
    if stage == Preprod then PreprodNetwork else MainnetNetwork
  }

  const CIP26_MAINNET: string := "https://tokens.cardano.org/metadata"
  const CIP26_TESTNET: string := "https://metadata.world.dev.cardano.org/metadata"

  function Cip26BaseUrl(net: NetworkName): string {
    match net
    case MainnetNetwork => CIP26_MAINNET
    case PreprodNetwork => CIP26_TESTNET
  }

  /** The CIP-26 metadata URL of an asset class. */
  function Cip26Url(net: NetworkName, ac: AssetClass): string {
    Cip26BaseUrl(net) + "/" + RemoveFirst(AssetClassString(ac), '.')
  }

  /** The metadata subject in the URL is the hex of policy and token name
      run together: hex text holds no dot, so removing the first dot removes
      exactly the separator. */
  lemma Cip26UrlSubject(net: NetworkName, ac: AssetClass)
    ensures Cip26Url(net, ac) == Cip26BaseUrl(net) + "/" + ToHex(ac.mph + ac.tokenName)
  {
    var x := ToHex(ac.mph);
    ToHexIsLowerCase(ac.mph);
    assert forall k :: 0 <= k < |x| ==> x[k] != '.';
    assert AssetClassString(ac) == x + ['.'] + ToHex(ac.tokenName);
    RemoveFirstAfter(x, ToHex(ac.tokenName), '.');
    ToHexAppend(ac.mph, ac.tokenName);
  }

  // ---------------------------------------------------------------------
  // getAssetClassInfo

  datatype AssetInfo = AssetInfo(ticker: string, decimals: int)

  /** A CIP-26 request: it throws, or answers with `ok`, a status and a body
      that `response.json()` parses or throws on. */
  datatype Cip26Response =
    | Cip26Threw(message: string)
    | Cip26Answer(ok: bool, status: int, body: Result<Value, string>)

  /** What the chain client and the metadata service answer: the CIP-68
      metadata-token lookup of lines 251-326 of src/worker/feed.ts as one
      abstract query (any error in it falls back to CIP-26), and the CIP-26
      response for each URL. */
  datatype Client = Client(
    network: NetworkName,
    cip68Lookup: AssetClass -> Result<AssetInfo, string>,
    cip26: string -> Cip26Response)

  /** The message V8 gives for reading a property of null. */
  function NullPropertyMessage(key: string): string {
    "Cannot read properties of null (reading '" + key + "')"
  }

  /** The CIP-26 half of `getAssetClassInfo`. */
  function Cip26Info(client: Client, ac: AssetClass): (r: Result<AssetInfo, string>)
    ensures r.Success? ==>
      var answer := client.cip26(Cip26Url(client.network, ac));
      && answer.Cip26Answer? && answer.ok && answer.status != 204 && answer.body.Success?
      && Prop(Prop(answer.body.value, "ticker"), "value") == Str(r.value.ticker)
      && Prop(Prop(answer.body.value, "decimals"), "value") == Num(r.value.decimals)
  {
    var name := AssetClassString(ac);
    match client.cip26(Cip26Url(client.network, ac))
    case Cip26Threw(m) => Failure(m)
    case Cip26Answer(ok, status, body) =>
      if !ok || status == 204 then Failure("Failed to fetch CIP26 metadata for " + name)
      else if body.Failure? then Failure(body.error)
      else
        var obj := body.value;
        if obj.Null? then Failure(NullPropertyMessage("ticker"))
        else
          var ticker := Prop(Prop(obj, "ticker"), "value");
          var decimals := Prop(Prop(obj, "decimals"), "value");
          if IsNullish(ticker) then Failure(name + " CIP26 ticker.value undefined")
          else if IsNullish(decimals) then Failure(name + " CIP26 decimals.value undefined")
          else if !ticker.Str? then Failure(name + " CIP26 ticker.value isn't a string")
          else if !decimals.Num? then Failure(name + " CIP26 decimals.value isn't a number")
          else Success(AssetInfo(ticker.s, decimals.n))
  }

  /** `getAssetClassInfo(cardanoClient, assetClass)`: a reference token is
      described by its CIP-68 metadata token when that lookup succeeds;
      every other asset, and every failed lookup, falls back to the CIP-26
      service, whose failures are the only errors. */
  function GetAssetClassInfo(client: Client, ac: AssetClass): (r: Result<AssetInfo, string>)
    ensures var metadata := AssetClass(ac.mph, MetadataTokenName(ac.tokenName));
      && (HasReferencePrefix(ac.tokenName) && client.cip68Lookup(metadata).Success? ==>
            r == client.cip68Lookup(metadata))
      && (!HasReferencePrefix(ac.tokenName) || client.cip68Lookup(metadata).Failure? ==>
            r == Cip26Info(client, ac))
      && (r.Failure? ==> Cip26Info(client, ac).Failure?)
  {
    var metadata := AssetClass(ac.mph, MetadataTokenName(ac.tokenName));
    if HasReferencePrefix(ac.tokenName) && client.cip68Lookup(metadata).Success? then
      client.cip68Lookup(metadata)
    else
      Cip26Info(client, ac)
  }
}
