/** The polling loop of the Android client
    (android/app/src/main/java/pbg/oracle/app/PollingThread.java): every ten
    seconds it reads the encrypted private key, mints an authorization token
    with it, fetches the token supply and stores the body, stamped with the
    time of day, under "result" in the client's key-value store. */
module AppPolling {
  import opened Wrappers
  import opened Bytes
  import opened Http
  import opened Encryption
  import opened SecureStorage
  import AuthToken
  import Cbor
  import AndroidAuthToken

  const SUPPLY_URL: string := "https://api.token.pbg.io/token/supply"
  const SLEEP_MILLIS: nat := 10000
  /** The store key whose encrypted value is the Base64 private key. */
  const PRIVATE_KEY: string := "privateKey"
  const RESULT_KEY: string := "result"
  /** The message of the exception `android.util.Base64.decode` throws. */
  const BAD_BASE64: string := "bad base-64"

  /** What stays the same from round to round: the primitives of
      `EncryptionUtils`, `android.util.Base64.decode` (None when it throws),
      the Ed25519 signer `getSignature` (None when it throws) and the device
      id. */
  datatype Device = Device(
    platform: Platform,
    base64Decode: string -> Option<seq<byte>>,
    sign: (seq<byte>, seq<byte>) -> Option<seq<byte>>,
    deviceId: int)

  ghost predicate ValidDevice(d: Device) {
    AndroidAuthToken.IsInt32(d.deviceId) && AndroidAuthToken.SignerFitsArrays(d.sign)
  }

  /** What one pass of `run` meets: whether opening the connection throws,
      the key the keystore would generate, the clock and random draw of the
      token, the server's answer to each Authorization header, the clock
      `now()` reads, and whether `Thread.sleep` throws. */
  datatype Round = Round(
    connect: Option<Failure>,
    generated: SecretKey,
    timestamp: int,
    random: int,
    respond: string -> Exchange,
    clock: Time,
    sleepThrows: bool)

  predicate ValidRound(r: Round) {
    AndroidAuthToken.IsInt64(r.timestamp) && 0 <= r.random < 1000 && ValidTime(r.clock)
  }

  /** `getHTTP` once the key text is read: (body, Authorization header sent).
      A key that does not decode is an exception; an empty key sends no
      request and leaves the body empty. */
  function Authorized(d: Device, r: Round, keyText: string): (string, Option<string>)
    requires ValidDevice(d) && ValidRound(r)
  {
    match d.base64Decode(keyText)
    case None => (FailureText(Other(BAD_BASE64)), None)
    case Some(key) =>
      if |key| == 0 then ("", None)
      else
        var token := AndroidAuthToken.CreateAuthToken(d.sign, key, d.deviceId, r.timestamp, r.random);
        (Body(r.respond(token)), Some(token))
  }

  /** `getHTTP(url)` as a function of the store, the keystore entries and
      the round: (body, Authorization header sent, keystore entries after). */
  function GetHttpSpec(d: Device, prefs: map<string, string>, keys: map<string, SecretKey>,
                       available: bool, r: Round): (string, Option<string>, map<string, SecretKey>)
    requires ValidDevice(d) && ValidRound(r)
  {
    if r.connect.Some? then (FailureText(r.connect.value), None, keys)
    else
      var (keyText, after) := ReadEncrypted(d.platform, prefs, keys, available, r.generated, PRIVATE_KEY);
      var (body, header) := Authorized(d, r, keyText);
      (body, header, after)
  }

  /** An empty key means no request and an empty body. A non-empty key
      sends a request whose Authorization header is the minted token, even
      when minting failed and the token is ""; otherwise the header reads
      back as the CBOR message [nonce, deviceId], the signature over it and
      a nonce in the second after the timestamp (barring `long` overflow). */
  lemma AuthorizationHeader(d: Device, r: Round, keyText: string)
    requires ValidDevice(d) && ValidRound(r)
    ensures var (body, header) := Authorized(d, r, keyText);
      && (d.base64Decode(keyText) == Some([]) ==> body == "" && header == None)
      && (header.Some? <==> d.base64Decode(keyText).Some? && d.base64Decode(keyText).value != [])
      && (header.Some? ==>
            var key := d.base64Decode(keyText).value;
            var nonce := AndroidAuthToken.Nonce(r.timestamp, r.random);
            var message := AuthToken.Message(nonce, d.deviceId);
            && body == Body(r.respond(header.value))
            && (header.value == "" <==> d.sign(message, key).None?)
            && (header.value != "" ==>
                  AuthToken.ParseAuthToken(header.value)
                    == Some(AuthToken.Token(message, Cbor.ByteString(d.sign(message, key).value), nonce, d.deviceId))))
  {
    match d.base64Decode(keyText)
    case None =>
    case Some(key) =>
      if |key| > 0 {
        AndroidAuthToken.CreateAuthTokenParses(d.sign, key, d.deviceId, r.timestamp, r.random);
      }
  }

  /** `getHTTP` reads only the encrypted private-key entry, so writing
      "result" does not change what the next round sends or reads. */
  lemma GetHttpSpecIgnoresResult(d: Device, prefs: map<string, string>, value: string,
                                 keys: map<string, SecretKey>, available: bool, r: Round)
    requires ValidDevice(d) && ValidRound(r)
    ensures GetHttpSpec(d, prefs[RESULT_KEY := value], keys, available, r) == GetHttpSpec(d, prefs, keys, available, r)
  {
    assert EncryptedKey(PRIVATE_KEY) != RESULT_KEY;
  }

  /** `getHTTP(url)`. */
  method GetHttp(storage: Storage, ks: KeyStore, d: Device, r: Round) returns (body: string, header: Option<string>)
    requires ValidDevice(d) && ValidRound(r)
    modifies ks
    ensures ks.available == old(ks.available)
    ensures (body, header, ks.entries) == GetHttpSpec(d, storage.prefs, old(ks.entries), old(ks.available), r)
  {
    if r.connect.Some? {
      return FailureText(r.connect.value), None;
    }
    var keyText := storage.GetEncryptionStorage(ks, d.platform, PRIVATE_KEY, r.generated);
    var key := d.base64Decode(keyText);
    if key.None? {
      return FailureText(Other(BAD_BASE64)), None;
    }
    if |key.value| == 0 {
      return "", None;
    }
    var token := AndroidAuthToken.CreateAuthToken(d.sign, key.value, d.deviceId, r.timestamp, r.random);
    body := ReadExchange(r.respond(token));
    header := Some(token);
  }

  /** The keystore changes at most by the key created under KEY_ALIAS. */
  ghost predicate GrowsAtAlias(before: map<string, SecretKey>, after: map<string, SecretKey>) {
    && (KEY_ALIAS in before ==> after == before)
    && (forall a :: a != KEY_ALIAS ==> (a in after <==> a in before))
    && (forall a :: a != KEY_ALIAS && a in before ==> after[a] == before[a])
  }

  lemma GetHttpSpecGrowsAtAlias(d: Device, prefs: map<string, string>, keys: map<string, SecretKey>,
                                available: bool, r: Round)
    requires ValidDevice(d) && ValidRound(r)
    ensures GrowsAtAlias(keys, GetHttpSpec(d, prefs, keys, available, r).2)
  {
    var (_, _, after) := GetHttpSpec(d, prefs, keys, available, r);
    assert after == keys || after == GetOrCreate(keys, r.generated).1;
  }

  /** Whether a round's `Thread.sleep` throws. */
  const Interrupted := (r: Round) => r.sleepThrows

  /** `run()`, over the rounds the environment provides, at least one of
      which interrupts the sleep. The loop stops right after the first
      interrupted sleep whatever the requests did; "result" then holds the
      last round's body and time only, no other entry is written, and the
      keystore has at most gained the alias key. `keysBefore` is the
      keystore the last round started from; the last body is what
      `getHTTP` computes from it and the unchanged private-key entry. */
  method Run(storage: Storage, ks: KeyStore, d: Device, rounds: seq<Round>)
    returns (iterations: nat, last: string, ghost keysBefore: map<string, SecretKey>)
    requires ValidDevice(d)
    requires forall i :: 0 <= i < |rounds| ==> ValidRound(rounds[i])
    requires true in SleepThrows(rounds, Interrupted)
    modifies storage, ks
    ensures iterations == FirstThrow(SleepThrows(rounds, Interrupted)) + 1
    ensures ValidRound(rounds[iterations - 1])
    ensures storage.prefs == old(storage.prefs)[RESULT_KEY := last + "@" + FormatTime(rounds[iterations - 1].clock)]
    ensures ks.available == old(ks.available)
    ensures GrowsAtAlias(old(ks.entries), keysBefore) && GrowsAtAlias(old(ks.entries), ks.entries)
    ensures last == GetHttpSpec(d, old(storage.prefs), keysBefore, old(ks.available), rounds[iterations - 1]).0
  {
    ghost var flags := SleepThrows(rounds, Interrupted);
    ghost var final := FirstThrow(flags);
    ghost var written := storage.prefs;
    var i := 0;
    while true
      invariant i <= final
      invariant ks.available == old(ks.available)
      invariant GrowsAtAlias(old(ks.entries), ks.entries)
      invariant written == old(storage.prefs) || (RESULT_KEY in written && written == old(storage.prefs)[RESULT_KEY := written[RESULT_KEY]])
      invariant storage.prefs == written
      decreases final - i
    {
      ghost var keys := ks.entries;
      var result, _ := GetHttp(storage, ks, d, rounds[i]);
      GetHttpSpecGrowsAtAlias(d, written, keys, ks.available, rounds[i]);
      if written != old(storage.prefs) {
        GetHttpSpecIgnoresResult(d, old(storage.prefs), written[RESULT_KEY], keys, ks.available, rounds[i]);
      }
      var entry := result + "@" + FormatTime(rounds[i].clock);
      storage.SetStorage(RESULT_KEY, entry);
      written := old(storage.prefs)[RESULT_KEY := entry];
      assert flags[i] == rounds[i].sleepThrows;
      if rounds[i].sleepThrows {
        iterations, last, keysBefore := i + 1, result, keys;
        break;
      }
      assert i != final;
      i := i + 1;
    }
  }
}
