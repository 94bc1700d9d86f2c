# PBG token oracle: a Dafny model of its signing and polling core

The PBG token oracle lets devices held by the token's operators co-sign the
price-feed transactions that the back end of each deployment stage
(Mainnet, Beta, Preprod) proposes. This project models the sequential core
of that system:

- **The two service workers of the web apps** (`src/worker`, `pwa/src/worker`):
  - the authorization token sent with every request (a CBOR message, a
    signature, Base16);
  - the IndexedDB configuration store and its event log;
  - the per-stage API secrets and the Push subscription;
  - the routing of the page's `get`/`set` messages;
  - the Push handlers: heartbeats and the signing of a feed transaction.
    Signing covers the price check `verifyPrices`, the CIP-67/CIP-68
    asset-name mapping, the CIP-26 metadata URL and the mint of a
    real-world-asset (RWA) token;
  - the throttled `sync`.
- **The two Android clients** (`android/src`, `android/app`):
  - the polling loop that stores the token supply, stamped with the time of
    day, in a single "result" slot;
  - the newer client's authorization token;
  - its AES-GCM encrypted key-value store, with the `iv ++ ciphertext`
    framing and the get-or-create keystore key.
- **The derivation of secp256k1 private keys** from an Ed25519 key.
- **The display helpers** `Shorten` and `ExplorerLink`.

## How the model is built

- **Abstract outside world.** Time, randomness, HTTP answers, signatures,
  ciphers, UTF-8, Base64 and chain queries are parameters or function-valued
  fields of small datatypes: `Signer`, `Remote`, `Platform`, `Chain`, `Pwa`,
  `Worker` and `Ledger`.
- **Assumptions.** Where a property needs something from a primitive (AES-GCM
  opens what it sealed, Base64 decodes what it encoded), the assumption is a
  predicate in the lemma's `requires`.
- **Exceptions.** A thrown exception becomes a `Failure`, and an `undefined`
  result becomes `None`.
- **Effects.** The effects of a worker handler are its list of `Effect`s, in
  order: a signature upload, an event append, a notification. Whether
  `showNotification` rejects is an input, and a rejected notification leads
  into the `catch` blocks that follow it.
- **Stateful code.** Code that updates state in place is a class:
  - the IndexedDB store is `WorkerDb.Database`;
  - the SharedPreferences stores are `SecureStorage.Storage` and
    `ResultStorage.Storage`;
  - the Android Keystore is `Encryption.KeyStore`;
  - the price record that `verifyPrices` fills is `FeedEvents.PriceRecord`.

  Each method is proved against a pure specification function. The
  properties are then lemmas about that function.
- **Loops.** Loops in the source are loops here, each with its invariants:
  - `bytesToHex`;
  - the `readLine` loop;
  - the `run` loops;
  - `formatPrices`;
  - `isAuthorized`;
  - the `verifyPrices` loops;
  - `System.arraycopy`.
- **Untyped JavaScript values.** The values the workers pass around untyped
  are `Js.Value`. It comes with truthiness, `== ""`, `??`, optional property
  access and template-literal text.

## Model

| member | source | states |
|---|---|---|
| AuthToken.Nonce | src/worker/Secrets.ts:34 | the nonce lies in [now, now + 999] for any random draw in [0, 1) |
| AuthToken.CreateAuthToken | src/worker/Secrets.ts:33-45 | the token is lower-case hex and parses back to: a nonce in [now, now + 999]; the given device id; the message CBOR [nonce, deviceId]; the signature over exactly those message bytes |
| AuthToken.ParseEncodedPayload | src/worker/Secrets.ts:36-42 | hex-decoding and CBOR-decoding the payload [message as byte string, signature] gives back the message bytes, the signature, the nonce and the device id |
| AuthToken.MessageInjective | src/worker/Secrets.ts:36 | distinct (nonce, deviceId) pairs give distinct message bytes |
| Cbor.Int | src/worker/Secrets.ts:36 | `encodeInt` uses major type 0 exactly for non-negative integers, otherwise major type 1 |
| Cbor.IntValueOfInt | src/worker/Secrets.ts:36 | the integer an encoded item denotes is the integer that was encoded |
| Cbor.WellFormedInt | src/worker/Secrets.ts:36 | every 64-bit-range integer has a well-formed encoding (its argument fits a head) |
| Cbor.Head | src/worker/Secrets.ts:36-40 | a head is 1 to 9 bytes and its first byte carries the major type in its top three bits |
| Cbor.DecodeHead | src/worker/Secrets.ts:36-40 | a decoded head has a major type below 8 and consumes at least one byte |
| Cbor.DecodeItem | src/worker/Secrets.ts:36-40 | decoding an item consumes at least one byte |
| Cbor.DecodeItems | src/worker/Secrets.ts:36-40 | decoding `count` array elements yields exactly `count` items |
| Cbor.DecodeHeadOfHead | src/worker/Secrets.ts:36-40 | decoding a head written for (major, argument) gives them back and leaves the rest untouched |
| Cbor.HeadIsShortest | src/worker/Secrets.ts:36-40 | the encoder's head is no longer than any head that decodes to the same major type and argument (the preferred serialization of RFC 8949 section 4.2.1); the decoder, like the library's, also accepts longer heads |
| Cbor.DecodeEncode | src/worker/Secrets.ts:36-40 | decoding an encoded item followed by any bytes gives the item and exactly those bytes |
| Cbor.DecodeEncodeAll | src/worker/Secrets.ts:36-40 | the same for the elements of an array, in order |
| Cbor.DecodeOfEncode | src/worker/Secrets.ts:36-40 | a complete decode of an encoding is the encoded item |
| Cbor.EncodeInjective | src/worker/Secrets.ts:36-40 | distinct well-formed items have distinct encodings |
| Bytes.Unsigned | android/app/src/main/java/pbg/oracle/app/PollingThread.java:116 | a Java byte read unsigned is congruent to it mod 256, and non-negative bytes keep their value |
| Bytes.UnsignedAll | android/app/src/main/java/pbg/oracle/app/PollingThread.java:115-116 | reads a Java byte array unsigned, element by element |
| Bytes.ByteToHex | src/worker/Secrets.ts:42 | a byte becomes two lower-case hex digits |
| Bytes.ToHex | src/worker/Secrets.ts:42 | `bytesToHex` is twice as long as its input |
| Bytes.FromHex | pwa/src/ui/hooks/keys.ts:12 | a decoded byte string is half as long as its hex text |
| Bytes.FromHexToHex | src/worker/Secrets.ts:42 | hex-decoding the hex of any bytes gives them back |
| Bytes.ToHexAt | android/app/src/main/java/pbg/oracle/app/PollingThread.java:115-116 | characters 2i and 2i+1 of the hex are the two digits of byte i, in order |
| Bytes.ToHexIsLowerCase | src/worker/Secrets.ts:42 | the hex uses lower-case digits only |
| Bytes.ToHexAppend | android/app/src/main/java/pbg/oracle/app/PollingThread.java:115-117 | the hex of a concatenation is the concatenation of the hexes |
| Bytes.ToHexInjective | src/worker/Secrets.ts:42 | distinct byte strings have distinct hex |
| Bytes.DecodeIntBESnoc | pwa/src/ui/hooks/keys.ts:12 | appending a byte multiplies the big-endian value by 256 and adds the byte |
| Bytes.DecodeIntBEBound | pwa/src/ui/hooks/keys.ts:12 | a big-endian value of n bytes is below 256^n |
| Bytes.EncodeFixed | src/worker/Secrets.ts:36 | writes a number below 256^width in exactly `width` bytes |
| Bytes.DecodeEncodeFixed | src/worker/Secrets.ts:36 | reading back a fixed-width encoding gives the number |
| Bytes.EncodeIntBE | pwa/src/ui/hooks/keys.ts:15 | `encodeIntBE` writes at least one byte |
| Bytes.DecodeEncodeIntBE | pwa/src/ui/hooks/keys.ts:15 | `decodeIntBE(encodeIntBE(n)) == n`, and the encoding of a positive number has no leading zero byte |
| AndroidAuthToken.WrapInt64 | android/app/src/main/java/pbg/oracle/app/PollingThread.java:93 | Java `long` addition: the result is a 64-bit value congruent to the sum mod 2^64 |
| AndroidAuthToken.WrapInt64OfInt64 | android/app/src/main/java/pbg/oracle/app/PollingThread.java:93 | wrapping leaves a value already in range unchanged |
| AndroidAuthToken.Nonce | android/app/src/main/java/pbg/oracle/app/PollingThread.java:91-93 | the nonce is a `long`, and lies in [t, t + 999] unless the sum overflows |
| AndroidAuthToken.Signed | android/app/src/main/java/pbg/oracle/app/PollingThread.java:107 | the Java byte whose unsigned reading is a given byte |
| AndroidAuthToken.SignedAll | android/app/src/main/java/pbg/oracle/app/PollingThread.java:107 | the Java byte array of an encoded buffer reads back unsigned as that buffer |
| AndroidAuthToken.Format02x | android/app/src/main/java/pbg/oracle/app/PollingThread.java:116 | `String.format("%02x", b)` is two characters |
| AndroidAuthToken.BytesToHex | android/app/src/main/java/pbg/oracle/app/PollingThread.java:113-119 | the loop's output is the lower-case hex of the bytes read unsigned |
| AndroidAuthToken.BytesToHexInvertible | android/app/src/main/java/pbg/oracle/app/PollingThread.java:113-119 | the output has length 2n, and hex-decoding it gives back the original signed bytes |
| AndroidAuthToken.CreateAuthTokenParses | android/app/src/main/java/pbg/oracle/app/PollingThread.java:88-111 | the token is "" exactly when signing throws; otherwise it parses back to the message CBOR [nonce, deviceId], the raw signature as a byte string, the nonce and the device id |
| Http.FailureText | android/app/src/main/java/pbg/oracle/app/PollingThread.java:77-83 | the three exception kinds get the prefixes "Error: Malformed URL - ", "IO Error: " and "Exception: " |
| Http.Selected | android/app/src/main/java/pbg/oracle/app/PollingThread.java:64-68 | a status above 299 reads the error stream, any other status the input stream |
| Http.JoinLinesSnoc | android/app/src/main/java/pbg/oracle/app/PollingThread.java:71-73 | each line read appends the line and "\n" |
| Http.SplitJoinLines | android/app/src/main/java/pbg/oracle/app/PollingThread.java:71-73 | lines without newlines are recovered from the body by splitting at "\n" |
| Http.BodyLines | android/src/pbg/oracle/app/PollingThread.java:58-70 | a read that reaches the end splits back into exactly the lines read; in every case the lines, each followed by "\n", begin the body |
| Http.ReadStream | android/src/pbg/oracle/app/PollingThread.java:58-61 | the `readLine` loop builds the stream's text, stopping at the end or at an exception |
| Http.ReadExchange | android/src/pbg/oracle/app/PollingThread.java:37-73 | `getHTTP` builds the body of the outcome: the selected stream's text, then any exception's text |
| Http.FormatTime | android/src/pbg/oracle/app/PollingThread.java:33-35 | `now()` is "HH:mm:ss": 8 characters, colons at 2 and 5, digits elsewhere |
| Http.ParseTime | android/src/pbg/oracle/app/PollingThread.java:33-35 | a parsed time of day is valid |
| Http.ParseFormatTime | android/src/pbg/oracle/app/PollingThread.java:33-35 | the formatted time reads back as the same time of day |
| Http.FirstThrow | android/src/pbg/oracle/app/PollingThread.java:25-29 | the first round whose sleep throws; no earlier round's sleep threw |
| Http.SleepThrows | android/app/src/main/java/pbg/oracle/app/PollingThread.java:29-33 | which rounds' sleeps throw, in order, one flag per round; both clients' `run` loops (android/src/pbg/oracle/app/PollingThread.java:25-29 as well) stop at the first |
| LegacyPolling.Run | android/src/pbg/oracle/app/PollingThread.java:19-31 | the loop stops right after the first interrupted sleep; "result" then holds that round's `body + "@" + now()` and nothing else changes |
| ResultStorage.Storage.constructor | android/src/pbg/oracle/app/Storage.java:10-12 | a store over the given preferences |
| ResultStorage.Storage.GetResult | android/src/pbg/oracle/app/Storage.java:18-20 | reads "NA" when no result is stored |
| ResultStorage.Storage.SetResult | android/src/pbg/oracle/app/Storage.java:22-24 | overwrites only "result", which then reads back as the new value |
| Encryption.Split | android/app/src/main/java/pbg/oracle/app/EncryptionUtils.java:40-44 | a buffer shorter than 12 bytes cannot be split; otherwise the first 12 bytes are the IV, and IV ++ rest is the buffer |
| Encryption.SplitFrame | android/app/src/main/java/pbg/oracle/app/EncryptionUtils.java:29-44 | splitting `iv ++ ciphertext` with a 12-byte IV gives back (iv, ciphertext) |
| Encryption.ArrayCopy | android/app/src/main/java/pbg/oracle/app/EncryptionUtils.java:30 | `System.arraycopy` changes exactly the target range, which becomes the source range |
| Encryption.ToArray | android/app/src/main/java/pbg/oracle/app/EncryptionUtils.java:26-27 | a fresh array holding the bytes |
| Encryption.FrameBuffer | android/app/src/main/java/pbg/oracle/app/EncryptionUtils.java:29-31 | the combined buffer is fresh and holds `iv ++ ciphertext` |
| Encryption.SplitBuffer | android/app/src/main/java/pbg/oracle/app/EncryptionUtils.java:40-44 | a buffer shorter than 12 bytes throws (negative array size); otherwise two fresh arrays hold the IV and the ciphertext |
| Encryption.GetOrCreate | android/app/src/main/java/pbg/oracle/app/EncryptionUtils.java:56-78 | returns the key under the alias if present, else the generated key stored under the alias; other aliases are untouched |
| Encryption.GetOrCreateStable | android/app/src/main/java/pbg/oracle/app/EncryptionUtils.java:61-63 | after the first call, every later call returns the same key and changes nothing |
| Encryption.KeyStore.constructor | android/app/src/main/java/pbg/oracle/app/EncryptionUtils.java:57-58 | a keystore with the given entries |
| Encryption.KeyStore.GetSecretKey | android/app/src/main/java/pbg/oracle/app/EncryptionUtils.java:56-78 | an unavailable keystore throws and changes nothing; otherwise get-or-create on the alias |
| Encryption.Encrypt | android/app/src/main/java/pbg/oracle/app/EncryptionUtils.java:21-34 | the result and the keystore afterwards are those of the specification: Base64 of `iv ++ seal(key, iv, utf8(text))` |
| Encryption.Decrypt | android/app/src/main/java/pbg/oracle/app/EncryptionUtils.java:37-53 | the result and the keystore afterwards are those of the specification: split, open with the 128-bit tag, UTF-8 decode |
| Encryption.DecryptEncrypt | android/app/src/main/java/pbg/oracle/app/EncryptionUtils.java:21-53 | if AES-GCM opens what it sealed and Base64/UTF-8 round-trip, decrypting an encryption gives back the text under the same stored key |
| Encryption.DecryptEmpty | android/app/src/main/java/pbg/oracle/app/EncryptionUtils.java:41 | decrypting "" throws (negative array size) and leaves the keystore unchanged |
| SecureStorage.EncryptedKey | android/app/src/main/java/pbg/oracle/app/Storage.java:33 | the encrypted entry's key is the plain key followed by "_encryption" |
| SecureStorage.EncryptedKeyDistinct | android/app/src/main/java/pbg/oracle/app/Storage.java:33 | the encrypted key of k is never k itself, and different keys have different encrypted keys |
| SecureStorage.Storage.constructor | android/app/src/main/java/pbg/oracle/app/Storage.java:10-12 | a store over the given preferences |
| SecureStorage.Storage.GetStorage | android/app/src/main/java/pbg/oracle/app/Storage.java:22-24 | a missing key reads as "N/A" |
| SecureStorage.Storage.SetStorage | android/app/src/main/java/pbg/oracle/app/Storage.java:18-20 | the key then reads back as the data, and no other key changes |
| SecureStorage.Storage.ClearStorage | android/app/src/main/java/pbg/oracle/app/Storage.java:26-28 | the key then reads "N/A", and no other key changes |
| SecureStorage.Storage.SetEncryptionStorage | android/app/src/main/java/pbg/oracle/app/Storage.java:30-37 | the preferences and the keystore afterwards are those of the write specification |
| SecureStorage.Storage.GetEncryptionStorage | android/app/src/main/java/pbg/oracle/app/Storage.java:39-46 | the value and the keystore afterwards are those of the read specification |
| SecureStorage.WriteEncryptedFrame | android/app/src/main/java/pbg/oracle/app/Storage.java:30-37 | an encrypted write changes at most the `key + "_encryption"` entry; the plain entry `key` is untouched |
| SecureStorage.WriteEncryptedFailure | android/app/src/main/java/pbg/oracle/app/Storage.java:35-36 | when encryption throws (no keystore), the store and the keystore are unchanged |
| SecureStorage.ReadEncryptedAbsent | android/app/src/main/java/pbg/oracle/app/Storage.java:41-44 | an absent encrypted entry reads as "N/A" (the empty buffer fails the split) |
| SecureStorage.ReadEncryptedFailure | android/app/src/main/java/pbg/oracle/app/Storage.java:43-45 | any decryption failure reads as "N/A" |
| SecureStorage.EncryptionStorageRoundTrip | android/app/src/main/java/pbg/oracle/app/Storage.java:30-46 | under the AES-GCM and codec assumptions, reading an encrypted entry after writing it gives back the data |
| AppPolling.AuthorizationHeader | android/app/src/main/java/pbg/oracle/app/PollingThread.java:48-55 | an empty decoded key sends no request and leaves the body ""; a request is sent iff the key decodes to non-empty bytes, with the minted token as Authorization header, which is "" iff signing throws and otherwise parses back to the message [nonce, deviceId] and its signature |
| AppPolling.GetHttpSpecIgnoresResult | android/app/src/main/java/pbg/oracle/app/PollingThread.java:27 | writing the "result" slot does not change what later requests send or receive |
| AppPolling.GetHttp | android/app/src/main/java/pbg/oracle/app/PollingThread.java:41-86 | the body, the header and the keystore afterwards are those of the request specification |
| AppPolling.GetHttpSpecGrowsAtAlias | android/app/src/main/java/pbg/oracle/app/PollingThread.java:48 | a request only ever adds the key alias to the keystore, and never replaces a stored key |
| AppPolling.Run | android/app/src/main/java/pbg/oracle/app/PollingThread.java:23-35 | the loop stops right after the first interrupted sleep, whatever the requests did; "result" then holds that round's `body + "@" + now()`, nothing else in the store changes, and the keystore only gains the alias |
| Keys.DeriveSecp256k1PrivateKey | pwa/src/ui/hooks/keys.ts:10-16 | defined exactly on hex input |
| Keys.DeriveReduces | pwa/src/ui/hooks/keys.ts:10-16 | the derived scalar, read big-endian, is the input's big-endian value mod n, so it is below n; an input below n keeps its value |
| Keys.SchnorrIsECDSA | pwa/src/ui/hooks/keys.ts:18-24 | the Schnorr and ECDSA private keys are the same reduction, defined exactly on hex input |
| Keys.DerivePublicKey | pwa/src/ui/hooks/keys.ts:28-44 | a public key is defined exactly on hex input |
| Keys.CongruentKeysAgree | pwa/src/ui/hooks/keys.ts:28-44 | inputs congruent mod n give the same private scalar and the same public keys |
| Stages.StageName.Name | src/worker/stages.ts:1 | every stage has a non-empty name |
| Stages.StageNamesComplete | src/worker/stages.ts:8 | `STAGE_NAMES` lists every stage once, in the order Mainnet, Preprod, Beta |
| Stages.ParseStage | src/worker/stages.ts:10-12 | a string parses to the stage of that name, or to nothing when no stage has it |
| Stages.IsValidStageNameIff | src/worker/stages.ts:10-12 | a name is valid iff it is "Mainnet", "Preprod" or "Beta"; every stage's name parses back to it |
| Stages.AssertValidStageName | src/worker/stages.ts:14-18 | fails with `unrecognized stage '<s>'` iff the name is invalid, and otherwise yields that stage |
| Stages.Config | src/worker/stages.ts:20-36 | every stage has an entry, with an https base URL |
| Stages.ConfigNetwork | src/worker/stages.ts:20-36 | only Preprod's validator address is a testnet address |
| WorkerDb.Database.constructor | src/worker/db.ts:32-36 | a database, available or not, with empty stores |
| WorkerDb.Database.GetConfig | src/worker/db.ts:79-89 | the stored value, or the default when the entry is missing, nullish, or the database fails |
| WorkerDb.Database.GetDeviceId | src/worker/db.ts:50-52 | defaults to 0 and is never nullish |
| WorkerDb.Database.GetPrivateKey | src/worker/db.ts:54-56 | defaults to "" and is never nullish |
| WorkerDb.Database.SetConfig | src/worker/db.ts:91-101 | upserts the key; a failure is swallowed and changes nothing; a non-nullish value reads back and every other key reads as before |
| WorkerDb.Database.SetDeviceId | src/worker/db.ts:71-73 | a stored device id reads back through `getDeviceId` |
| WorkerDb.Database.SetPrivateKey | src/worker/db.ts:75-77 | a stored key reads back through `getPrivateKey` |
| WorkerDb.Database.AppendEvent | src/worker/db.ts:38-48 | adds the event at the end of the log; a failure is swallowed and changes nothing |
| WorkerDb.Database.ListEvents | src/worker/db.ts:59-69 | every event in append order, or [] when the database fails |
| WorkerDb.Database.SetSecrets | src/worker/auth.ts:73 | replaces one stage's secrets and nothing else |
| WorkerAuth.StageSecretsCleared | src/worker/auth.ts:54-78 | a stage's secrets end up `undefined` unless the key is non-empty and the fetch yields a truthy value, which is then stored |
| WorkerAuth.AuthorizeStage | src/worker/auth.ts:54-78 | clears and then conditionally sets this stage's secrets only; a fetch happens iff the key is non-empty |
| WorkerAuth.AuthorizeAllStages | src/worker/auth.ts:43-52 | authorizes Mainnet, Beta and Preprod in that order, and changes nothing but their secrets |
| WorkerAuth.AuthorizedNames | src/worker/auth.ts:80-89 | at most one name per stage listed |
| WorkerAuth.AuthorizedNamesMembers | src/worker/auth.ts:80-89 | a stage is listed iff it is among those checked and its secrets are defined |
| WorkerAuth.IsAuthorized | src/worker/auth.ts:80-89 | the loop returns exactly the stages with defined secrets, in `STAGE_NAMES` order |
| WorkerAuth.IsSubscribed | src/worker/auth.ts:91-93 | any stored text counts as a subscription, even an empty one; undefined and null do not |
| WorkerAuth.PublicKeys | src/worker/auth.ts:167-168 | the two public keys are derived exactly when the private key is a hex string |
| WorkerAuth.Requests | src/worker/auth.ts:170-186 | one subscribe request per stage, in order, all with the same body |
| WorkerAuth.AnyFailedIff | src/worker/auth.ts:170-198 | the failure flag is set iff some stage's request threw or was not ok |
| WorkerAuth.SyncSpec | src/worker/auth.ts:153-208 | a failure has the subscription error and follows a request to every stage; the requests go to no stage or to every stage in order, each carrying the subscription |
| WorkerAuth.SyncSpecOutcome | src/worker/auth.ts:153-208 | no requests when the key is "" (or not hex); otherwise every stage is attempted with the subscription and the primary flag, and the sync throws "subscription failed, ..." iff some stage failed |
| WorkerAuth.SyncSubscription | src/worker/auth.ts:153-208 | the loop's outcome and requests are those of the specification |
| WorkerAuth.CreateSubscription | src/worker/auth.ts:95-113 | a new Push subscription is stored (so the device counts as subscribed) and synced with every stage; a refused subscription changes nothing |
| WorkerAuth.AuthorizeAndSubscribe | src/worker/auth.ts:31-41 | re-authorizes every stage, then creates and syncs a subscription |
| WorkerMessages.RouteOf | src/worker/index.ts:55-116 | "get" or "set" with a known string key routes to it; an unknown key gives `invalid key "<key>"`; another method gives `invalid method "<method>"` |
| WorkerMessages.RoutesAgree | pwa/src/worker/index.ts:56-116 | the two workers route every message alike, except "get lastSync", which only the second answers |
| WorkerMessages.GetReply | src/worker/index.ts:57-90 | every readable key of the two workers gets a success reply and any other name `invalid key "<name>"`; "events" replies with the stored event log |
| WorkerMessages.IsValidSubscription | src/worker/index.ts:187-207 | valid iff the JSON parses, has a truthy endpoint and truthy keys, and is not expired (a non-nullish numeric expirationTime before now) |
| WorkerMessages.Expired | src/worker/index.ts:195 | a nullish expiration never expires; a numeric one expires iff it is before now |
| WorkerMessages.SyncDue | pwa/src/worker/index.ts:145-152 | a sync is due only after the clock has passed the last one |
| SrcWorker.SyncResult | src/worker/index.ts:174-185 | only the re-registration of a stored, valid subscription can fail, and then with the subscription error |
| SrcWorker.Sync | src/worker/index.ts:174-185 | every stage is re-authorized; a valid stored subscription is kept and re-registered, otherwise a new one is created |
| SrcWorker.HandleMessage | src/worker/index.ts:41-121 | getters reply with the stored value and change nothing ("status" replies "active"); routing errors reply with their message; "get sync" re-authorizes every stage and keeps or replaces the subscription as `sync` does, leaving the configuration and the primary flag, and a failure replies "internal error:" + message; setting the device id or the primary flag stores it and leaves secrets and subscription; a new private key re-authorizes every stage and stores the new subscription; the reply comes after |
| SrcWorker.HeartbeatSpec | src/worker/index.ts:130-157 | only a primary device answers, only for a valid stage, and a pong that throws leaves nothing else done; otherwise exactly one "Heartbeat" notification is shown, whose body is the stage alone without a timestamp and, exactly when there is a timestamp, records it and reports the local time and the delay `now - timestamp` |
| SrcWorker.HandlePush | src/worker/index.ts:123-163 | a heartbeat runs the heartbeat branch and records a given timestamp; otherwise a truthy stage signs the feed, with the effects of `signFeed` and its `catch` under the worker's notification outcome and exactly their events stored; any other payload changes nothing |
| SrcFeed.FetchPriceFeed | src/worker/feed.ts:114-149 | undefined for an invalid stage, a status outside [200, 300), a missing or non-string `tx`, or any throw; otherwise the decoded transaction |
| SrcFeed.Attempt | src/worker/feed.ts:50-80 | signing is reached only for a valid stage and a fetched transaction |
| SrcFeed.SignFeedSpec | src/worker/feed.ts:42-100 | the event names the stage and the time and has no message; a signature is uploaded iff the event has no error, and then for the payload's stage; the notification is awaited inside the `try` |
| SrcFeed.TrySignFeed | src/worker/feed.ts:42-80 | the attempt, with its price record filled in place, ends as the specification says |
| SrcFeed.SignFeed | src/worker/feed.ts:42-100 | the effects are the attempt's upload, event and notification and then, when the notification of a signed update is refused, the `catch`'s second event and failure notification; exactly these events are stored, and nothing else changes |
| SrcFeed.HexIsNeverNA | src/worker/feed.ts:85 | the "NA" hash of a failed fetch cannot be mistaken for a transaction hash |
| SrcFeed.SignFeedOutcome | src/worker/feed.ts:42-100 | an event is always appended, with hash = the tx hash hex or "NA"; on failure it carries the error (`unrecognized stage '<s>'`, "unable to fetch Tx from API", ...) and the title depends on the stage's validity; success iff prices verify and signing succeeds, the signature being uploaded before the event is appended |
| FeedTx.StageOf | src/worker/stages.ts:14-18 | an untyped stage value is valid iff it is the string name of a stage, otherwise the `unrecognized stage` error |
| FeedTx.ReadFeed | src/worker/feed.ts:133-144 | a transaction is read iff the status is 2xx, the body is an object with a string `tx` and that decodes; a non-2xx status gives none |
| FeedTx.CheckAndSign | src/worker/feed.ts:54-61 | signs iff the prices verify and the signer succeeds; the price record is the check's |
| FeedTx.AppendedSettled | src/worker/feed.ts:74-98 | a signer appends its event and, exactly when the notification of a signed update is refused inside its `try`, a second event equal to the first with the refusal as its error and no message; without a refusal it ends with its one notification |
| PriceCheck.RecordRow | src/worker/feed.ts:219 | records the row's price under the asset's ticker; in throwing mode, no complaint is collected |
| PriceCheck.RowStep | src/worker/feed.ts:200-239 | complaints and recorded tickers only grow; if nothing was thrown, the row was looked up and its price recorded |
| PriceCheck.VerifyPricesSpec | src/worker/feed.ts:157-163 | no secrets throws "not authorized for stage" before any output is looked at |
| PriceCheck.RowsFoldStuck | src/worker/feed.ts:221-225 | once a row throws, the later rows change nothing |
| PriceCheck.OutputsFoldStuck | src/worker/feed.ts:190-196 | once an output throws, the later outputs change nothing |
| PriceCheck.CheckRow | src/worker/feed.ts:200-239 | one pass of the inner loop: the record and the complaints are those of the step specification |
| PriceCheck.VerifyPrices | pwa/src/worker/feed.ts:814-912 | the outcome and the filled price record are those of the specification |
| PriceCheck.RowsFoldKeysGrow | src/worker/feed.ts:200-239 | the inner loop only adds tickers and complaints |
| PriceCheck.RowRecordedGrows | src/worker/feed.ts:219 | a recorded ticker stays recorded |
| PriceCheck.RowsFoldRecordsEveryRow | src/worker/feed.ts:200-239 | if the inner loop completes, every row's ticker is in the record |
| PriceCheck.OutputsFoldKeysGrow | src/worker/feed.ts:189-240 | the outer loop only adds tickers and complaints |
| PriceCheck.OutputsFoldChecksEveryOutput | src/worker/feed.ts:189-240 | if the outer loop completes, every output at the stage's validator address had an inline list of rows, all recorded |
| PriceCheck.SuccessChecksEverything | src/worker/feed.ts:152-241 | success implies the secrets were present, the record only grew, and every output at the validator had all its rows recorded |
| PriceCheck.RowStepAgree | pwa/src/worker/feed.ts:880-903 | one row: collecting mode agrees with throwing mode up to the first complaint |
| PriceCheck.RowsFoldAgree | pwa/src/worker/feed.ts:856-904 | the inner loop: the two modes agree up to the first complaint |
| PriceCheck.OutputStepAgree | pwa/src/worker/feed.ts:845-905 | one output: the two modes agree |
| PriceCheck.OutputsFoldAgree | pwa/src/worker/feed.ts:845-905 | the outer loop: the two modes agree |
| PriceCheck.CollectingAgreesWithThrowing | pwa/src/worker/feed.ts:907-911 | under one environment, the collecting mode succeeds iff the throwing mode does, with the same record; the throwing mode collects nothing, and what it throws is the first complaint the collecting mode collected, or what that mode threw too |
| FeedEvents.AssignSpec | src/worker/feed.ts:219 | `prices[name] = price` makes the name read as the price, leaves other names alone, keeps the insertion order and appends a new name |
| FeedEvents.PriceRecord.constructor | src/worker/feed.ts:48 | an empty record |
| FeedEvents.PriceRecord.Set | pwa/src/worker/feed.ts:878 | the record becomes the assignment of the name |
| FeedEvents.FormatPrices | pwa/src/worker/FeedEvent.ts:10-22 | the loop's text is the specification's |
| FeedEvents.JoinEndsWithLast | pwa/src/worker/FeedEvent.ts:20 | a join ends with its last part |
| FeedEvents.PricesTextShape | pwa/src/worker/FeedEvent.ts:10-22 | never empty; "empty groups" iff the record is empty; otherwise one `<key>/ADA=...` part per key, in key order, joined with ", " |
| Cardano.LabelPrefix | src/worker/feed.ts:248-253 | a CIP-67 label is a 4-byte prefix with zero high and low nibbles |
| Cardano.PrefixesAreCip67Labels | src/worker/feed.ts:248-253 | `0014df10` is label 333 and `000643b0` is label 100 |
| Cardano.MetadataTokenName | src/worker/feed.ts:248-254 | the metadata name starts with `000643b0` |
| Cardano.MetadataTokenNameMapping | src/worker/feed.ts:248-254 | `0014df10 ++ s` maps to `000643b0 ++ s`, of equal length, no longer a reference name, injectively |
| Cardano.RWAMetadataAssetClass | pwa/src/worker/feed.ts:1076-1081 | same policy; token name `000643b0` followed by the UTF-8 ticker |
| Cardano.RWAMetadataIsCip68 | pwa/src/worker/feed.ts:1076-1081 | for a reference token whose ticker decodes cleanly, this is the CIP-68 metadata asset class |
| Cardano.RemoveFirst | src/worker/feed.ts:343 | `replace(".", "")` removes one character when present and otherwise changes nothing |
| Cardano.RemoveFirstAfter | src/worker/feed.ts:343 | only the first "." is removed |
| Cardano.NetworkOf | src/worker/feed.ts:158-159 | the network is "preprod" exactly for Preprod |
| Cardano.Cip26UrlSubject | src/worker/feed.ts:337-343 | the URL is the network's base URL, "/" and the hex of policy ++ token name |
| Cardano.Cip26Info | src/worker/feed.ts:345-379 | success only for an ok, non-204 answer whose `ticker.value` is a string and `decimals.value` a number, which it returns |
| Cardano.GetAssetClassInfo | src/worker/feed.ts:243-380 | a reference token answers from its CIP-68 metadata datum when that succeeds, else from CIP-26; failure only when CIP-26 fails |
| PwaFeed.Delay | pwa/src/worker/feed.ts:116-125 | a positive server number; else now - timestamp when there is one; else none; negatives clamped to 0 |
| PwaFeed.DelayText | pwa/src/worker/feed.ts:129 | the `, delay=<n>ms` part is omitted exactly when the delay is 0 or missing |
| PwaFeed.HeartbeatSpec | pwa/src/worker/feed.ts:91-132 | only a primary device answers; it throws iff the pong throws or its ok answer is not JSON; the timestamp is recorded iff given; the body is the stage, `, timestamp=<time>` when there is a timestamp, then the delay text of the server's value (from an ok answer) or of the time since the timestamp |
| PwaFeed.Cip68Entry | pwa/src/worker/feed.ts:1109-1118 | fails only with the byte-array error or `<key> entry not found in datum of RWA <ticker>`; a value found is that of an entry whose key decodes to the name |
| PwaFeed.Cip68EntryFirst | pwa/src/worker/feed.ts:1109-1118 | the value of the first entry whose key decodes to the name |
| PwaFeed.Cip68EntryMissing | pwa/src/worker/feed.ts:1109-1118 | no such entry throws `<key> entry not found in datum of RWA <ticker>` |
| PwaFeed.IntEntry | pwa/src/worker/feed.ts:1083-1107 | an integer entry is the first entry of that name |
| PwaFeed.BytesEntry | pwa/src/worker/feed.ts:1083-1107 | a byte-string entry is the first entry of that name |
| PwaFeed.DecodeRWADatum | pwa/src/worker/feed.ts:1083-1107 | no datum throws `not metadata datum for RWA <ticker>`; a decoded datum is a constructor whose first field is a map holding the four entries |
| PwaFeed.NonAdaClasses | pwa/src/worker/feed.ts:570-576 | exactly the minted classes other than ADA |
| PwaFeed.RwaCheck | pwa/src/worker/feed.ts:569-601 | rejects unless exactly one non-ADA class is minted and there are secrets; the ticker is the UTF-8 of the token name after its 4-byte label; reservesAccount has at least 16 bytes |
| PwaFeed.RwaMintSpec | pwa/src/worker/feed.ts:569-685 | succeeds iff the checks pass and signing succeeds; then uploads the signature, records an "RWA minted" event and titles it "signed RWA mint" |
| PwaFeed.PriceUpdateSpec | pwa/src/worker/feed.ts:700-748 | an event is always recorded; upload iff no error iff the prices verify and signing succeeds; titles "updated prices" or "failed to update prices" |
| PwaFeed.FetchPriceFeed | pwa/src/worker/feed.ts:765-796 | an invalid stage throws `invalid stage name <s>`; otherwise the `/feed` answer is read |
| PwaFeed.FetchPriceFeedsAgree | pwa/src/worker/feed.ts:765-796 | the two workers fetch the same transaction; the first's undefined is the second's throw or undefined |
| PwaFeed.HandleSignSpec | pwa/src/worker/feed.ts:140-155 | no tx throws "unable to fetch Tx from API"; nothing minted takes the price-update path, otherwise the RWA-mint path |
| PwaFeed.HandleFeedSpec | pwa/src/worker/feed.ts:73-89 | an invalid stage gives only its failure notification; a recorded heartbeat comes from a heartbeat push and is its timestamp; every run that does something ends with a notification; only a heartbeat on a device that is not primary does nothing |
| PwaFeed.SignedRun | pwa/src/worker/feed.ts:700-748 | after a signing `try` and the `catch` of `handleFeed`: at most one event while notifications are shown; with a refusal a second event only after a signed price update, carrying the refusal; the signature comes right before the first event |
| PwaFeed.HandleFeedOutcome | pwa/src/worker/feed.ts:73-89 | an invalid stage gives only a "<stage> failed" notification; a heartbeat appends no event and notifies at most twice (once more when refused); at most one event while notifications are shown and at most two when they are refused, the second being the first with the refusal as its error; every signature upload is followed by its event |
| PwaFeed.HandleFeed | pwa/src/worker/feed.ts:73-89 | the effects (with the "<stage> failed" of the `catch` after a refused notification), the appended events and the recorded heartbeat are those of the specification; nothing else changes |
| PwaFeed.HandleSign | pwa/src/worker/feed.ts:140-155 | the outcome is the specification's; on success its event is stored and, when a signed price update's notification is refused, the event carrying the refusal; a throw stores nothing |
| PwaFeed.SignPriceUpdate | pwa/src/worker/feed.ts:700-748 | the outcome is the specification's; its event is stored and, when the notification of a signed update is refused, the `catch`'s event carrying the refusal |
| PwaWorker.Sync | pwa/src/worker/index.ts:159-181 | re-authorizes every stage; keeps a valid stored subscription whose sync succeeds, otherwise creates a new one; always records the sync time |
| PwaWorker.SyncEvent | pwa/src/worker/index.ts:145-152 | runs iff more than 300000 ms have passed since the last sync, and then records now, re-authorizes every stage and keeps or replaces the subscription as `sync` does, changing nothing else; otherwise changes nothing |
| PwaWorker.HandleMessage | pwa/src/worker/index.ts:40-123 | as in the first worker, plus "get lastSync"; "get sync" always replies "ok", records the time, re-authorizes every stage and keeps or replaces the subscription as `sync` does |
| PwaWorker.HandlePush | pwa/src/worker/index.ts:125-139 | a payload without a truthy stage changes nothing; otherwise `handleFeed` runs under the worker's notification outcome, with its effects, events and stage heartbeat |
| ShortenText.Shorten | src/ui/components/Shorten.tsx:5-13 | up to 19 characters unchanged; longer becomes the first 7 characters, "...", the last 7 (17 characters); never longer than 19 |
| ShortenText.ShortenIdempotent | src/ui/components/Shorten.tsx:5-13 | shortening twice is shortening once |
| ShortenText.ShortenCollides | src/ui/components/Shorten.tsx:9 | two long values display alike iff they share their first and last 7 characters |
| ExplorerLink.Slice | pwa/src/ui/components/ExplorerLink.tsx:94-98 | `slice` within bounds is the substring |
| ExplorerLink.ShortenTo | pwa/src/ui/components/ExplorerLink.tsx:91-99 | unchanged when it fits; for n >= 3 exactly n characters: head (n-3)/2, "...", tail n-3-head; for n < 3 longer than n, ending in "..." |
| ExplorerLink.ShortenToShape | pwa/src/ui/components/ExplorerLink.tsx:94-98 | the truncated `slice` indices give that shape |
| ExplorerLink.ShortenDefault | pwa/src/ui/components/ExplorerLink.tsx:44 | with the default 13: five characters, "...", five characters |
| ExplorerLink.LinkKey | pwa/src/ui/components/ExplorerLink.tsx:42 | the first own prop, in prop order, whose name is a link key; none iff no prop is |
| ExplorerLink.BaseUrl | pwa/src/ui/components/ExplorerLink.tsx:61-72 | cexplorer.io for Beta and Mainnet, preprod.cexplorer.io for Preprod, and `unhandled stage name <s>` otherwise |
| ExplorerLink.CreateHref | pwa/src/ui/components/ExplorerLink.tsx:56-89 | "" for empty data; tx/policy/address/fingerprint paths under the base URL; pkh and asset through the ledger library; no key throws |
| ExplorerLink.HrefByStage | pwa/src/ui/components/ExplorerLink.tsx:61-72 | Beta links to the same pages as Mainnet, and Preprod to different ones |
| ExplorerLink.Render | pwa/src/ui/components/ExplorerLink.tsx:41-54 | no link prop fails; the target is `createHref`'s; truthy children are the text, and otherwise (absent or empty) the data shortened to `length`, 13 by default |

## Left out

- Network I/O is not modelled. This covers `fetch`, `HttpsURLConnection`, the Push API, Blockfrost, Minswap and the AWS deployment hooks. Their answers are inputs.
- Cryptography is not modelled: Ed25519/BIP32 signing, AES-GCM, the Android Keystore and secp256k1 public-key derivation. Each is an abstract function. Any property it is needed for is an explicit predicate in a `requires`.
- Floating point is not modelled. This covers the price quotient, decimals scaling, the tolerance comparison against the pool, `toFixed`, `toLocaleString` and `toLocaleTimeString`. A price is an opaque value. The pool comparison and the formatted texts are given.
- The clock, `Math.random` and `SecureRandom` are parameters. Each handler reads the clock once, so `Date.now()` calls within one handler share one value.
- Threads, `Thread.sleep` timing, `PollingService` and `AppState` are not modelled. The device id is a plain input.
- `Js.Value`: numbers are integers, so fractional numbers, NaN stored in a value and bigint precision are absent.
  - `ToNumber` does not coerce numeric strings.
  - Object keys keep insertion order, whereas JavaScript lists integer-like keys first.
  - `__proto__` keys are not special.
- `Js.IntToString`, `Js.NatToString`: decimal text only, with no exponent notation for large numbers.
- `WorkerDb.Database`: the database is a single `available` flag. Partial failures within one transaction are not distinguished.
- Storage accessors are plain fields of `WorkerDb.Database`. This covers the stage secrets, the Push subscription, `isPrimary`, `lastSync` and the last heartbeats. The worker imports these accessors, but they are not part of this model's source.
- pwa/src/worker/auth.ts and pwa/src/worker/db.ts are not part of this model. The second worker is modelled with the first worker's `WorkerAuth` and `WorkerDb`.
- `Bytes.FromHex` rejects odd lengths and non-hex characters. The library's `hexToBytes` may be more lenient.
- Cardano: the CIP-68 datum lookup on chain is abstract.
  - This covers `getAssetClassInfo` in pwa/src/worker/feed.ts:915-1052: the "multiple tokens", "multiple utxos" and "multiple addresses" checks.
  - `Cardano.GetAssetClassInfo` states only how that lookup and CIP-26 combine.
  - CIP-26 `decimals` is taken as an integer.
- The pwa signer's helios error messages are placeholders. This covers `expectListData`, `expectIntData` and `convertUplcDataToAssetClass`, and the constants `NOT_BYTES`, `NOT_INT`, `NOT_MAP`, `NOT_CONSTR` and `UNDEFINED`. So is `ExplorerLink.NOT_A_FUNCTION`, the engine message for calling a missing entry of the link table.
- `AppPolling.Run` relates only the last round's body to the store, because each round overwrites the single slot. Earlier rounds' effects on the keystore are stated only as growth at the alias.
- `android.util.Base64.decode` is abstract, so what it makes of the "N/A" default is an input.
- A private key stored as a non-string is not modelled: public keys are derived only from strings.
- A push payload whose JSON does not parse is not modelled. The handlers take the parsed payload, with `{}` for a push without data.
- The commented-out bridge code in pwa/src/worker/feed.ts is not modelled.
- `showNotification`'s icon and badge options are not modelled. Whether it resolves or rejects (and with what message) is one input per handler, so every notification of a handler behaves alike.
- The `install` and `activate` handlers are not modelled, and neither are the `pushsubscriptionchange` handlers. These call `authorizeAndSubscribe` and `createSubscription`, which are modelled as `WorkerAuth.AuthorizeAndSubscribe` and `WorkerAuth.CreateSubscription`.
- `getNotificationsGranted` is an input.
- `ExplorerLink.Render` takes only string props. A non-integer `length` prop is not modelled.
- `ExplorerLink.ShortenTo`: for a bound below 3 the result is longer than the bound. The contract states this as it is.
- `WorkerMessages.IsValidSubscription` works on the already-parsed record; `JSON.parse` is an input.
- `AuthToken.Nonce` takes `Math.random()` as a real number in [0, 1). Its floor scaled by 1000 is the only arithmetic on it.
- `AndroidAuthToken.Nonce` states the [t, t + 999] bound only when `t + 999` does not overflow a Java `long`, because the Java addition wraps.
- `WorkerAuth.PublicKeys` states only when the public keys exist, because the keys themselves come from the abstract curve library.
- `PriceCheck.VerifyPricesSpec` states only the authorization failure directly. The other outcomes are stated by the lemmas `SuccessChecksEverything` and `CollectingAgreesWithThrowing`, and by the fold lemmas.
- The two workers' price checks run under separate environments, and `CollectingAgreesWithThrowing` relates the two modes under one. The real checks also differ in three ways:
  - price scaling: the second worker divides by 10^(6 - decimals) (pwa/src/worker/feed.ts:876), the first uses the on-chain fraction as it is (src/worker/feed.ts:208);
  - tolerance: 1% in the second worker (pwa/src/worker/feed.ts:71), 0.5% in the first (src/worker/feed.ts:234);
  - formatting of the range complaint: `toFixed(6)` in the second (pwa/src/worker/feed.ts:899), `toFixed(decimals)` in the first (src/worker/feed.ts:236).
- `ShortenText.Shorten` and `ExplorerLink.ShortenTo` count characters, where JavaScript counts UTF-16 code units. The two agree on the hex and bech32 text they display.
