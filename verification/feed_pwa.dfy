/** The feed handler of the second worker (pwa/src/worker/feed.ts): a push
    for a stage is either a heartbeat, answered with a pong and a
    notification of the delay, or a request to sign the transaction the
    back end proposes. A transaction that mints nothing is a price update,
    checked with every complaint collected; one that mints is the mint of a
    real-world-asset token, checked against the token's CIP-68 metadata
    datum. */
module PwaFeed {
  import opened Wrappers
  import opened Js
  import opened Stages
  import opened Bytes
  import opened Cardano
  import opened FeedEvents
  import opened PriceCheck
  import opened FeedTx
  import opened WorkerDb
  import SrcFeed

  // ---------------------------------------------------------------------
  // Heartbeat

  /** The answer to `POST <baseUrl>/pong`: the request throws, or it is
      answered, `ok` or not, with a body that `resp.json()` parses or throws
      on. */
  datatype PongResponse =
    | PongThrew(message: string)
    | PongAnswer(ok: bool, json: Result<Value, string>)

  /** The delay `handleHeartbeat` reports, None when it is undefined or NaN:
      the server's value when it is a positive number, else the time since
      the push's timestamp, never negative. */
  function Delay(serverDiff: Value, timestamp: Value, now: int): (d: Option<int>)
    ensures d.Some? ==> d.value >= 0
    ensures serverDiff.Num? && serverDiff.n > 0 ==> d == Some(serverDiff.n)
    ensures !(serverDiff.Num? && serverDiff.n > 0) ==>
              if Truthy(timestamp) && ToNumber(timestamp).Some? then
                d.Some? && (d.value == now - ToNumber(timestamp).value || (d.value == 0 && now < ToNumber(timestamp).value))
              else d.None?
  {
    var diff :=
      if serverDiff.Num? && serverDiff.n > 0 then Some(serverDiff.n)
      else if Truthy(timestamp) then
        (match ToNumber(timestamp)
         case Some(t) => Some(now - t)
         case None => None)
      else None;
    if diff.Some? && diff.value < 0 then Some(0) else diff
  }

  /** The `, delay=<n>ms` part: left out when the delay is 0 or undefined. */
  function DelayText(d: Option<int>): (text: string)
    ensures text == "" <==> d.None? || d.value == 0
    ensures text != "" ==> text == ", delay=" + IntToString(d.value) + "ms"
  {
    if d.Some? && d.value != 0 then ", delay=" + IntToString(d.value) + "ms" else ""
  }

  /** What a heartbeat does when it gets that far: the timestamp recorded for
      the stage (if any) and the body of the "Heartbeat" notification. */
  datatype HeartbeatPlan = HeartbeatPlan(record: Option<Value>, body: string)

  /** What the pwa worker's environment answers. */
  datatype Pwa = Pwa(
    signer: Signer,
    /** `POST <baseUrl>/pong` with the auth token of (private key, device id). */
    pong: (StageName, Value, Value) -> PongResponse,
    /** `${new Date(t).toLocaleTimeString()} ${new Date(t).toLocaleDateString()}`. */
    timeText: Value -> string,
    chain: Chain)

  /** `handleHeartbeat(stage, timestamp)`: nothing unless this device is the
      primary; an error only when the pong request or its body throws. */
  function HeartbeatSpec(pwa: Pwa, isPrimary: Value, stage: StageName, timestamp: Value,
                         privateKey: Value, deviceId: Value, now: int): (r: Result<Option<HeartbeatPlan>, string>)
    ensures !Truthy(isPrimary) ==> r == Success(None)
    ensures Truthy(isPrimary) ==>
              var pong := pwa.pong(stage, privateKey, deviceId);
              (r.Failure? <==> pong.PongThrew? || (pong.ok && pong.json.Failure?))
    ensures r.Success? && r.value.Some? ==>
              && Truthy(isPrimary)
              && (r.value.value.record.Some? <==> Truthy(timestamp))
              && (r.value.value.record.Some? ==> r.value.value.record.value == timestamp)
    ensures r.Success? && r.value.Some? ==>
              var pong := pwa.pong(stage, privateKey, deviceId);
              && pong.PongAnswer?
              && r.value.value.body ==
                   stage.Name()
                   + (if Truthy(timestamp) then ", timestamp=" + pwa.timeText(timestamp) else "")
                   + DelayText(Delay(if pong.ok then pong.json.value else Undefined, timestamp, now))
  {
    if !Truthy(isPrimary) then Success(None)
    else
      match pwa.pong(stage, privateKey, deviceId)
      case PongThrew(m) => Failure(m)
      case PongAnswer(ok, json) =>
        if ok && json.Failure? then Failure(json.error)
        else
          var serverDiff := if ok then json.value else Undefined;
          var d := Delay(serverDiff, timestamp, now);
          var stamp := if Truthy(timestamp) then ", timestamp=" + pwa.timeText(timestamp) else "";
          Success(Some(HeartbeatPlan(if Truthy(timestamp) then Some(timestamp) else None,
                                     stage.Name() + stamp + DelayText(d))))
  }

  // ---------------------------------------------------------------------
  // RWA mints

  /** Plutus data, as found in an inline datum. */
  datatype PlutusData =
    | DConstr(tag: int, fields: seq<PlutusData>)
    | DMap(entries: seq<(PlutusData, PlutusData)>)
    | DList(items: seq<PlutusData>)
    | DInt(value: int)
    | DBytes(bytes: seq<byte>)

  /** The errors of the data library's `expect...Data` checks. */
  const NOT_BYTES: string := "expected ByteArrayData"
  const NOT_INT: string := "expected IntData"
  const NOT_MAP: string := "expected MapData"
  const NOT_CONSTR: string := "expected ConstrData"
  /** The error of the type library's `expectDefined` without a message. */
  const UNDEFINED: string := "unexpected undefined value"

  const TOO_MANY_CLASSES: string := "tried to mint more than 1 asset class"
  const INVALID_RESERVES: string := "invalid reservesAccount hash"

  function EntryNotFound(key: string, ticker: string): string {
    key + " entry not found in datum of RWA " + ticker
  }

  /** `getCip68Entry(ticker, map, key)`: the value of the first entry whose
      key decodes to `key`; `find` stops there, so only the keys before it
      must be byte arrays. */
  function Cip68Entry(utf8: Utf8, ticker: string, entries: seq<(PlutusData, PlutusData)>, key: string)
    : (r: Result<PlutusData, string>)
    ensures r.Failure? ==> r.error == NOT_BYTES || r.error == EntryNotFound(key, ticker)
    ensures r.Success? ==> exists i :: 0 <= i < |entries| && Names(utf8, entries[i].0, key) && r.value == entries[i].1
  {
    if entries == [] then Failure(EntryNotFound(key, ticker))
    else if !entries[0].0.DBytes? then Failure(NOT_BYTES)
    else if utf8.decode(entries[0].0.bytes) == key then Success(entries[0].1)
    else Cip68Entry(utf8, ticker, entries[1..], key)
  }

  /** A key "names" an entry when it is a byte array that decodes to it. */
  predicate Names(utf8: Utf8, k: PlutusData, key: string) {
    k.DBytes? && utf8.decode(k.bytes) == key
  }

  /** The entry found is the first one that names the key. */
  lemma {:induction false} Cip68EntryFirst(utf8: Utf8, ticker: string, entries: seq<(PlutusData, PlutusData)>, key: string, i: nat)
    requires i < |entries| && Names(utf8, entries[i].0, key)
    requires forall k :: 0 <= k < i ==> entries[k].0.DBytes? && !Names(utf8, entries[k].0, key)
    ensures Cip68Entry(utf8, ticker, entries, key) == Success(entries[i].1)
  {
    if i > 0 {
      assert entries[0].0.DBytes? && !Names(utf8, entries[0].0, key);
      Cip68EntryFirst(utf8, ticker, entries[1..], key, i - 1);
    }
  }

  /** A map of byte-array keys none of which names the key reports the entry
      as missing. */
  lemma {:induction false} Cip68EntryMissing(utf8: Utf8, ticker: string, entries: seq<(PlutusData, PlutusData)>, key: string)
    requires forall k :: 0 <= k < |entries| ==> entries[k].0.DBytes? && !Names(utf8, entries[k].0, key)
    ensures Cip68Entry(utf8, ticker, entries, key) == Failure(EntryNotFound(key, ticker))
  {
    if entries != [] {
      assert entries[0].0.DBytes? && !Names(utf8, entries[0].0, key);
      Cip68EntryMissing(utf8, ticker, entries[1..], key);
    }
  }

  /** The state an RWA's metadata datum holds. */
  datatype RWADatum = RWADatum(currentSupply: int, lastMintSupply: int,
                               lastDepositOrWithdrawal: seq<byte>, reservesAccount: seq<byte>)

  function IntEntry(utf8: Utf8, ticker: string, entries: seq<(PlutusData, PlutusData)>, key: string): (r: Result<int, string>)
    ensures r.Success? ==> Cip68Entry(utf8, ticker, entries, key) == Success(DInt(r.value))
  {
    match Cip68Entry(utf8, ticker, entries, key)
    case Failure(e) => Failure(e)
    case Success(d) => if d.DInt? then Success(d.value) else Failure(NOT_INT)
  }

  function BytesEntry(utf8: Utf8, ticker: string, entries: seq<(PlutusData, PlutusData)>, key: string): (r: Result<seq<byte>, string>)
    ensures r.Success? ==> Cip68Entry(utf8, ticker, entries, key) == Success(DBytes(r.value))
  {
    match Cip68Entry(utf8, ticker, entries, key)
    case Failure(e) => Failure(e)
    case Success(d) => if d.DBytes? then Success(d.bytes) else Failure(NOT_BYTES)
  }

  /** `decodeRWADatum(ticker, data)`: the first field of the datum's
      constructor is a map holding the four entries. */
  function DecodeRWADatum(utf8: Utf8, ticker: string, data: Option<PlutusData>): (r: Result<RWADatum, string>)
    ensures data.None? ==> r == Failure("not metadata datum for RWA " + ticker)
    ensures r.Success? ==>
              && data.Some? && data.value.DConstr? && |data.value.fields| > 0 && data.value.fields[0].DMap?
              && var entries := data.value.fields[0].entries;
              && Cip68Entry(utf8, ticker, entries, "current_supply") == Success(DInt(r.value.currentSupply))
              && Cip68Entry(utf8, ticker, entries, "last_mint_supply") == Success(DInt(r.value.lastMintSupply))
              && Cip68Entry(utf8, ticker, entries, "last_deposit_or_withdrawal") == Success(DBytes(r.value.lastDepositOrWithdrawal))
              && Cip68Entry(utf8, ticker, entries, "reserves_account") == Success(DBytes(r.value.reservesAccount))
  {
    if data.None? then Failure("not metadata datum for RWA " + ticker)
    else if !data.value.DConstr? then Failure(NOT_CONSTR)
    else if |data.value.fields| == 0 || !data.value.fields[0].DMap? then Failure(NOT_MAP)
    else
      var entries := data.value.fields[0].entries;
      match IntEntry(utf8, ticker, entries, "current_supply")
      case Failure(e) => Failure(e)
      case Success(supply) =>
        match IntEntry(utf8, ticker, entries, "last_mint_supply")
        case Failure(e) => Failure(e)
        case Success(lastMint) =>
          match BytesEntry(utf8, ticker, entries, "last_deposit_or_withdrawal")
          case Failure(e) => Failure(e)
          case Success(last) =>
            match BytesEntry(utf8, ticker, entries, "reserves_account")
            case Failure(e) => Failure(e)
            case Success(reserves) => Success(RWADatum(supply, lastMint, last, reserves))
  }

  /** The asset classes a transaction mints, other than ADA, in order. */
  function NonAdaClasses(minted: seq<(AssetClass, int)>): (cs: seq<AssetClass>)
    ensures |cs| <= |minted|
    ensures forall i :: 0 <= i < |cs| ==> cs[i] != ADA
    ensures forall i :: 0 <= i < |minted| && minted[i].0 != ADA ==> minted[i].0 in cs
    ensures forall c :: c in cs ==> c in MintedClasses(minted)
  {
    if minted == [] then []
    else (if minted[0].0 == ADA then [] else [minted[0].0]) + NonAdaClasses(minted[1..])
  }

  function MintedClasses(minted: seq<(AssetClass, int)>): set<AssetClass> {
    set i | 0 <= i < |minted| :: minted[i].0
  }

  /** `tx.body.minted.isZero()`. */
  predicate MintIsZero(minted: seq<(AssetClass, int)>) {
    forall i :: 0 <= i < |minted| ==> minted[i].1 == 0
  }

  /** `minted.getAssetClassQuantity(ac)`: 0 for a class not minted. */
  function Quantity(minted: seq<(AssetClass, int)>, ac: AssetClass): int {
    if minted == [] then 0
    else if minted[0].0 == ac then minted[0].1
    else Quantity(minted[1..], ac)
  }

  /** What the chain client answers for an RWA mint, and the formatting of
      the quantity minted. */
  datatype Chain = Chain(
    utf8: Utf8,
    /** The datums of the UTxOs at the validator address of the metadata
        token's policy (on the stage's network) that hold that token. */
    metadataUtxos: (StageName, AssetClass) -> Result<seq<Option<PlutusData>>, string>,
    /** `(Number(qty) / Math.pow(10, 6)).toFixed(6)`. */
    formatQty: int -> string)

  /** A mint that passed the checks of `handleSignRWAMint`. */
  datatype RwaMint = RwaMint(assetClass: AssetClass, quantity: int, ticker: string, datum: RWADatum)

  /** The checks of `handleSignRWAMint`, in order: exactly one non-ADA class
      is minted, the stage is authorized, the metadata UTxO exists and its
      datum decodes, and its reserves account is at least 16 bytes long. */
  function RwaCheck(chain: Chain, stage: StageName, tx: Tx, secrets: Value): (r: Result<RwaMint, string>)
    ensures |NonAdaClasses(tx.minted)| != 1 ==> r == Failure(TOO_MANY_CLASSES)
    ensures |NonAdaClasses(tx.minted)| == 1 && !Truthy(secrets) ==> r == Failure(NOT_AUTHORIZED)
    ensures r.Success? ==>
              && NonAdaClasses(tx.minted) == [r.value.assetClass]
              && r.value.quantity == Quantity(tx.minted, r.value.assetClass)
              && r.value.ticker == chain.utf8.decode(Drop(r.value.assetClass.tokenName, 4))
              && Truthy(secrets)
              && |r.value.datum.reservesAccount| >= 16
  {
    var classes := NonAdaClasses(tx.minted);
    if |classes| != 1 then Failure(TOO_MANY_CLASSES)
    else
      var ac := classes[0];
      var ticker := chain.utf8.decode(Drop(ac.tokenName, 4));
      var metadata := RWAMetadataAssetClass(chain.utf8, ac.mph, ticker);
      if !Truthy(secrets) then Failure(NOT_AUTHORIZED)
      else
        match chain.metadataUtxos(stage, metadata)
        case Failure(e) => Failure(e)
        case Success(datums) =>
          if datums == [] then Failure(UNDEFINED)
          else
            match DecodeRWADatum(chain.utf8, ticker, datums[0])
            case Failure(e) => Failure(e)
            case Success(datum) =>
              if |datum.reservesAccount| < 16 then Failure(INVALID_RESERVES)
              else Success(RwaMint(ac, Quantity(tx.minted, ac), ticker, datum))
  }

  const RWA_MINTED: string := "minted RWA:  "

  /** `handleSignRWAMint(stage, tx)`: a checked mint is signed and recorded;
      any failure is thrown to the caller, with no event. */
  function RwaMintSpec(signer: Signer, chain: Chain, stage: StageName, tx: Tx, privateKey: Value,
                       secrets: Value, now: int): (r: Result<SignOutcome, string>)
    ensures r.Success? <==> RwaCheck(chain, stage, tx, secrets).Success? && signer.sign(privateKey, tx.bodyHash).Success?
    ensures r.Success? ==>
              var mint := RwaCheck(chain, stage, tx, secrets).value;
              && r.value.upload == Some((stage, ToHex(signer.sign(privateKey, tx.bodyHash).value)))
              && r.value.event == FeedEvent(Str(stage.Name()), ToHex(tx.bodyHash), None, now, [], Some(RWA_MINTED + mint.ticker))
              && r.value.title == stage.Name() + ", signed RWA mint"
              && !r.value.guarded
  {
    match RwaCheck(chain, stage, tx, secrets)
    case Failure(e) => Failure(e)
    case Success(mint) =>
      match signer.sign(privateKey, tx.bodyHash)
      case Failure(e) => Failure(e)
      case Success(sig) =>
        Success(SignOutcome(Some((stage, ToHex(sig))),
                            FeedEvent(Str(stage.Name()), ToHex(tx.bodyHash), None, now, [], Some(RWA_MINTED + mint.ticker)),
                            stage.Name() + ", signed RWA mint",
                            "minted " + chain.formatQty(mint.quantity) + " " + mint.ticker,
                            false))
  }

  // ---------------------------------------------------------------------
  // Price updates

  const UPDATED_PRICES: string := "updated prices"

  /** `handleSignDVPPriceUpdate(stage, tx)`: the prices are checked with
      every complaint collected; the attempt always ends in an event, which
      carries the error when there was one. */
  function PriceUpdateSpec(signer: Signer, stage: StageName, tx: Tx, privateKey: Value,
                           secrets: Value, now: int): (o: SignOutcome)
    ensures o.event.stage == Str(stage.Name()) && o.event.hash == ToHex(tx.bodyHash) && o.event.timestamp == now
    ensures o.guarded
    ensures o.upload.Some? <==> o.event.error.None?
    ensures o.upload.Some? <==>
              VerifyPricesSpec(Context(signer.check, stage, now, true), secrets, tx.outputs, []).0.Success?
              && signer.sign(privateKey, tx.bodyHash).Success?
    ensures o.upload.Some? ==> o.event.message == Some(UPDATED_PRICES) && o.title == stage.Name() + ", updated prices"
    ensures o.upload.None? ==> o.event.message.None? && o.title == stage.Name() + ", failed to update prices"
                               && o.body == o.event.error.value
  {
    var (signed, entries) := CheckAndSign(signer, stage, tx, privateKey, secrets, now, true);
    match signed
    case Success(sig) =>
      SignOutcome(Some((stage, ToHex(sig))),
                  FeedEvent(Str(stage.Name()), ToHex(tx.bodyHash), None, now, entries, Some(UPDATED_PRICES)),
                  stage.Name() + ", updated prices",
                  PricesText(entries, signer.toFixed6),
                  true)
    case Failure(e) =>
      SignOutcome(None,
                  FeedEvent(Str(stage.Name()), ToHex(tx.bodyHash), Some(e), now, entries, None),
                  stage.Name() + ", failed to update prices",
                  e,
                  true)
  }

  // ---------------------------------------------------------------------
  // Signing

  /** `fetchPriceFeed(stage, privateKey, deviceId)`: throws for an invalid
      stage, and lets every error of the request through. */
  function FetchPriceFeed(signer: Signer, stage: Value, privateKey: Value, deviceId: Value): (r: Result<Option<Tx>, string>)
    ensures !IsValidStage(stage) ==> r == Failure("invalid stage name " + ToText(stage))
    ensures IsValidStage(stage) ==> r == ReadFeed(signer, signer.feed(StageOf(stage).value, privateKey, deviceId))
  {
    match StageOf(stage)
    case Failure(_) => Failure("invalid stage name " + ToText(stage))
    case Success(s) => ReadFeed(signer, signer.feed(s, privateKey, deviceId))
  }

  /** Both workers fetch the same transaction: where the first worker's
      `fetchPriceFeed` swallows errors, this one throws them. */
  lemma FetchPriceFeedsAgree(signer: Signer, stage: Value, privateKey: Value, deviceId: Value, tx: Tx)
    ensures SrcFeed.FetchPriceFeed(signer, stage, privateKey, deviceId) == Some(tx)
            <==> FetchPriceFeed(signer, stage, privateKey, deviceId) == Success(Some(tx))
    ensures SrcFeed.FetchPriceFeed(signer, stage, privateKey, deviceId).None?
            <==> FetchPriceFeed(signer, stage, privateKey, deviceId).Failure?
                 || FetchPriceFeed(signer, stage, privateKey, deviceId) == Success(None)
  {
  }

  /** `handleSign(stage)`: a transaction that mints nothing is a price
      update, any other an RWA mint; without a transaction it throws. */
  function HandleSignSpec(pwa: Pwa, stage: StageName, privateKey: Value, deviceId: Value,
                          secrets: Value, now: int): (r: Result<SignOutcome, string>)
    ensures var fetched := FetchPriceFeed(pwa.signer, Str(stage.Name()), privateKey, deviceId);
            && (fetched.Failure? ==> r == Failure(fetched.error))
            && (fetched == Success(None) ==> r == Failure(NO_TX))
            && (fetched.Success? && fetched.value.Some? ==>
                  var tx := fetched.value.value;
                  r == if MintIsZero(tx.minted) then Success(PriceUpdateSpec(pwa.signer, stage, tx, privateKey, secrets, now))
                       else RwaMintSpec(pwa.signer, pwa.chain, stage, tx, privateKey, secrets, now))
  {
    match FetchPriceFeed(pwa.signer, Str(stage.Name()), privateKey, deviceId)
    case Failure(e) => Failure(e)
    case Success(None) => Failure(NO_TX)
    case Success(Some(tx)) =>
      if MintIsZero(tx.minted) then Success(PriceUpdateSpec(pwa.signer, stage, tx, privateKey, secrets, now))
      else RwaMintSpec(pwa.signer, pwa.chain, stage, tx, privateKey, secrets, now)
  }

  // ---------------------------------------------------------------------
  // handleFeed

  /** What `handleFeed` does: the timestamp recorded as the stage's last
      heartbeat (if any) and its effects in order. */
  datatype FeedRun = FeedRun(heartbeat: Option<Value>, effects: seq<Effect>)

  function Failed(stage: string, message: string): Effect {
    Notify(stage + " failed", message)
  }

  /** The `catch` of `handleFeed` once a notification of its `try` was
      refused: the refusal is notified as the stage's failure (and is
      refused in turn). */
  function Rethrown(s: StageName, refusal: Option<string>): seq<Effect> {
    if refusal.Some? then [Failed(s.Name(), refusal.value)] else []
  }

  /** `handleFeed(stage, heartbeat, timestamp)` while `showNotification`
      does what `refusal` says: every error, from stage validation on, ends
      in a "<stage> failed" notification, and so does a notification of the
      `try` that is refused. */
  function HandleFeedSpec(pwa: Pwa, stage: Value, heartbeat: bool, timestamp: Value, isPrimary: Value,
                          privateKey: Value, deviceId: Value, secrets: map<StageName, Value>,
                          refusal: Option<string>, now: int): (run: FeedRun)
    ensures !IsValidStage(stage) ==> run.effects == [Failed(ToText(stage), "unrecognized stage '" + ToText(stage) + "'")]
    ensures run.heartbeat.Some? ==> heartbeat && run.heartbeat.value == timestamp
    ensures run.effects != [] ==> run.effects[|run.effects| - 1].Notify?
    ensures run.effects == [] ==> heartbeat && !Truthy(isPrimary)
  {
    match StageOf(stage)
    case Failure(e) => FeedRun(None, [Failed(ToText(stage), e)])
    case Success(s) =>
      if heartbeat then
        match HeartbeatSpec(pwa, isPrimary, s, timestamp, privateKey, deviceId, now)
        case Failure(e) => FeedRun(None, [Failed(s.Name(), e)])
        case Success(None) => FeedRun(None, [])
        case Success(Some(plan)) => FeedRun(plan.record, [Notify("Heartbeat", plan.body)] + Rethrown(s, refusal))
      else
        match HandleSignSpec(pwa, s, privateKey, deviceId, SecretsOf(secrets, s), now)
        case Failure(e) => FeedRun(None, [Failed(s.Name(), e)])
        case Success(o) =>
          AppendedSettled(o, refusal);
          FeedRun(None, Settled(o, refusal) + Rethrown(s, refusal))
  }

  /** Notifications record no event. */
  lemma {:induction false} AppendedOnlyNotify(effects: seq<Effect>)
    requires forall i :: 0 <= i < |effects| ==> effects[i].Notify?
    ensures Appended(effects) == []
  {
    if effects != [] {
      AppendedOnlyNotify(effects[1..]);
    }
  }

  /** The effects of a signing `try` that ended in `o`, then of the `catch`
      of `handleFeed`: at most one event while notifications are shown, and
      with a refusal a second one only after a signed, guarded update, which
      carries the refusal; the signature comes right before the first
      event. */
  lemma SignedRun(s: StageName, o: SignOutcome, refusal: Option<string>)
    requires o.upload.Some? ==> o.event.error.None?
    ensures var effects := Settled(o, refusal) + Rethrown(s, refusal);
            && |Appended(effects)| <= (if refusal.Some? then 2 else 1)
            && (|Appended(effects)| == 2 ==>
                  && Appended(effects)[0].error.None?
                  && Appended(effects)[1] == Refused(Appended(effects)[0], refusal.value))
            && (forall i :: 0 <= i < |effects| && effects[i].PutSignature? ==>
                  i + 1 < |effects| && effects[i + 1].AppendEvent?)
  {
    var rethrown := Rethrown(s, refusal);
    AppendedOnlyNotify(rethrown);
    AppendedSettled(o, refusal);
    AppendedConcat(Settled(o, refusal), rethrown);
    SignatureFirst(o, refusal, rethrown);
  }

  /** Only the first effect of a signer can be an upload, and the event
      follows it. */
  lemma SignatureFirst(o: SignOutcome, refusal: Option<string>, rest: seq<Effect>)
    requires forall i :: 0 <= i < |rest| ==> rest[i].Notify?
    ensures var effects := Settled(o, refusal) + rest;
            forall i :: 0 <= i < |effects| && effects[i].PutSignature? ==>
              i == 0 && 1 < |effects| && effects[1] == AppendEvent(o.event)
  {
    var up: seq<Effect> := if o.upload.Some? then [PutSignature(o.upload.value.0, o.upload.value.1)] else [];
    var caught: seq<Effect> :=
      if o.upload.Some? && o.guarded && refusal.Some? then
        [AppendEvent(Refused(o.event, refusal.value)),
         Notify(ToText(o.event.stage) + ", failed to update prices", refusal.value)]
      else [];
    var tail := [AppendEvent(o.event), Notify(o.title, o.body)] + caught + rest;
    assert Settled(o, refusal) + rest == up + tail;
    assert forall i :: 0 <= i < |tail| ==> !tail[i].PutSignature?;
  }

  /** The promises of `handleFeed`: an invalid stage only notifies; a
      heartbeat never signs or records an event, and records the timestamp
      only when it is given; a signature is always uploaded right before its
      event. At most one event is recorded while notifications are shown;
      when they are refused, a signed price update records a second event,
      the first one carrying the refusal, and nothing else does. */
  lemma HandleFeedOutcome(pwa: Pwa, stage: Value, heartbeat: bool, timestamp: Value, isPrimary: Value,
                          privateKey: Value, deviceId: Value, secrets: map<StageName, Value>,
                          refusal: Option<string>, now: int)
    ensures var run := HandleFeedSpec(pwa, stage, heartbeat, timestamp, isPrimary, privateKey, deviceId, secrets, refusal, now);
            && (!IsValidStage(stage) ==>
                  run == FeedRun(None, [Notify(ToText(stage) + " failed", "unrecognized stage '" + ToText(stage) + "'")]))
            && (heartbeat ==> Appended(run.effects) == [] && |run.effects| <= (if refusal.Some? then 2 else 1))
            && (run.heartbeat.Some? ==> heartbeat && Truthy(isPrimary) && run.heartbeat.value == timestamp)
            && (!heartbeat ==> run.heartbeat.None?)
            && |Appended(run.effects)| <= (if refusal.Some? then 2 else 1)
            && (|Appended(run.effects)| == 2 ==>
                  && Appended(run.effects)[0].error.None?
                  && Appended(run.effects)[1] == Refused(Appended(run.effects)[0], refusal.value))
            && (forall i :: 0 <= i < |run.effects| && run.effects[i].PutSignature? ==>
                  i + 1 < |run.effects| && run.effects[i + 1].AppendEvent?)
  {
    var run := HandleFeedSpec(pwa, stage, heartbeat, timestamp, isPrimary, privateKey, deviceId, secrets, refusal, now);
    var st := StageOf(stage);
    if st.Success? && !heartbeat {
      var s := st.value;
      var signed := HandleSignSpec(pwa, s, privateKey, deviceId, SecretsOf(secrets, s), now);
      if signed.Success? {
        SignedRun(s, signed.value, refusal);
        return;
      }
    }
    AppendedOnlyNotify(run.effects);
  }

  /** `handleFeed(stage, heartbeat, timestamp)` on the stored state: it
      changes only the stage's last heartbeat and the event log. */
  method HandleFeed(db: Database, pwa: Pwa, stage: Value, heartbeat: bool, timestamp: Value,
                    refusal: Option<string>, now: int)
    returns (effects: seq<Effect>)
    modifies db
    ensures var run := HandleFeedSpec(pwa, stage, heartbeat, timestamp, old(db.isPrimary), old(db.GetPrivateKey()),
                                      old(db.GetDeviceId()), old(db.secrets), refusal, now);
            && effects == run.effects
            && db.events == old(db.events) + (if old(db.available) then Appended(run.effects) else [])
            && db.stageHeartbeats == if run.heartbeat.Some? then old(db.stageHeartbeats)[StageOf(stage).value := run.heartbeat.value]
                                     else old(db.stageHeartbeats)
    ensures db.available == old(db.available) && db.config == old(db.config) && db.secrets == old(db.secrets)
    ensures db.subscription == old(db.subscription) && db.isPrimary == old(db.isPrimary)
    ensures db.lastSync == old(db.lastSync) && db.lastHeartbeat == old(db.lastHeartbeat)
  {
    ghost var run := HandleFeedSpec(pwa, stage, heartbeat, timestamp, db.isPrimary, db.GetPrivateKey(),
                                    db.GetDeviceId(), db.secrets, refusal, now);
    var st := StageOf(stage);
    if st.Failure? {
      effects := [Failed(ToText(stage), st.error)];
      AppendedOnlyNotify(effects);
      return;
    }
    var s := st.value;
    var privateKey := db.GetPrivateKey();
    var deviceId := db.GetDeviceId();
    if heartbeat {
      var beat := HeartbeatSpec(pwa, db.isPrimary, s, timestamp, privateKey, deviceId, now);
      if beat.Failure? {
        effects := [Failed(s.Name(), beat.error)];
      } else if beat.value.None? {
        effects := [];
      } else {
        var plan := beat.value.value;
        if plan.record.Some? {
          db.stageHeartbeats := db.stageHeartbeats[s := plan.record.value];
        }
        effects := [Notify("Heartbeat", plan.body)] + Rethrown(s, refusal);
      }
      assert effects == run.effects;
      AppendedOnlyNotify(effects);
    } else {
      var signed := HandleSign(db, pwa, s, refusal, now);
      if signed.Failure? {
        effects := [Failed(s.Name(), signed.error)];
        AppendedOnlyNotify(effects);
      } else {
        var o := signed.value;
        var rethrown := Rethrown(s, refusal);
        effects := Settled(o, refusal) + rethrown;
        AppendedOnlyNotify(rethrown);
        AppendedConcat(Settled(o, refusal), rethrown);
      }
      assert effects == run.effects;
    }
  }

  /** `handleSign(stage)` on the stored state: the events of the outcome are
      appended, and nothing is stored when it throws. */
  method HandleSign(db: Database, pwa: Pwa, stage: StageName, refusal: Option<string>, now: int)
    returns (r: Result<SignOutcome, string>)
    modifies db
    ensures r == HandleSignSpec(pwa, stage, old(db.GetPrivateKey()), old(db.GetDeviceId()), old(db.GetSecrets(stage)), now)
    ensures db.events == old(db.events) + (if old(db.available) && r.Success? then Appended(Settled(r.value, refusal)) else [])
    ensures db.available == old(db.available) && db.config == old(db.config) && db.secrets == old(db.secrets)
    ensures db.subscription == old(db.subscription) && db.isPrimary == old(db.isPrimary)
    ensures db.lastSync == old(db.lastSync) && db.lastHeartbeat == old(db.lastHeartbeat)
    ensures db.stageHeartbeats == old(db.stageHeartbeats)
  {
    var privateKey := db.GetPrivateKey();
    var deviceId := db.GetDeviceId();
    var fetched := FetchPriceFeed(pwa.signer, Str(stage.Name()), privateKey, deviceId);
    if fetched.Failure? {
      return Failure(fetched.error);
    }
    if fetched.value.None? {
      return Failure(NO_TX);
    }
    var tx := fetched.value.value;
    if MintIsZero(tx.minted) {
      var o := SignPriceUpdate(db, pwa.signer, stage, tx, refusal, now);
      r := Success(o);
    } else {
      r := RwaMintSpec(pwa.signer, pwa.chain, stage, tx, privateKey, db.GetSecrets(stage), now);
      if r.Success? {
        db.AppendEvent(r.value.event);
        AppendedSettled(r.value, refusal);
      }
    }
  }

  /** `handleSignDVPPriceUpdate(stage, tx)` on the stored state, filling a
      fresh price record in place; its `catch` also records a refused
      notification of a signed update. */
  method SignPriceUpdate(db: Database, signer: Signer, stage: StageName, tx: Tx, refusal: Option<string>, now: int)
    returns (o: SignOutcome)
    modifies db
    ensures o == PriceUpdateSpec(signer, stage, tx, old(db.GetPrivateKey()), old(db.GetSecrets(stage)), now)
    ensures db.events == old(db.events) + (if old(db.available) then Appended(Settled(o, refusal)) else [])
    ensures db.available == old(db.available) && db.config == old(db.config) && db.secrets == old(db.secrets)
    ensures db.subscription == old(db.subscription) && db.isPrimary == old(db.isPrimary)
    ensures db.lastSync == old(db.lastSync) && db.lastHeartbeat == old(db.lastHeartbeat)
    ensures db.stageHeartbeats == old(db.stageHeartbeats)
  {
    var prices := new PriceRecord();
    var privateKey := db.GetPrivateKey();
    var checked := VerifyPrices(prices, Context(signer.check, stage, now, true), db.GetSecrets(stage), tx.outputs);
    var signature := if checked.Success? then signer.sign(privateKey, tx.bodyHash) else Failure("");
    if checked.Success? && signature.Success? {
      var event := FeedEvent(Str(stage.Name()), ToHex(tx.bodyHash), None, now, prices.entries, Some(UPDATED_PRICES));
      db.AppendEvent(event);
      var text := FormatPrices(prices, signer.toFixed6);
      o := SignOutcome(Some((stage, ToHex(signature.value))), event, stage.Name() + ", updated prices", text, true);
      if refusal.Some? {
        db.AppendEvent(Refused(event, refusal.value));
      }
    } else {
      var error := if checked.Failure? then checked.error else signature.error;
      var event := FeedEvent(Str(stage.Name()), ToHex(tx.bodyHash), Some(error), now, prices.entries, None);
      db.AppendEvent(event);
      o := SignOutcome(None, event, stage.Name() + ", failed to update prices", error, true);
    }
    AppendedSettled(o, refusal);
  }
}
