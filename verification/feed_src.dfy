/** The price-feed signer of the first worker (src/worker/feed.ts): fetch
    the transaction the stage's back end wants signed, check the prices in
    its asset-group outputs (stopping at the first problem), sign the body
    hash, upload the signature, record an event and notify. */
module SrcFeed {
  import opened Wrappers
  import opened Js
  import opened Stages
  import opened Bytes
  import opened FeedEvents
  import opened PriceCheck
  import opened FeedTx
  import opened WorkerDb

  /** `fetchPriceFeed(stage, privateKey, deviceId)`: no request for an
      invalid stage, and every failure on the way reads as "no transaction". */
  function FetchPriceFeed(signer: Signer, stage: Value, privateKey: Value, deviceId: Value): (tx: Option<Tx>)
    ensures !IsValidStage(stage) ==> tx.None?
    ensures IsValidStage(stage) ==>
              var read := ReadFeed(signer, signer.feed(StageOf(stage).value, privateKey, deviceId));
              (tx.Some? <==> read.Success? && read.value.Some?) && (tx.Some? ==> read.value == tx)
  {
    match StageOf(stage)
    case Failure(_) => None
    case Success(s) =>
      match ReadFeed(signer, signer.feed(s, privateKey, deviceId))
      case Success(t) => t
      case Failure(_) => None
  }

  /** The steps inside the `try` of `signFeed`, up to the signature: the
      signature or the message of the first error, and the prices recorded
      by then. The check stops at its first problem. */
  function Attempt(signer: Signer, stage: Value, tx: Option<Tx>, privateKey: Value,
                   secrets: map<StageName, Value>, now: int): (r: (Result<seq<byte>, string>, seq<(string, Price)>))
    ensures r.0.Success? ==> IsValidStage(stage) && tx.Some?
  {
    match StageOf(stage)
    case Failure(e) => (Failure(e), [])
    case Success(s) =>
      if tx.None? then (Failure(NO_TX), [])
      else CheckAndSign(signer, s, tx.value, privateKey, SecretsOf(secrets, s), now, false)
  }

  /** `signFeed(stage)` with the stored private key, device id and secrets,
      all timestamps taken at `now`, up to the end of its `try`: the
      notification of a signed update is awaited inside it. */
  function SignFeedSpec(signer: Signer, stage: Value, privateKey: Value, deviceId: Value,
                        secrets: map<StageName, Value>, now: int): (o: SignOutcome)
    ensures o.guarded && o.event.stage == stage && o.event.timestamp == now && o.event.message.None?
    ensures o.upload.Some? <==> o.event.error.None?
    ensures o.upload.Some? ==> IsValidStage(stage) && o.upload.value.0 == StageOf(stage).value
  {
    var tx := FetchPriceFeed(signer, stage, privateKey, deviceId);
    var hash := if tx.Some? then ToHex(tx.value.bodyHash) else "NA";
    var (signed, entries) := Attempt(signer, stage, tx, privateKey, secrets, now);
    match signed
    case Success(sig) =>
      SignOutcome(Some((StageOf(stage).value, ToHex(sig))),
                  FeedEvent(stage, hash, None, now, entries, None),
                  ToText(stage) + ", updated prices",
                  PricesText(entries, signer.toFixed6),
                  true)
    case Failure(e) =>
      SignOutcome(None,
                  FeedEvent(stage, hash, Some(e), now, entries, None),
                  if IsValidStage(stage) then ToText(stage) + ", failed to update prices" else "Failed to update prices",
                  e,
                  true)
  }

  /** The `try` of `signFeed(stage)` on the stored key, device id and
      secrets, filling a fresh price record in place: how the attempt ends,
      before anything is stored. */
  method TrySignFeed(db: Database, signer: Signer, stage: Value, now: int) returns (o: SignOutcome)
    ensures o == SignFeedSpec(signer, stage, db.GetPrivateKey(), db.GetDeviceId(), db.secrets, now)
  {
    var privateKey := db.GetPrivateKey();
    var deviceId := db.GetDeviceId();
    var tx := FetchPriceFeed(signer, stage, privateKey, deviceId);
    var prices := new PriceRecord();
    var hash := if tx.Some? then ToHex(tx.value.bodyHash) else "NA";
    var error: string;
    var st := StageOf(stage);
    if st.Failure? {
      error := st.error;
    } else if tx.None? {
      error := NO_TX;
    } else {
      var checked := VerifyPrices(prices, Context(signer.check, st.value, now, false), db.GetSecrets(st.value), tx.value.outputs);
      if checked.Failure? {
        error := checked.error;
      } else {
        var signature := signer.sign(privateKey, tx.value.bodyHash);
        if signature.Failure? {
          error := signature.error;
        } else {
          var event := FeedEvent(stage, hash, None, now, prices.entries, None);
          var text := FormatPrices(prices, signer.toFixed6);
          return SignOutcome(Some((st.value, ToHex(signature.value))), event, ToText(stage) + ", updated prices", text, true);
        }
      }
    }
    var event := FeedEvent(stage, hash, Some(error), now, prices.entries, None);
    var title := if IsValidStage(stage) then ToText(stage) + ", failed to update prices" else "Failed to update prices";
    o := SignOutcome(None, event, title, error, true);
  }

  /** `signFeed(stage)` while `showNotification` does what `refusal` says:
      its effects are those of the specification followed by its `catch`,
      and the events are the only things it stores: the event of the
      attempt and, when the notification of a signed update is refused, the
      event carrying the refusal. */
  method SignFeed(db: Database, signer: Signer, stage: Value, refusal: Option<string>, now: int)
    returns (effects: seq<Effect>)
    modifies db
    ensures var o := SignFeedSpec(signer, stage, old(db.GetPrivateKey()), old(db.GetDeviceId()), old(db.secrets), now);
            && effects == Settled(o, refusal)
            && db.events == old(db.events) + (if old(db.available) then Appended(Settled(o, refusal)) else [])
    ensures db.available == old(db.available) && db.config == old(db.config) && db.secrets == old(db.secrets)
    ensures db.subscription == old(db.subscription) && db.isPrimary == old(db.isPrimary)
    ensures db.lastSync == old(db.lastSync) && db.lastHeartbeat == old(db.lastHeartbeat)
    ensures db.stageHeartbeats == old(db.stageHeartbeats)
  {
    var o := TrySignFeed(db, signer, stage, now);
    db.AppendEvent(o.event);
    if o.upload.Some? && refusal.Some? {
      db.AppendEvent(Refused(o.event, refusal.value));
    }
    AppendedSettled(o, refusal);
    effects := Settled(o, refusal);
  }

  /** "NA" marks exactly the events without a transaction: a hex string has
      only lower-case digits. */
  lemma HexIsNeverNA(bs: seq<byte>)
    ensures ToHex(bs) != "NA"
  {
    ToHexIsLowerCase(bs);
    if |ToHex(bs)| == 2 {
      assert IsLowerHexDigit(ToHex(bs)[0]);
    }
  }

  /** What `signFeed` promises: a signature is uploaded exactly when every
      step succeeded, and then the event carries no error; the event names
      the transaction by its body hash, or "NA" when there was none; the
      first failing step decides the message, which is also the body of the
      notification. */
  lemma SignFeedOutcome(signer: Signer, stage: Value, privateKey: Value, deviceId: Value,
                        secrets: map<StageName, Value>, now: int)
    ensures var o := SignFeedSpec(signer, stage, privateKey, deviceId, secrets, now);
            && o.event.stage == stage && o.event.timestamp == now && o.event.message.None?
            && (o.upload.Some? <==> o.event.error.None?)
            && (o.upload.None? ==> o.body == o.event.error.value)
            && (o.upload.None? ==> o.title == if IsValidStage(stage) then ToText(stage) + ", failed to update prices"
                                               else "Failed to update prices")
    ensures var o := SignFeedSpec(signer, stage, privateKey, deviceId, secrets, now);
            var tx := FetchPriceFeed(signer, stage, privateKey, deviceId);
            && (o.event.hash == "NA" <==> tx.None?)
            && (tx.Some? ==> o.event.hash == ToHex(tx.value.bodyHash))
            && (!IsValidStage(stage) ==> o.event.error == Some("unrecognized stage '" + ToText(stage) + "'"))
            && (IsValidStage(stage) && tx.None? ==> o.event.error == Some(NO_TX))
    ensures var o := SignFeedSpec(signer, stage, privateKey, deviceId, secrets, now);
            var tx := FetchPriceFeed(signer, stage, privateKey, deviceId);
            o.upload.Some? <==>
              && IsValidStage(stage) && tx.Some?
              && Truthy(SecretsOf(secrets, StageOf(stage).value))
              && VerifyPricesSpec(Context(signer.check, StageOf(stage).value, now, false),
                                  SecretsOf(secrets, StageOf(stage).value), tx.value.outputs, []).0.Success?
              && signer.sign(privateKey, tx.value.bodyHash).Success?
    ensures var o := SignFeedSpec(signer, stage, privateKey, deviceId, secrets, now);
            o.upload.Some? ==>
              && o.upload.value == (StageOf(stage).value, ToHex(signer.sign(privateKey, FetchPriceFeed(signer, stage, privateKey, deviceId).value.bodyHash).value))
              && o.title == ToText(stage) + ", updated prices"
              && o.body == PricesText(o.event.prices, signer.toFixed6)
  {
    var tx := FetchPriceFeed(signer, stage, privateKey, deviceId);
    if tx.Some? {
      HexIsNeverNA(tx.value.bodyHash);
    }
  }
}
