/** What both feed signers (src/worker/feed.ts and pwa/src/worker/feed.ts)
    share around the price check: the transaction fetched from the stage's
    back end, the parsing of the `/feed` answer, stage validation of an
    untyped push payload, and the effects a signer has on the outside world. */
module FeedTx {
  import opened Wrappers
  import opened Js
  import opened Stages
  import opened Bytes
  import opened Cardano
  import opened FeedEvents
  import opened PriceCheck

  const NO_TX: string := "unable to fetch Tx from API"

  /** A decoded transaction: the hash of its body, its outputs and the
      quantity it mints of each asset class. */
  datatype Tx = Tx(bodyHash: seq<byte>, outputs: seq<TxOutput>, minted: seq<(AssetClass, int)>)

  /** The answer to `GET <baseUrl>/feed`: the request throws, or it is
      answered with a status and a text that `JSON.parse` turns into a value
      or throws on. */
  datatype FeedResponse =
    | FeedThrew(message: string)
    | FeedAnswer(status: int, body: Result<Value, string>)

  /** The signer's view of the back end, the chain and the signing key. */
  datatype Signer = Signer(
    /** `GET <baseUrl>/feed` with the auth token of (private key, device id). */
    feed: (StageName, Value, Value) -> FeedResponse,
    /** `decodeTx(cbor)`. */
    decodeTx: string -> Result<Tx, string>,
    /** `makeBip32PrivateKey(hexToBytes(privateKey)).sign(id).toCbor()`. */
    sign: (Value, seq<byte>) -> Result<seq<byte>, string>,
    /** The lookups and comparisons of `verifyPrices`. */
    check: Env,
    /** `price.toFixed(6)`. */
    toFixed6: Price -> string)

  /** What a signer does that can be observed from outside, in order.
      `Notify` is a call of `registration.showNotification`, which shows the
      notification or rejects (see `Settled`). */
  datatype Effect =
    | PutSignature(stage: StageName, body: string)
    | AppendEvent(event: FeedEvent)
    | Notify(title: string, body: string)

  /** `isValidStageName(stage)` on a payload value: `includes` matches only
      a string that is one of the names. */
  predicate IsValidStage(v: Value) {
    v.Str? && IsValidStageName(v.s)
  }

  /** `assertValidStageName(stage)` on a payload value. */
  function StageOf(v: Value): (r: Result<StageName, string>)
    ensures r.Success? <==> IsValidStage(v)
    ensures r.Success? ==> v == Str(r.value.Name())
    ensures r.Failure? ==> r.error == "unrecognized stage '" + ToText(v) + "'"
  {
    if v.Str? then
      match AssertValidStageName(v.s)
      case Success(s) => Success(s)
      case Failure(e) => Failure(e)
    else Failure("unrecognized stage '" + ToText(v) + "'")
  }

  /** The message V8 gives for `key in v` on a value that is not an object. */
  function InOperatorMessage(key: string, v: Value): string {
    "Cannot use 'in' operator to search for '" + key + "' in " + ToText(v)
  }

  /** What follows the request in `fetchPriceFeed`: a transaction, no
      transaction, or the error thrown on the way. A 2xx answer whose body is
      an object with a string `tx` is decoded; any other answer means no
      transaction. */
  function ReadFeed(signer: Signer, response: FeedResponse): (r: Result<Option<Tx>, string>)
    ensures r.Success? && r.value.Some? <==>
              && response.FeedAnswer?
              && 200 <= response.status < 300
              && response.body.Success?
              && response.body.value.Obj?
              && Prop(response.body.value, "tx").Str?
              && signer.decodeTx(Prop(response.body.value, "tx").s).Success?
    ensures r.Success? && r.value.Some? ==>
              r.value.value == signer.decodeTx(Prop(response.body.value, "tx").s).value
    ensures response.FeedAnswer? && !(200 <= response.status < 300) ==> r == Success(None)
  {
    match response
    case FeedThrew(m) => Failure(m)
    case FeedAnswer(status, body) =>
      if !(200 <= status < 300) then Success(None)
      else if body.Failure? then Failure(body.error)
      else
        match Has(body.value, "tx")
        case None => Failure(InOperatorMessage("tx", body.value))
        case Some(false) => Success(None)
        case Some(true) =>
          var tx := Prop(body.value, "tx");
          if !tx.Str? then Success(None)
          else
            match signer.decodeTx(tx.s)
            case Success(t) => Success(Some(t))
            case Failure(m) => Failure(m)
  }

  /** How a price-feed signing attempt ends: the signature uploaded (if
      any), the event appended and the notification shown. `guarded` says
      whether the notification of a signed update is awaited inside the
      signer's own `try`, whose `catch` then records its refusal. */
  datatype SignOutcome = SignOutcome(upload: Option<(StageName, string)>, event: FeedEvent, title: string, body: string,
                                     guarded: bool)

  /** The price check of a fetched transaction followed by its signature:
      the signature or the message of the first error, and the prices
      recorded by then. Nothing is signed unless the check passed. */
  function CheckAndSign(signer: Signer, stage: StageName, tx: Tx, privateKey: Value, secrets: Value,
                        now: int, collect: bool): (r: (Result<seq<byte>, string>, seq<(string, Price)>))
    ensures r.1 == VerifyPricesSpec(Context(signer.check, stage, now, collect), secrets, tx.outputs, []).1
    ensures r.0.Success? <==>
              VerifyPricesSpec(Context(signer.check, stage, now, collect), secrets, tx.outputs, []).0.Success?
              && signer.sign(privateKey, tx.bodyHash).Success?
    ensures r.0.Success? ==> r.0.value == signer.sign(privateKey, tx.bodyHash).value
  {
    var (checked, entries) := VerifyPricesSpec(Context(signer.check, stage, now, collect), secrets, tx.outputs, []);
    if checked.Failure? then (Failure(checked.error), entries)
    else
      match signer.sign(privateKey, tx.bodyHash)
      case Failure(e) => (Failure(e), entries)
      case Success(sig) => (Success(sig), entries)
  }

  /** The effects of a signer, in order: the upload of the signature (only
      after a successful check), the event, the notification. */
  function Trace(upload: Option<(StageName, string)>, event: FeedEvent, title: string, body: string): seq<Effect> {
    (if upload.Some? then [PutSignature(upload.value.0, upload.value.1)] else [])
    + [AppendEvent(event), Notify(title, body)]
  }

  /** The event a signer's `catch` appends when the notification of a signed
      update is refused: the same stage, transaction, time and prices, with
      the refusal as its error and no message. */
  function Refused(event: FeedEvent, error: string): FeedEvent {
    event.(error := Some(error), message := None)
  }

  /** All the effects of a signer whose `try` ended in `o`, given what
      `showNotification` does during the handler: None where it resolves,
      Some(message) where it rejects (as it does without notification
      permission). When a signed update's notification is refused inside a
      guarded `try`, the `catch` appends a second event carrying the refusal
      and notifies the failure; that notification is refused in turn and
      the signer rejects. Any other refused notification ends the signer. */
  function Settled(o: SignOutcome, refusal: Option<string>): seq<Effect> {
    Trace(o.upload, o.event, o.title, o.body)
    + (if o.upload.Some? && o.guarded && refusal.Some? then
         [AppendEvent(Refused(o.event, refusal.value)),
          Notify(ToText(o.event.stage) + ", failed to update prices", refusal.value)]
       else [])
  }

  /** The events among some effects, in order. */
  function Appended(effects: seq<Effect>): seq<FeedEvent> {
    if effects == [] then []
    else (if effects[0].AppendEvent? then [effects[0].event] else []) + Appended(effects[1..])
  }

  lemma {:induction false} AppendedConcat(a: seq<Effect>, b: seq<Effect>)
    ensures Appended(a + b) == Appended(a) + Appended(b)
  {
    if a == [] {
      assert a + b == b;
    } else {
      assert (a + b)[1..] == a[1..] + b;
      AppendedConcat(a[1..], b);
    }
  }

  /** A signer appends the event of its outcome and, exactly when the
      notification of a signed update was refused inside a guarded `try`,
      a second event: the first one with the refusal as its error. Without
      a refusal the signer appends one event and ends with one
      notification. */
  lemma AppendedSettled(o: SignOutcome, refusal: Option<string>)
    ensures Appended(Settled(o, refusal)) ==
              [o.event] + (if o.upload.Some? && o.guarded && refusal.Some? then [Refused(o.event, refusal.value)] else [])
    ensures refusal.None? ==> Settled(o, refusal) == Trace(o.upload, o.event, o.title, o.body)
    ensures |Settled(o, refusal)| >= 2 && Settled(o, refusal)[|Settled(o, refusal)| - 1].Notify?
  {
    var up: seq<Effect> := if o.upload.Some? then [PutSignature(o.upload.value.0, o.upload.value.1)] else [];
    var tail := [AppendEvent(o.event), Notify(o.title, o.body)];
    var caught: seq<Effect> :=
      if o.upload.Some? && o.guarded && refusal.Some? then
        [AppendEvent(Refused(o.event, refusal.value)),
         Notify(ToText(o.event.stage) + ", failed to update prices", refusal.value)]
      else [];
    assert Settled(o, refusal) == up + tail + caught;
    AppendedConcat(up + tail, caught);
    AppendedConcat(up, tail);
    assert Appended(tail[1..]) == Appended(tail[1..][1..]) == [];
    if up != [] {
      assert Appended(up[1..]) == [];
    }
    if caught != [] {
      assert Appended(caught[1..]) == Appended(caught[1..][1..]) == [];
    }
  }
}
