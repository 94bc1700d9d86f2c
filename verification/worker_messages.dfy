/** What the two service workers (src/worker/index.ts and
    pwa/src/worker/index.ts) share in handling the page's messages and the
    stored Push subscription: the routing of a `{method, key, value}`
    message, the shape of a reply, and the test of a stored subscription. */
module WorkerMessages {
  import opened Wrappers
  import opened Js
  import opened Stages
  import opened FeedEvents
  import opened WorkerDb
  import opened WorkerAuth

  /** The data of a successful reply. */
  datatype Data =
    | NoData
    | Val(v: Value)
    | Events(events: seq<FeedEvent>)
    | Names(names: seq<string>)
    | Flag(b: bool)

  /** What is posted back on the message's port. */
  datatype Reply = Ok(data: Data) | Err(error: string)

  /** The keys "get" answers in the first worker. */
  const SRC_GET_KEYS: seq<string> :=
    ["deviceId", "events", "isAuthorized", "isPrimary", "isSubscribed", "lastHeartbeat",
     "notificationsGranted", "privateKey", "status", "sync"]

  /** The second worker also answers "lastSync". */
  const PWA_GET_KEYS: seq<string> := SRC_GET_KEYS + ["lastSync"]

  const SET_KEYS: seq<string> := ["deviceId", "privateKey", "isPrimary"]

  /** Where the `switch` statements send a message. */
  datatype Route =
    | Get(name: string)
    | Set(name: string)
    | Invalid(message: string)

  function InvalidKey(key: Value): string {
    "invalid key \"" + ToText(key) + "\""
  }

  function InvalidMethod(method_: Value): string {
    "invalid method \"" + ToText(method_) + "\""
  }

  /** The two nested `switch` statements: cases compare with `===`, so only
      strings match. */
  function RouteOf(getKeys: seq<string>, method_: Value, key: Value): (r: Route)
    ensures r.Get? <==> method_ == Str("get") && key.Str? && key.s in getKeys
    ensures r.Set? <==> method_ == Str("set") && key.Str? && key.s in SET_KEYS
    ensures !r.Invalid? ==> Str(r.name) == key
    ensures r.Invalid? && (method_ == Str("get") || method_ == Str("set")) ==> r.message == InvalidKey(key)
    ensures method_ != Str("get") && method_ != Str("set") ==> r == Invalid(InvalidMethod(method_))
  {
    if method_ == Str("get") then
      if key.Str? && key.s in getKeys then Get(key.s) else Invalid(InvalidKey(key))
    else if method_ == Str("set") then
      if key.Str? && key.s in SET_KEYS then Set(key.s) else Invalid(InvalidKey(key))
    else Invalid(InvalidMethod(method_))
  }

  /** The two workers route every message alike, except that only the
      second answers "get lastSync". */
  lemma RoutesAgree(method_: Value, key: Value)
    ensures RouteOf(PWA_GET_KEYS, method_, key) == RouteOf(SRC_GET_KEYS, method_, key)
            <==> !(method_ == Str("get") && key == Str("lastSync"))
  {
    assert "lastSync" in PWA_GET_KEYS;
    if key == Str("lastSync") {
      assert forall i :: 0 <= i < |SRC_GET_KEYS| ==> SRC_GET_KEYS[i] != "lastSync";
    }
  }

  /** A reply to "get status". */
  const ACTIVE: Reply := Ok(Val(Str("active")))

  /** The reply to "get <name>" for the keys that only read the stored
      state ("sync" changes it and is handled by each worker). */
  function GetReply(db: Database, notificationsGranted: bool, name: string): (r: Reply)
    reads db
    ensures r.Ok? <==> name in PWA_GET_KEYS && name != "sync"
    ensures r.Err? ==> r.error == InvalidKey(Str(name))
    ensures name == "events" ==> r == Ok(Events(db.ListEvents()))
  {
    match name
    case "deviceId" => Ok(Val(db.GetDeviceId()))
    case "events" => Ok(Events(db.ListEvents()))
    case "isAuthorized" => Ok(Names(AuthorizedNames(db.secrets, STAGE_NAMES)))
    case "isPrimary" => Ok(Val(db.isPrimary))
    case "isSubscribed" => Ok(Flag(IsSubscribed(db.subscription)))
    case "lastHeartbeat" => Ok(Val(db.lastHeartbeat))
    case "lastSync" => Ok(Val(Num(db.lastSync)))
    case "notificationsGranted" => Ok(Flag(notificationsGranted))
    case "privateKey" => Ok(Val(db.GetPrivateKey()))
    case "status" => ACTIVE
    case _ => Err(InvalidKey(Str(name)))
  }

  /** The reply after a handler threw. */
  function InternalError(message: string): Reply {
    Err("internal error:" + message)
  }

  /** `isValidSubscription(subscription)` given what `JSON.parse` makes of it
      (None where it throws). Reading a property of null throws and so
      also reads as invalid. */
  function IsValidSubscription(parsed: Option<Value>, now: int): (valid: bool)
    ensures valid <==>
              && parsed.Some?
              && Truthy(Prop(parsed.value, "endpoint"))
              && Truthy(Prop(parsed.value, "keys"))
              && !Expired(Prop(parsed.value, "expirationTime"), now)
    ensures valid ==> parsed.value.Obj?
  {
    if parsed.None? then false
    else
      var obj := parsed.value;
      if obj.Null? then false
      else if !Truthy(Prop(obj, "endpoint")) then false
      else if Expired(Prop(obj, "expirationTime"), now) then false
      else if !Truthy(Prop(obj, "keys")) then false
      else true
  }

  /** `expirationTime != null && expirationTime < now`; a comparison with
      NaN is false. */
  predicate Expired(expirationTime: Value, now: int)
    ensures IsNullish(expirationTime) ==> !Expired(expirationTime, now)
    ensures expirationTime.Num? ==> (Expired(expirationTime, now) <==> expirationTime.n < now)
  {
    !IsNullish(expirationTime) && ToNumber(expirationTime).Some? && ToNumber(expirationTime).value < now
  }

  /** The sync event's throttle: a sync runs only when more than five minutes
      have passed since the last one. */
  const SYNC_INTERVAL: int := 300000

  predicate SyncDue(lastSync: int, now: int)
    ensures SyncDue(lastSync, now) ==> lastSync < now
  {
    now - lastSync > SYNC_INTERVAL
  }
}
