/** The first service worker's event handlers (src/worker/index.ts): the
    page's `get`/`set` messages, Push messages (a heartbeat to answer or a
    price feed to sign) and `sync`, which re-authorizes the device and
    refreshes its Push subscription. */
module SrcWorker {
  import opened Wrappers
  import opened Js
  import opened Stages
  import opened FeedEvents
  import opened FeedTx
  import opened WorkerDb
  import opened WorkerAuth
  import opened WorkerMessages
  import SrcFeed

  /** What the worker's environment answers. */
  datatype Worker = Worker(
    remote: Remote,
    signer: Signer,
    /** `POST <baseUrl>/pong` with the auth token of (private key, device
        id): the error it throws, if any. */
    pong: (StageName, Value, Value) -> Option<string>,
    /** `JSON.parse` of a stored subscription; None where it throws. */
    parseJson: Value -> Option<Value>,
    /** `getNotificationsGranted()`. */
    notificationsGranted: bool,
    /** What `registration.showNotification` does: None where it resolves,
        Some(message) where it rejects. */
    refusal: Option<string>,
    /** `new Date(t).toLocaleString()`. */
    localeString: Value -> string)

  // ---------------------------------------------------------------------
  // sync

  /** Whether `sync()` keeps the stored subscription (and re-registers it)
      rather than creating a new one. */
  predicate KeepsSubscription(worker: Worker, subscription: Value, now: int) {
    Truthy(subscription) && IsValidSubscription(worker.parseJson(subscription), now)
  }

  /** How `sync()` ends: only the re-registration of a kept subscription can
      fail. */
  function SyncResult(worker: Worker, privateKey: Value, isPrimary: Value, subscription: Value, now: int)
    : (r: Result<(), string>)
    ensures !KeepsSubscription(worker, subscription, now) ==> r.Success?
    ensures r.Failure? ==> r.error == SUBSCRIPTION_FAILED
  {
    SyncSpecOutcome(worker.remote, privateKey, isPrimary, subscription);
    if KeepsSubscription(worker, subscription, now) then SyncSpec(worker.remote, privateKey, isPrimary, subscription).0
    else Success(())
  }

  /** `sync()`: every stage is re-authorized; a valid stored subscription is
      re-registered, and otherwise a new one is created. */
  method Sync(db: Database, worker: Worker, now: int) returns (result: Result<(), string>)
    modifies db
    ensures db.secrets == Reauthorized(old(db.secrets), worker.remote, old(db.GetPrivateKey()), old(db.GetDeviceId()))
    ensures result == SyncResult(worker, old(db.GetPrivateKey()), old(db.isPrimary), old(db.subscription), now)
    ensures db.subscription ==
              if KeepsSubscription(worker, old(db.subscription), now) || worker.remote.pushSubscription.None?
              then old(db.subscription) else Str(worker.remote.pushSubscription.value)
    ensures db.available == old(db.available) && db.config == old(db.config) && db.events == old(db.events)
    ensures db.isPrimary == old(db.isPrimary)
    ensures db.lastSync == old(db.lastSync) && db.lastHeartbeat == old(db.lastHeartbeat)
    ensures db.stageHeartbeats == old(db.stageHeartbeats)
  {
    var _ := AuthorizeAllStages(db, worker.remote);
    var subscription := db.subscription;
    if Truthy(subscription) && IsValidSubscription(worker.parseJson(subscription), now) {
      var requests;
      result, requests := SyncSubscription(db, worker.remote, subscription);
    } else {
      var _ := CreateSubscription(db, worker.remote);
      result := Success(());
    }
  }

  // ---------------------------------------------------------------------
  // message

  /** The "message" handler: one reply per message. Getters change nothing;
      a setter replies once its value is stored (a new private key also
      re-authorizes every stage with it and renews the subscription); a
      failed sync replies with an internal error. */
  method HandleMessage(db: Database, worker: Worker, method_: Value, key: Value, value: Value, now: int)
    returns (reply: Reply)
    modifies db
    ensures var r := RouteOf(SRC_GET_KEYS, method_, key);
            && (r.Invalid? ==> reply == Err(r.message) && unchanged(db))
            && (r.Get? && r.name != "sync" ==>
                  reply == old(GetReply(db, worker.notificationsGranted, r.name)) && unchanged(db))
            && (r == Get("sync") ==>
                  var res := SyncResult(worker, old(db.GetPrivateKey()), old(db.isPrimary), old(db.subscription), now);
                  reply == if res.Success? then Ok(Val(Str("ok"))) else InternalError(res.error))
            && (r.Set? ==> reply == Ok(NoData))
    ensures RouteOf(SRC_GET_KEYS, method_, key) == Get("sync") ==>
              && db.secrets == Reauthorized(old(db.secrets), worker.remote, old(db.GetPrivateKey()), old(db.GetDeviceId()))
              && db.subscription ==
                   (if KeepsSubscription(worker, old(db.subscription), now) || worker.remote.pushSubscription.None?
                    then old(db.subscription) else Str(worker.remote.pushSubscription.value))
              && db.config == old(db.config) && db.isPrimary == old(db.isPrimary)
    ensures RouteOf(SRC_GET_KEYS, method_, key) == Set("deviceId") ==>
              && db.config == (if old(db.available) then old(db.config)[DEVICE_ID_KEY := value] else old(db.config))
              && db.secrets == old(db.secrets) && db.isPrimary == old(db.isPrimary)
              && db.subscription == old(db.subscription)
    ensures RouteOf(SRC_GET_KEYS, method_, key) == Set("privateKey") ==>
              && db.config == (if old(db.available) then old(db.config)[PRIVATE_KEY_KEY := value] else old(db.config))
              && (old(db.available) && !IsNullish(value) ==> db.GetPrivateKey() == value)
              && db.secrets == Reauthorized(old(db.secrets), worker.remote, db.GetPrivateKey(), db.GetDeviceId())
              && db.subscription == (if worker.remote.pushSubscription.Some? then Str(worker.remote.pushSubscription.value)
                                     else old(db.subscription))
              && db.isPrimary == old(db.isPrimary)
    ensures RouteOf(SRC_GET_KEYS, method_, key) == Set("isPrimary") ==>
              db.isPrimary == value && db.config == old(db.config) && db.secrets == old(db.secrets)
              && db.subscription == old(db.subscription)
    ensures db.available == old(db.available) && db.events == old(db.events)
    ensures db.lastSync == old(db.lastSync) && db.lastHeartbeat == old(db.lastHeartbeat)
    ensures db.stageHeartbeats == old(db.stageHeartbeats)
  {
    var r := RouteOf(SRC_GET_KEYS, method_, key);
    match r
    case Invalid(message) =>
      reply := Err(message);
    case Get(name) =>
      if name == "sync" {
        var res := Sync(db, worker, now);
        reply := if res.Success? then Ok(Val(Str("ok"))) else InternalError(res.error);
      } else if name == "isAuthorized" {
        var names := IsAuthorized(db);
        reply := Ok(Names(names));
      } else {
        reply := GetReply(db, worker.notificationsGranted, name);
      }
    case Set(name) =>
      if name == "deviceId" {
        db.SetDeviceId(value);
      } else if name == "privateKey" {
        db.SetPrivateKey(value);
        var _, _ := AuthorizeAndSubscribe(db, worker.remote);
      } else {
        db.isPrimary := value;
      }
      reply := Ok(NoData);
  }

  // ---------------------------------------------------------------------
  // push

  /** What a heartbeat push leaves behind: the timestamp recorded as the
      last heartbeat (if any) and its notification (if any). */
  datatype Beat = Beat(record: Option<Value>, effects: seq<Effect>)

  /** `now - payload.timestamp`, NaN for a timestamp that is not a number. */
  function Elapsed(now: int, timestamp: Value): Option<int> {
    match ToNumber(timestamp)
    case Some(t) => Some(now - t)
    case None => None
  }

  /** The heartbeat branch of the "push" handler: only a primary device
      answers, only for a valid stage; if the pong request throws nothing
      else happens. The delay is the time since the push's timestamp. */
  function HeartbeatSpec(worker: Worker, isPrimary: Value, stage: Value, timestamp: Value,
                         privateKey: Value, deviceId: Value, now: int): (b: Beat)
    ensures !Truthy(isPrimary) || !IsValidStage(stage) ==> b == Beat(None, [])
    ensures b.record.Some? <==> b.effects != [] && Truthy(timestamp)
    ensures b.record.Some? ==> b.record.value == timestamp
    ensures b.effects != [] ==>
              && IsValidStage(stage) && Truthy(isPrimary)
              && worker.pong(StageOf(stage).value, privateKey, deviceId).None?
              && |b.effects| == 1 && b.effects[0].Notify? && b.effects[0].title == "Heartbeat"
              && stage.s <= b.effects[0].body
    ensures Truthy(isPrimary) && IsValidStage(stage) && worker.pong(StageOf(stage).value, privateKey, deviceId).None? ==>
              |b.effects| == 1
    ensures b.effects != [] && !Truthy(timestamp) ==> b.effects[0].body == stage.s
    ensures b.effects != [] && Truthy(timestamp) ==>
              b.effects[0].body == stage.s + ", timestamp=" + worker.localeString(timestamp)
                                   + ", delay=" + NumberText(Elapsed(now, timestamp)) + "ms"
  {
    if !Truthy(isPrimary) || !IsValidStage(stage) then Beat(None, [])
    else
      match worker.pong(StageOf(stage).value, privateKey, deviceId)
      case Some(_) => Beat(None, [])
      case None =>
        var detail := if Truthy(timestamp)
                      then ", timestamp=" + worker.localeString(timestamp) + ", delay=" + NumberText(Elapsed(now, timestamp)) + "ms"
                      else "";
        var text := ToText(stage) + detail;
        assert ToText(stage) == stage.s && stage.s <= text;
        Beat(if Truthy(timestamp) then Some(timestamp) else None, [Notify("Heartbeat", text)])
  }

  /** The "push" handler on a parsed payload (`{}` when the push has no
      data): a heartbeat, a price feed to sign for a truthy stage, or
      nothing. A null payload throws before anything happens. */
  method HandlePush(db: Database, worker: Worker, payload: Value, now: int) returns (effects: seq<Effect>)
    modifies db
    ensures IsNullish(payload) || (!Truthy(Prop(payload, "heartbeat")) && !Truthy(Prop(payload, "stage"))) ==>
              effects == [] && unchanged(db)
    ensures !IsNullish(payload) && Truthy(Prop(payload, "heartbeat")) ==>
              var b := HeartbeatSpec(worker, old(db.isPrimary), Prop(payload, "stage"), Prop(payload, "timestamp"),
                                     old(db.GetPrivateKey()), old(db.GetDeviceId()), now);
              && effects == b.effects
              && db.lastHeartbeat == (if b.record.Some? then b.record.value else old(db.lastHeartbeat))
              && db.events == old(db.events)
    ensures !IsNullish(payload) && !Truthy(Prop(payload, "heartbeat")) && Truthy(Prop(payload, "stage")) ==>
              var o := SrcFeed.SignFeedSpec(worker.signer, Prop(payload, "stage"), old(db.GetPrivateKey()),
                                            old(db.GetDeviceId()), old(db.secrets), now);
              && effects == Settled(o, worker.refusal)
              && db.events == old(db.events) + (if old(db.available) then Appended(effects) else [])
              && db.lastHeartbeat == old(db.lastHeartbeat)
    ensures db.available == old(db.available) && db.config == old(db.config) && db.secrets == old(db.secrets)
    ensures db.subscription == old(db.subscription) && db.isPrimary == old(db.isPrimary)
    ensures db.lastSync == old(db.lastSync) && db.stageHeartbeats == old(db.stageHeartbeats)
  {
    if IsNullish(payload) {
      return [];
    }
    var stage := Prop(payload, "stage");
    if Truthy(Prop(payload, "heartbeat")) {
      var b := HeartbeatSpec(worker, db.isPrimary, stage, Prop(payload, "timestamp"), db.GetPrivateKey(), db.GetDeviceId(), now);
      if b.record.Some? {
        db.lastHeartbeat := b.record.value;
      }
      effects := b.effects;
    } else if Truthy(stage) {
      effects := SrcFeed.SignFeed(db, worker.signer, stage, worker.refusal, now);
    } else {
      effects := [];
    }
  }
}
