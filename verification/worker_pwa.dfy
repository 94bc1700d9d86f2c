/** The second service worker's event handlers (pwa/src/worker/index.ts):
    the page's `get`/`set` messages, Push messages for a stage (handed to
    `handleFeed`), and `sync`, which the periodic sync event runs at most
    once every five minutes and which always ends by recording when it
    ran. */
module PwaWorker {
  import opened Wrappers
  import opened Js
  import opened Stages
  import opened FeedEvents
  import opened FeedTx
  import opened WorkerDb
  import opened WorkerAuth
  import opened WorkerMessages
  import PwaFeed

  /** What the worker's environment answers. */
  datatype Worker = Worker(
    remote: Remote,
    feed: PwaFeed.Pwa,
    /** `JSON.parse` of a stored subscription; None where it throws. */
    parseJson: Value -> Option<Value>,
    /** `getNotificationsGranted()`. */
    notificationsGranted: bool,
    /** What `registration.showNotification` does: None where it resolves,
        Some(message) where it rejects. */
    refusal: Option<string>)

  // ---------------------------------------------------------------------
  // sync

  /** Whether `sync()` re-registers the stored subscription (rather than
      creating a new one), and whether that succeeds. */
  predicate TriesStoredSubscription(worker: Worker, subscription: Value, now: int) {
    Truthy(subscription) && IsValidSubscription(worker.parseJson(subscription), now)
  }

  predicate KeepsSubscription(worker: Worker, privateKey: Value, isPrimary: Value, subscription: Value, now: int) {
    TriesStoredSubscription(worker, subscription, now)
    && SyncSpec(worker.remote, privateKey, isPrimary, subscription).0.Success?
  }

  /** `sync()`: every stage is re-authorized; a valid stored subscription
      whose re-registration succeeds is kept, otherwise (the error is
      swallowed) a new one is created; either way the time of the sync is
      recorded. */
  method Sync(db: Database, worker: Worker, now: int)
    modifies db
    ensures db.secrets == Reauthorized(old(db.secrets), worker.remote, old(db.GetPrivateKey()), old(db.GetDeviceId()))
    ensures db.lastSync == now
    ensures db.subscription ==
              if KeepsSubscription(worker, old(db.GetPrivateKey()), old(db.isPrimary), old(db.subscription), now)
                 || worker.remote.pushSubscription.None?
              then old(db.subscription) else Str(worker.remote.pushSubscription.value)
    ensures db.available == old(db.available) && db.config == old(db.config) && db.events == old(db.events)
    ensures db.isPrimary == old(db.isPrimary)
    ensures db.lastHeartbeat == old(db.lastHeartbeat) && db.stageHeartbeats == old(db.stageHeartbeats)
  {
    var _ := AuthorizeAllStages(db, worker.remote);
    var subscription := db.subscription;
    if Truthy(subscription) && IsValidSubscription(worker.parseJson(subscription), now) {
      var result, requests := SyncSubscription(db, worker.remote, subscription);
      if result.Success? {
        db.lastSync := now;
        return;
      }
    }
    var _ := CreateSubscription(db, worker.remote);
    db.lastSync := now;
  }

  /** The "sync" event: `sync()` runs only when more than five minutes have
      passed since the last recorded sync, and then records `now`, so two
      syncs run by this event are always more than five minutes apart. */
  method SyncEvent(db: Database, worker: Worker, now: int) returns (ran: bool)
    modifies db
    ensures ran <==> SyncDue(old(db.lastSync), now)
    ensures ran ==> db.lastSync == now && now > old(db.lastSync) + SYNC_INTERVAL
    ensures ran ==>
              && db.secrets == Reauthorized(old(db.secrets), worker.remote, old(db.GetPrivateKey()), old(db.GetDeviceId()))
              && db.subscription ==
                   (if KeepsSubscription(worker, old(db.GetPrivateKey()), old(db.isPrimary), old(db.subscription), now)
                       || worker.remote.pushSubscription.None?
                    then old(db.subscription) else Str(worker.remote.pushSubscription.value))
              && db.available == old(db.available) && db.config == old(db.config) && db.events == old(db.events)
              && db.isPrimary == old(db.isPrimary)
              && db.lastHeartbeat == old(db.lastHeartbeat) && db.stageHeartbeats == old(db.stageHeartbeats)
    ensures !ran ==> unchanged(db)
  {
    ran := now - db.lastSync > SYNC_INTERVAL;
    if ran {
      Sync(db, worker, now);
    }
  }

  // ---------------------------------------------------------------------
  // message

  /** The "message" handler: as in the first worker, except that "get
      lastSync" is answered and that "get sync" always replies "ok". */
  method HandleMessage(db: Database, worker: Worker, method_: Value, key: Value, value: Value, now: int)
    returns (reply: Reply)
    modifies db
    ensures var r := RouteOf(PWA_GET_KEYS, method_, key);
            && (r.Invalid? ==> reply == Err(r.message) && unchanged(db))
            && (r.Get? && r.name != "sync" ==>
                  reply == old(GetReply(db, worker.notificationsGranted, r.name)) && unchanged(db))
            && (r == Get("sync") ==> reply == Ok(Val(Str("ok"))) && db.lastSync == now)
            && (r.Set? ==> reply == Ok(NoData))
    ensures RouteOf(PWA_GET_KEYS, method_, key) == Get("sync") ==>
              && db.secrets == Reauthorized(old(db.secrets), worker.remote, old(db.GetPrivateKey()), old(db.GetDeviceId()))
              && db.subscription ==
                   (if KeepsSubscription(worker, old(db.GetPrivateKey()), old(db.isPrimary), old(db.subscription), now)
                       || worker.remote.pushSubscription.None?
                    then old(db.subscription) else Str(worker.remote.pushSubscription.value))
              && db.config == old(db.config) && db.isPrimary == old(db.isPrimary)
    ensures RouteOf(PWA_GET_KEYS, method_, key) == Set("deviceId") ==>
              && db.config == (if old(db.available) then old(db.config)[DEVICE_ID_KEY := value] else old(db.config))
              && db.secrets == old(db.secrets) && db.isPrimary == old(db.isPrimary)
              && db.subscription == old(db.subscription)
    ensures RouteOf(PWA_GET_KEYS, method_, key) == Set("privateKey") ==>
              && db.config == (if old(db.available) then old(db.config)[PRIVATE_KEY_KEY := value] else old(db.config))
              && (old(db.available) && !IsNullish(value) ==> db.GetPrivateKey() == value)
              && db.secrets == Reauthorized(old(db.secrets), worker.remote, db.GetPrivateKey(), db.GetDeviceId())
              && db.subscription == (if worker.remote.pushSubscription.Some? then Str(worker.remote.pushSubscription.value)
                                     else old(db.subscription))
              && db.isPrimary == old(db.isPrimary)
    ensures RouteOf(PWA_GET_KEYS, method_, key) == Set("isPrimary") ==>
              db.isPrimary == value && db.config == old(db.config) && db.secrets == old(db.secrets)
              && db.subscription == old(db.subscription)
    ensures RouteOf(PWA_GET_KEYS, method_, key) != Get("sync") ==> db.lastSync == old(db.lastSync)
    ensures db.available == old(db.available) && db.events == old(db.events)
    ensures db.lastHeartbeat == old(db.lastHeartbeat) && db.stageHeartbeats == old(db.stageHeartbeats)
  {
    var r := RouteOf(PWA_GET_KEYS, method_, key);
    match r
    case Invalid(message) =>
      reply := Err(message);
    case Get(name) =>
      if name == "sync" {
        Sync(db, worker, now);
        reply := Ok(Val(Str("ok")));
      } else if name == "isAuthorized" {
        var names := IsAuthorized(db);
        reply := Ok(Names(names));
      } else {
        reply := GetReply(db, worker.notificationsGranted, name);
      }
    case Set(name) =>
      if name == "deviceId" {
        db.SetDeviceId(value);
      } else if name == "privateKey" {
        db.SetPrivateKey(value);
        var _, _ := AuthorizeAndSubscribe(db, worker.remote);
      } else {
        db.isPrimary := value;
      }
      reply := Ok(NoData);
  }

  // ---------------------------------------------------------------------
  // push

  /** The "push" handler on a parsed payload (`{}` when the push has no
      data): a payload with a truthy stage goes to `handleFeed`, every other
      one is ignored; a null payload throws before anything happens. */
  method HandlePush(db: Database, worker: Worker, payload: Value, now: int) returns (effects: seq<Effect>)
    modifies db
    ensures IsNullish(payload) || !Truthy(Prop(payload, "stage")) ==> effects == [] && unchanged(db)
    ensures !IsNullish(payload) && Truthy(Prop(payload, "stage")) ==>
              var run := PwaFeed.HandleFeedSpec(worker.feed, Prop(payload, "stage"), Truthy(Prop(payload, "heartbeat")),
                                                Prop(payload, "timestamp"), old(db.isPrimary), old(db.GetPrivateKey()),
                                                old(db.GetDeviceId()), old(db.secrets), worker.refusal, now);
              && effects == run.effects
              && db.events == old(db.events) + (if old(db.available) then Appended(run.effects) else [])
              && db.stageHeartbeats ==
                   if run.heartbeat.Some? then old(db.stageHeartbeats)[StageOf(Prop(payload, "stage")).value := run.heartbeat.value]
                   else old(db.stageHeartbeats)
    ensures db.available == old(db.available) && db.config == old(db.config) && db.secrets == old(db.secrets)
    ensures db.subscription == old(db.subscription) && db.isPrimary == old(db.isPrimary)
    ensures db.lastSync == old(db.lastSync) && db.lastHeartbeat == old(db.lastHeartbeat)
  {
    if IsNullish(payload) || !Truthy(Prop(payload, "stage")) {
      return [];
    }
    effects := PwaFeed.HandleFeed(db, worker.feed, Prop(payload, "stage"), Truthy(Prop(payload, "heartbeat")),
                                  Prop(payload, "timestamp"), worker.refusal, now);
  }
}
