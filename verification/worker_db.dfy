/** The service worker's IndexedDB store (src/worker/db.ts): a "config"
    object store of `{key, value}` records keyed by "key", and an
    auto-increment "events" store of feed events.

    Every access opens the database first and may fail; `available` says
    whether opening the database and its requests succeed. The accessors the
    worker imports besides those of db.ts (stage secrets, the Push
    subscription, the primary flag, the last sync and the last heartbeats)
    are not part of this model's source and are plain fields. */
module WorkerDb {
  import opened Wrappers
  import opened Js
  import opened Stages
  import opened FeedEvents

  const DEVICE_ID_KEY: string := "deviceId"
  const PRIVATE_KEY_KEY: string := "privateKey"

  /** The secrets stored for a stage: undefined until some are set. */
  function SecretsOf(secrets: map<StageName, Value>, stage: StageName): Value {
    if stage in secrets then secrets[stage] else Undefined
  }

  class Database {
    var available: bool
    /** The "config" store: the `value` of the record under each key. */
    var config: map<string, Value>
    /** The "events" store, in key (= append) order. */
    var events: seq<FeedEvent>
    var secrets: map<StageName, Value>
    var subscription: Value
    var isPrimary: Value
    var lastSync: int
    /** The src worker's single last-heartbeat slot. */
    var lastHeartbeat: Value
    /** The pwa worker's last heartbeat per stage. */
    var stageHeartbeats: map<StageName, Value>

    constructor (available: bool)
      ensures this.available == available
      ensures config == map[] && events == [] && secrets == map[]
      ensures subscription == Undefined && isPrimary == Undefined && lastHeartbeat == Undefined
      ensures lastSync == 0 && stageHeartbeats == map[]
    {
      this.available := available;
      config := map[];
      events := [];
      secrets := map[];
      subscription := Undefined;
      isPrimary := Undefined;
      lastSync := 0;
      lastHeartbeat := Undefined;
      stageHeartbeats := map[];
    }

    /** `getConfig(key, def)`: `request.result?.value ?? def`, or `def` when
        the database cannot be read. */
    function GetConfig(key: string, def: Value): (v: Value)
      reads this
      ensures !available || key !in config || IsNullish(config[key]) ==> v == def
      ensures available && key in config && !IsNullish(config[key]) ==> v == config[key]
    {
      if available && key in config then Coalesce(config[key], def) else def
    }

    /** `getDeviceId()`: 0 unless a device id is stored. */
    function GetDeviceId(): (id: Value)
      reads this
      ensures !available || DEVICE_ID_KEY !in config || IsNullish(config[DEVICE_ID_KEY]) ==> id == Num(0)
      ensures !IsNullish(id)
    {
      GetConfig(DEVICE_ID_KEY, Num(0))
    }

    /** `getPrivateKey()`: "" unless a key is stored. */
    function GetPrivateKey(): (key: Value)
      reads this
      ensures !available || PRIVATE_KEY_KEY !in config || IsNullish(config[PRIVATE_KEY_KEY]) ==> key == Str("")
      ensures !IsNullish(key)
    {
      GetConfig(PRIVATE_KEY_KEY, Str(""))
    }

    /** `setConfig(key, value)`: an upsert of the record under `key`; a
        failure is swallowed and writes nothing. */
    method SetConfig(key: string, value: Value)
      modifies this
      ensures config == if old(available) then old(config)[key := value] else old(config)
      ensures available == old(available) && events == old(events)
      ensures secrets == old(secrets) && subscription == old(subscription) && isPrimary == old(isPrimary)
      ensures lastSync == old(lastSync) && lastHeartbeat == old(lastHeartbeat) && stageHeartbeats == old(stageHeartbeats)
      ensures available && !IsNullish(value) ==> GetConfig(key, Undefined) == value
      ensures forall k, d :: k != key ==> GetConfig(k, d) == old(GetConfig(k, d))
    {
      if available {
        config := config[key := value];
      }
    }

    /** `setDeviceId(id)`. */
    method SetDeviceId(id: Value)
      modifies this
      ensures config == if old(available) then old(config)[DEVICE_ID_KEY := id] else old(config)
      ensures available == old(available) && events == old(events)
      ensures secrets == old(secrets) && subscription == old(subscription) && isPrimary == old(isPrimary)
      ensures lastSync == old(lastSync) && lastHeartbeat == old(lastHeartbeat) && stageHeartbeats == old(stageHeartbeats)
      ensures available && !IsNullish(id) ==> GetDeviceId() == id
    {
      SetConfig(DEVICE_ID_KEY, id);
    }

    /** `setPrivateKey(hex)`. */
    method SetPrivateKey(hex: Value)
      modifies this
      ensures config == if old(available) then old(config)[PRIVATE_KEY_KEY := hex] else old(config)
      ensures available == old(available) && events == old(events)
      ensures secrets == old(secrets) && subscription == old(subscription) && isPrimary == old(isPrimary)
      ensures lastSync == old(lastSync) && lastHeartbeat == old(lastHeartbeat) && stageHeartbeats == old(stageHeartbeats)
      ensures available && !IsNullish(hex) ==> GetPrivateKey() == hex
    {
      SetConfig(PRIVATE_KEY_KEY, hex);
    }

    /** `appendEvent(event)`: the event goes after every earlier one; a
        failure is swallowed and writes nothing. */
    method AppendEvent(event: FeedEvent)
      modifies this
      ensures events == if old(available) then old(events) + [event] else old(events)
      ensures available == old(available) && config == old(config)
      ensures secrets == old(secrets) && subscription == old(subscription) && isPrimary == old(isPrimary)
      ensures lastSync == old(lastSync) && lastHeartbeat == old(lastHeartbeat) && stageHeartbeats == old(stageHeartbeats)
    {
      if available {
        events := events + [event];
      }
    }

    /** `listEvents()`: every event in append order, or [] when the database
        cannot be read. */
    function ListEvents(): (r: seq<FeedEvent>)
      reads this
      ensures available ==> r == events
      ensures !available ==> r == []
    {
      if available then events else []
    }

    /** `getSecrets(stage)`. */
    function GetSecrets(stage: StageName): Value
      reads this
    {
      SecretsOf(secrets, stage)
    }

    /** `setSecrets(stage, value)`. */
    method SetSecrets(stage: StageName, value: Value)
      modifies this
      ensures secrets == old(secrets)[stage := value]
      ensures available == old(available) && config == old(config) && events == old(events)
      ensures subscription == old(subscription) && isPrimary == old(isPrimary)
      ensures lastSync == old(lastSync) && lastHeartbeat == old(lastHeartbeat) && stageHeartbeats == old(stageHeartbeats)
    {
      secrets := secrets[stage := value];
    }
  }
}
