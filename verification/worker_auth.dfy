/** Authorization and Push-subscription state of the service worker
    (src/worker/auth.ts): per-stage API secrets fetched with the device's
    key, the list of stages the device is authorized for, and the
    registration of the Push subscription with every stage's back end.

    The network is not modelled: `Remote` says what each request returns
    (None where the request or the parsing of its answer throws). */
module WorkerAuth {
  import opened Wrappers
  import opened Js
  import opened Stages
  import opened WorkerDb
  import Bytes
  import Keys

  const SUBSCRIPTION_FAILED: string := "subscription failed, the subscription data might be stale"

  /** The JSON body of a POST to `<baseUrl>/subscribe`. */
  datatype SubscribeRequest = SubscribeRequest(
    subscription: Value,
    isPrimary: Value,
    schnorrPublicKey: string,
    ecdsaPublicKey: string)

  datatype Remote = Remote(
    /** `fetchSecrets(stage, privateKey, deviceId)`. */
    fetchSecrets: (StageName, Value, Value) -> Option<Value>,
    /** Whether a POST to `/subscribe` answers ok. */
    subscribe: (StageName, SubscribeRequest) -> Option<bool>,
    /** `pushManager.subscribe(...)`, serialized with `JSON.stringify`. */
    pushSubscription: Option<string>,
    /** The curve library's `derivePublicKey` for Schnorr and for ECDSA. */
    schnorr: seq<Bytes.byte> -> seq<Bytes.byte>,
    ecdsa: seq<Bytes.byte> -> seq<Bytes.byte>)

  // ---------------------------------------------------------------------
  // authorizeStage, authorizeAllStages

  /** The secrets `authorizeStage(stage)` leaves behind, from the stored key
      and device id. */
  function StageSecrets(remote: Remote, privateKey: Value, deviceId: Value, stage: StageName): Value {
    if LooseEqualsEmptyString(privateKey) then Undefined
    else
      match remote.fetchSecrets(stage, privateKey, deviceId)
      case None => Undefined
      case Some(v) => if Truthy(v) then v else Undefined
  }

  /** Secrets are cleared first and only a truthy answer to a request made
      with a non-empty key replaces them: afterwards they are either
      undefined or that answer. */
  lemma StageSecretsCleared(remote: Remote, privateKey: Value, deviceId: Value, stage: StageName)
    ensures var s := StageSecrets(remote, privateKey, deviceId, stage);
      && (s.Undefined? || Truthy(s))
      && (Truthy(s) <==>
            !LooseEqualsEmptyString(privateKey)
            && remote.fetchSecrets(stage, privateKey, deviceId).Some?
            && Truthy(remote.fetchSecrets(stage, privateKey, deviceId).value))
      && (Truthy(s) ==> s == remote.fetchSecrets(stage, privateKey, deviceId).value)
  {
  }

  /** The secrets after every stage has been authorized with a key and a
      device id. */
  function Reauthorized(secrets: map<StageName, Value>, remote: Remote, privateKey: Value, deviceId: Value)
    : map<StageName, Value>
  {
    secrets[Mainnet := StageSecrets(remote, privateKey, deviceId, Mainnet)]
           [Beta := StageSecrets(remote, privateKey, deviceId, Beta)]
           [Preprod := StageSecrets(remote, privateKey, deviceId, Preprod)]
  }

  /** `authorizeStage(stage)`; `fetched` says whether the secrets were
      requested. */
  method AuthorizeStage(db: Database, remote: Remote, stage: StageName) returns (fetched: bool)
    modifies db
    ensures db.secrets == old(db.secrets)[stage := StageSecrets(remote, old(db.GetPrivateKey()), old(db.GetDeviceId()), stage)]
    ensures fetched <==> !LooseEqualsEmptyString(old(db.GetPrivateKey()))
    ensures db.available == old(db.available) && db.config == old(db.config) && db.events == old(db.events)
    ensures db.subscription == old(db.subscription) && db.isPrimary == old(db.isPrimary)
    ensures db.lastSync == old(db.lastSync) && db.lastHeartbeat == old(db.lastHeartbeat)
    ensures db.stageHeartbeats == old(db.stageHeartbeats)
  {
    db.SetSecrets(stage, Undefined);
    var privateKey := db.GetPrivateKey();
    if LooseEqualsEmptyString(privateKey) {
      return false;
    }
    var deviceId := db.GetDeviceId();
    fetched := true;
    var secrets := remote.fetchSecrets(stage, privateKey, deviceId);
    if secrets.None? || !Truthy(secrets.value) {
      return;
    }
    db.SetSecrets(stage, secrets.value);
  }

  /** `authorizeAllStages()`: Mainnet, then Beta, then Preprod; `fetched`
      lists the stages whose secrets were requested, in request order. */
  method AuthorizeAllStages(db: Database, remote: Remote) returns (fetched: seq<StageName>)
    modifies db
    ensures var key, id := old(db.GetPrivateKey()), old(db.GetDeviceId());
      db.secrets == old(db.secrets)[Mainnet := StageSecrets(remote, key, id, Mainnet)]
                                   [Beta := StageSecrets(remote, key, id, Beta)]
                                   [Preprod := StageSecrets(remote, key, id, Preprod)]
    ensures fetched == if LooseEqualsEmptyString(old(db.GetPrivateKey())) then [] else [Mainnet, Beta, Preprod]
    ensures db.available == old(db.available) && db.config == old(db.config) && db.events == old(db.events)
    ensures db.subscription == old(db.subscription) && db.isPrimary == old(db.isPrimary)
    ensures db.lastSync == old(db.lastSync) && db.lastHeartbeat == old(db.lastHeartbeat)
    ensures db.stageHeartbeats == old(db.stageHeartbeats)
  {
    fetched := [];
    var f := AuthorizeStage(db, remote, Mainnet);
    if f { fetched := fetched + [Mainnet]; }
    f := AuthorizeStage(db, remote, Beta);
    if f { fetched := fetched + [Beta]; }
    f := AuthorizeStage(db, remote, Preprod);
    if f { fetched := fetched + [Preprod]; }
  }

  // ---------------------------------------------------------------------
  // isAuthorized, isSubscribed

  /** The names of the stages of `stages` whose secrets are defined, in
      the order of `stages`. */
  function AuthorizedNames(secrets: map<StageName, Value>, stages: seq<StageName>): (names: seq<string>)
    ensures |names| <= |stages|
  {
    if stages == [] then []
    else
      var last := stages[|stages| - 1];
      var defined := last in secrets && !IsNullish(secrets[last]);
      AuthorizedNames(secrets, stages[..|stages| - 1]) + (if defined then [last.Name()] else [])
  }

  /** A stage's name is listed exactly when the stage is among `stages`
      and its secrets are defined. */
  lemma {:induction false} AuthorizedNamesMembers(secrets: map<StageName, Value>, stages: seq<StageName>, s: StageName)
    ensures s.Name() in AuthorizedNames(secrets, stages) <==> s in stages && s in secrets && !IsNullish(secrets[s])
  {
    if stages != [] {
      var init := stages[..|stages| - 1];
      var last := stages[|stages| - 1];
      AuthorizedNamesMembers(secrets, init, s);
      assert stages == init + [last];
      IsValidStageNameIff(s.Name());
      IsValidStageNameIff(last.Name());
      assert s.Name() == last.Name() ==> s == last by {
        if s.Name() == last.Name() {
          assert ParseStage(s.Name()) == Some(s) && ParseStage(last.Name()) == Some(last);
        }
      }
    }
  }

  /** `isAuthorized()`. */
  method IsAuthorized(db: Database) returns (names: seq<string>)
    ensures names == AuthorizedNames(db.secrets, STAGE_NAMES)
    ensures forall s: StageName :: s.Name() in names <==> !IsNullish(db.GetSecrets(s))
  {
    names := [];
    var i := 0;
    while i < |STAGE_NAMES|
      invariant i <= |STAGE_NAMES|
      invariant names == AuthorizedNames(db.secrets, STAGE_NAMES[..i])
    {
      var stage := STAGE_NAMES[i];
      assert STAGE_NAMES[..i + 1][..i] == STAGE_NAMES[..i];
      if !IsNullish(db.GetSecrets(stage)) {
        names := names + [stage.Name()];
      }
      i := i + 1;
    }
    assert STAGE_NAMES[..i] == STAGE_NAMES;
    StageNamesComplete();
    forall s: StageName
      ensures s.Name() in names <==> !IsNullish(db.GetSecrets(s))
    {
      AuthorizedNamesMembers(db.secrets, STAGE_NAMES, s);
    }
  }

  /** `isSubscribed()`: a subscription is stored. The test is a loose
      `!= undefined`, so a stored null counts as none and any stored text,
      even an empty one, as a subscription. */
  predicate IsSubscribed(subscription: Value)
    ensures subscription.Str? ==> IsSubscribed(subscription)
    ensures subscription.Undefined? || subscription.Null? ==> !IsSubscribed(subscription)
  {
    !IsNullish(subscription)
  }

  // ---------------------------------------------------------------------
  // syncSubscription, createSubscription

  /** `deriveSchnorrPublicKey(privateKey)` and `deriveECDSAPublicKey`, or
      None where `hexToBytes` throws (a key that is not hex text). */
  function PublicKeys(remote: Remote, privateKey: Value): (r: Option<(string, string)>)
    ensures r.Some? <==> privateKey.Str? && Bytes.FromHex(privateKey.s).Some?
  {
    if privateKey.Str? && Bytes.FromHex(privateKey.s).Some? then
      Some((Keys.DerivePublicKey(remote.schnorr, privateKey.s).value,
            Keys.DerivePublicKey(remote.ecdsa, privateKey.s).value))
    else None
  }

  /** The stages of `stages`, each with the same request body. */
  function Requests(stages: seq<StageName>, request: SubscribeRequest): (rs: seq<(StageName, SubscribeRequest)>)
    ensures |rs| == |stages|
    ensures forall i :: 0 <= i < |stages| ==> rs[i] == (stages[i], request)
  {
    seq(|stages|, i requires 0 <= i < |stages| => (stages[i], request))
  }

  /** Whether a POST to some stage of `stages` threw or answered not ok. */
  function AnyFailed(remote: Remote, stages: seq<StageName>, request: SubscribeRequest): bool {
    if stages == [] then false
    else AnyFailed(remote, stages[..|stages| - 1], request) || remote.subscribe(stages[|stages| - 1], request) != Some(true)
  }

  lemma {:induction false} AnyFailedIff(remote: Remote, stages: seq<StageName>, request: SubscribeRequest)
    ensures AnyFailed(remote, stages, request) <==> exists i :: 0 <= i < |stages| && remote.subscribe(stages[i], request) != Some(true)
  {
    if stages != [] {
      var init := stages[..|stages| - 1];
      AnyFailedIff(remote, init, request);
      if exists i :: 0 <= i < |stages| && remote.subscribe(stages[i], request) != Some(true) {
        var i :| 0 <= i < |stages| && remote.subscribe(stages[i], request) != Some(true);
        if i < |stages| - 1 {
          assert init[i] == stages[i];
        }
      }
      if exists i :: 0 <= i < |init| && remote.subscribe(init[i], request) != Some(true) {
        var i :| 0 <= i < |init| && remote.subscribe(init[i], request) != Some(true);
        assert stages[i] == init[i];
      }
    }
  }

  /** `syncSubscription(subscription)` from the stored key, device id and
      primary flag: (outcome, the POSTs to `/subscribe` in request order). */
  function SyncSpec(remote: Remote, privateKey: Value, isPrimary: Value, subscription: Value)
    : (r: (Result<(), string>, seq<(StageName, SubscribeRequest)>))
    ensures r.0.Failure? ==> r.0.error == SUBSCRIPTION_FAILED && |r.1| == |STAGE_NAMES|
    ensures r.1 == [] || |r.1| == |STAGE_NAMES|
    ensures forall i :: 0 <= i < |r.1| ==> r.1[i].0 == STAGE_NAMES[i] && r.1[i].1.subscription == subscription
  {
    if LooseEqualsEmptyString(privateKey) then (Success(()), [])
    else
      match PublicKeys(remote, privateKey)
      case None => (Success(()), [])
      case Some((schnorr, ecdsa)) =>
        var request := SubscribeRequest(subscription, isPrimary, schnorr, ecdsa);
        (if AnyFailed(remote, STAGE_NAMES, request) then Failure(SUBSCRIPTION_FAILED) else Success(()),
         Requests(STAGE_NAMES, request))
  }

  /** An empty key sends nothing, and so does a key whose public keys cannot
      be derived (that error is swallowed). Otherwise every stage is
      contacted once, in `STAGE_NAMES` order, with the same body, and the
      call fails, with one fixed message, exactly when some stage's request
      threw or was answered not ok. */
  lemma SyncSpecOutcome(remote: Remote, privateKey: Value, isPrimary: Value, subscription: Value)
    ensures var (result, requests) := SyncSpec(remote, privateKey, isPrimary, subscription);
      && (LooseEqualsEmptyString(privateKey) || PublicKeys(remote, privateKey).None? ==>
            result.Success? && requests == [])
      && (result.Failure? ==> result.error == SUBSCRIPTION_FAILED)
      && (!LooseEqualsEmptyString(privateKey) && PublicKeys(remote, privateKey).Some? ==>
            && |requests| == |STAGE_NAMES|
            && (forall i :: 0 <= i < |requests| ==> requests[i].0 == STAGE_NAMES[i] && requests[i].1 == requests[0].1)
            && requests[0].1.subscription == subscription && requests[0].1.isPrimary == isPrimary
            && (result.Failure? <==> exists i :: 0 <= i < |requests| && remote.subscribe(requests[i].0, requests[i].1) != Some(true)))
  {
    if !LooseEqualsEmptyString(privateKey) && PublicKeys(remote, privateKey).Some? {
      var (schnorr, ecdsa) := PublicKeys(remote, privateKey).value;
      var request := SubscribeRequest(subscription, isPrimary, schnorr, ecdsa);
      AnyFailedIff(remote, STAGE_NAMES, request);
    }
  }

  /** `syncSubscription(subscription)`. */
  method SyncSubscription(db: Database, remote: Remote, subscription: Value)
    returns (result: Result<(), string>, requests: seq<(StageName, SubscribeRequest)>)
    ensures (result, requests) == SyncSpec(remote, db.GetPrivateKey(), db.isPrimary, subscription)
  {
    var fetchFailed := false;
    requests := [];
    var privateKey := db.GetPrivateKey();
    if LooseEqualsEmptyString(privateKey) {
      return Success(()), [];
    }
    var isPrimary := db.isPrimary;
    var keys := PublicKeys(remote, privateKey);
    if keys.None? {
      return Success(()), [];
    }
    var request := SubscribeRequest(subscription, isPrimary, keys.value.0, keys.value.1);
    var i := 0;
    while i < |STAGE_NAMES|
      invariant i <= |STAGE_NAMES|
      invariant requests == Requests(STAGE_NAMES[..i], request)
      invariant fetchFailed == AnyFailed(remote, STAGE_NAMES[..i], request)
    {
      var stage := STAGE_NAMES[i];
      assert STAGE_NAMES[..i + 1][..i] == STAGE_NAMES[..i];
      requests := requests + [(stage, request)];
      var ok := remote.subscribe(stage, request);
      if ok != Some(true) {
        fetchFailed := true;
      }
      i := i + 1;
    }
    assert STAGE_NAMES[..i] == STAGE_NAMES;
    result := if fetchFailed then Failure(SUBSCRIPTION_FAILED) else Success(());
  }

  /** `createSubscription()`: subscribes with the Push service, stores the
      subscription and registers it; every error is swallowed. */
  method CreateSubscription(db: Database, remote: Remote) returns (requests: seq<(StageName, SubscribeRequest)>)
    modifies db
    ensures db.subscription == if remote.pushSubscription.Some? then Str(remote.pushSubscription.value) else old(db.subscription)
    ensures remote.pushSubscription.Some? ==> IsSubscribed(db.subscription)
    ensures requests == if remote.pushSubscription.None? then []
                        else SyncSpec(remote, db.GetPrivateKey(), db.isPrimary, db.subscription).1
    ensures db.available == old(db.available) && db.config == old(db.config) && db.events == old(db.events)
    ensures db.secrets == old(db.secrets) && db.isPrimary == old(db.isPrimary)
    ensures db.lastSync == old(db.lastSync) && db.lastHeartbeat == old(db.lastHeartbeat)
    ensures db.stageHeartbeats == old(db.stageHeartbeats)
  {
    if remote.pushSubscription.None? {
      return [];
    }
    db.subscription := Str(remote.pushSubscription.value);
    var _, rs := SyncSubscription(db, remote, db.subscription);
    requests := rs;
  }

  /** `authorizeAndSubscribe()`: every stage is authorized, then a fresh
      subscription is created; neither step can throw. */
  method AuthorizeAndSubscribe(db: Database, remote: Remote)
    returns (fetched: seq<StageName>, requests: seq<(StageName, SubscribeRequest)>)
    modifies db
    ensures var key, id := old(db.GetPrivateKey()), old(db.GetDeviceId());
      db.secrets == old(db.secrets)[Mainnet := StageSecrets(remote, key, id, Mainnet)]
                                   [Beta := StageSecrets(remote, key, id, Beta)]
                                   [Preprod := StageSecrets(remote, key, id, Preprod)]
    ensures fetched == if LooseEqualsEmptyString(old(db.GetPrivateKey())) then [] else [Mainnet, Beta, Preprod]
    ensures db.subscription == if remote.pushSubscription.Some? then Str(remote.pushSubscription.value) else old(db.subscription)
    ensures requests == if remote.pushSubscription.None? then []
                        else SyncSpec(remote, old(db.GetPrivateKey()), old(db.isPrimary), db.subscription).1
    ensures db.available == old(db.available) && db.config == old(db.config) && db.events == old(db.events)
    ensures db.isPrimary == old(db.isPrimary)
    ensures db.lastSync == old(db.lastSync) && db.lastHeartbeat == old(db.lastHeartbeat)
    ensures db.stageHeartbeats == old(db.stageHeartbeats)
  {
    fetched := AuthorizeAllStages(db, remote);
    requests := CreateSubscription(db, remote);
  }
}
