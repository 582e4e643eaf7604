/**
 * The decision and data logic of clearblade.go: authentication client
 * construction, adapter-config retrieval with its retry, the MQTT client
 * identifier, the subscribe retry loop of the on-connect callback and the
 * connection-lost policy.
 *
 * The platform SDK and the MQTT client are not modelled: each call into them
 * is an input (the error `Authenticate` returns, the sequence of results that
 * successive queries or subscribes return). Sleeps, logging other than the
 * lines a decision produces, and process exit itself are left out; an exit is
 * a result value.
 */
module ClearBlade {
  import opened Wrappers
  import opened Json
  import Text
  import opened Args

  datatype AdapterConfig = AdapterConfig(AdapterSettings: string, TopicRoot: string)

  // ---------------------------------------------------------------------------
  // Authentication (the SDK client the adapter builds)

  datatype Credentials =
    | DeviceCredentials(name: string, activeKey: string)
    | ServiceAccountCredentials(accountID: string, token: string)

  /** The SDK's device client, reduced to what it was built from. */
  datatype DeviceClient = DeviceClient(platformURL: string, messagingURL: string, systemKey: string, credentials: Credentials)

  /**
   * Builds a client from the device name and password and authenticates it;
   * the error is whatever `Authenticate` returned.
   */
  method AuthWithDevice(args: AdapterArgs, authenticateErr: Option<string>) returns (client: DeviceClient, err: Option<string>)
    ensures client.credentials == DeviceCredentials(args.DeviceName, args.ActiveKey)
    ensures client.platformURL == args.PlatformURL && client.messagingURL == args.MessagingURL
    ensures client.systemKey == args.SystemKey
    ensures err == authenticateErr
  {
    client := DeviceClient(args.PlatformURL, args.MessagingURL, args.SystemKey, DeviceCredentials(args.DeviceName, args.ActiveKey));
    err := authenticateErr;
  }

  /** Builds a client from the service account and its token; nothing is authenticated, so it never fails. */
  method AuthWithServiceAccount(args: AdapterArgs) returns (client: DeviceClient, err: Option<string>)
    ensures client.credentials == ServiceAccountCredentials(args.ServiceAccount, args.ServiceAccountToken)
    ensures client.platformURL == args.PlatformURL && client.messagingURL == args.MessagingURL
    ensures client.systemKey == args.SystemKey
    ensures err.None?
  {
    client := DeviceClient(args.PlatformURL, args.MessagingURL, args.SystemKey,
                           ServiceAccountCredentials(args.ServiceAccount, args.ServiceAccountToken));
    err := None;
  }

  // ---------------------------------------------------------------------------
  // Adapter configuration

  /** A single-field equality query against a collection. */
  datatype Query = Query(collection: string, field: string, value: string)

  /** What one `GetDataByName` call returned. */
  datatype QueryOutcome = QueryFailed(message: string) | QuerySucceeded(results: map<string, Json>)

  /** The failed type assertions that crash the process while a successful query result is read. */
  datatype Panic = DataNotArray | RowNotObject | TopicRootNotString | AdapterSettingsNotString

  /**
   * Where config retrieval stands after the given query outcomes: a config,
   * a crash, or still retrying. There is no way to report a query error.
   */
  datatype FetchResult = Fetched(config: AdapterConfig) | Crashed(panic: Panic) | StillQuerying

  /** The defaults: the device name as topic root and no settings. */
  function DefaultConfig(deviceName: string): AdapterConfig
  {
    AdapterConfig(AdapterSettings := "", TopicRoot := deviceName)
  }

  /** The config read from the first row, over the defaults. */
  function ConfigFromRow(deviceName: string, row: Json): Result<AdapterConfig, Panic>
  {
    match row
    case JObject(fields) =>
      var topicRoot := Lookup(fields, "topic_root");
      var settings := Lookup(fields, "adapter_settings");
      if topicRoot != JNull && topicRoot != JString("") && !topicRoot.JString? then
        Err(TopicRootNotString)
      else if settings != JNull && !settings.JString? then
        Err(AdapterSettingsNotString)
      else
        Ok(AdapterConfig(
          AdapterSettings := if settings.JString? then settings.s else "",
          TopicRoot := if topicRoot.JString? && topicRoot.s != "" then topicRoot.s else deviceName))
    case _ => Err(RowNotObject)
  }

  /** The config one successful query result yields: only its first row counts. */
  function ConfigFromResults(deviceName: string, results: map<string, Json>): Result<AdapterConfig, Panic>
  {
    match Lookup(results, "DATA")
    case JArray(data) => if |data| == 0 then Ok(DefaultConfig(deviceName)) else ConfigFromRow(deviceName, data[0])
    case _ => Err(DataNotArray)
  }

  function Finished(r: Result<AdapterConfig, Panic>): FetchResult
  {
    match r
    case Ok(c) => Fetched(c)
    case Err(p) => Crashed(p)
  }

  /** The recursive retry: a failed query starts the whole retrieval again. */
  function FetchSpec(deviceName: string, outcomes: seq<QueryOutcome>): FetchResult
    decreases |outcomes|
  {
    if outcomes == [] then StillQuerying
    else match outcomes[0]
      case QueryFailed(_) => FetchSpec(deviceName, outcomes[1..])
      case QuerySucceeded(results) => Finished(ConfigFromResults(deviceName, results))
  }

  /**
   * `fetchAdapterConfig`: retrieves the adapter configuration, retrying after
   * every failed query.
   * `outcomes` are the results of the successive queries; `attempts` is how
   * many of them were issued.
   */
  method FetchAdapterConfigLoop(args: AdapterArgs, outcomes: seq<QueryOutcome>)
    returns (r: FetchResult, query: Query, attempts: nat)
    ensures query.collection == args.AdapterConfigCollection && query.field == "adapter_name"
    ensures query.value == if args.ServiceAccount != "" then args.ServiceAccount else args.DeviceName
    ensures attempts <= |outcomes|
    ensures forall i :: 0 <= i < attempts - 1 ==> outcomes[i].QueryFailed?
    ensures r.StillQuerying? <==> forall i :: 0 <= i < |outcomes| ==> outcomes[i].QueryFailed?
    ensures r.StillQuerying? ==> attempts == |outcomes|
    ensures !r.StillQuerying? ==>
              && 1 <= attempts
              && outcomes[attempts - 1].QuerySucceeded?
              && r == Finished(ConfigFromResults(args.DeviceName, outcomes[attempts - 1].results))
  {
    query := Query(args.AdapterConfigCollection, "adapter_name",
                   if args.ServiceAccount != "" then args.ServiceAccount else args.DeviceName);
    var i := 0;
    while i < |outcomes|
      invariant 0 <= i <= |outcomes|
      invariant forall j :: 0 <= j < i ==> outcomes[j].QueryFailed?
    {
      match outcomes[i]
      case QueryFailed(_) =>
        // logged, then retried after 30 seconds
        i := i + 1;
      case QuerySucceeded(results) =>
        var config := DefaultConfig(args.DeviceName);
        var data := Lookup(results, "DATA");
        if !data.JArray? {
          return Crashed(DataNotArray), query, i + 1;
        }
        if |data.items| > 0 {
          var row := data.items[0];
          if !row.JObject? {
            return Crashed(RowNotObject), query, i + 1;
          }
          var topicRoot := Lookup(row.fields, "topic_root");
          if topicRoot != JNull && topicRoot != JString("") {
            if !topicRoot.JString? {
              return Crashed(TopicRootNotString), query, i + 1;
            }
            config := config.(TopicRoot := topicRoot.s);
          }
          var settings := Lookup(row.fields, "adapter_settings");
          if settings != JNull {
            if !settings.JString? {
              return Crashed(AdapterSettingsNotString), query, i + 1;
            }
            config := config.(AdapterSettings := settings.s);
          }
        }
        return Fetched(config), query, i + 1;
    }
    r, attempts := StillQuerying, |outcomes|;
  }

  /** With no row returned, the config is exactly the defaults. */
  lemma ZeroRowsGiveDefaults(deviceName: string, results: map<string, Json>)
    requires Lookup(results, "DATA") == JArray([])
    ensures ConfigFromResults(deviceName, results) == Ok(AdapterConfig(AdapterSettings := "", TopicRoot := deviceName))
  {
  }

  /**
   * How a row decides the topic root: a non-empty string replaces the device
   * name, a missing, null or empty one leaves it, anything else crashes.
   */
  lemma TopicRootRule(deviceName: string, fields: map<string, Json>)
    ensures var r := ConfigFromRow(deviceName, JObject(fields));
            var v := Lookup(fields, "topic_root");
            && (v == JNull || v == JString("") ==> r.Ok? ==> r.value.TopicRoot == deviceName)
            && (v.JString? && v.s != "" ==> r.Ok? ==> r.value.TopicRoot == v.s)
            && (!v.JNull? && !v.JString? ==> r == Err(TopicRootNotString))
  {
  }

  /**
   * How a row decides the settings: any string, the empty one included, is
   * taken; a missing or null one leaves them empty; anything else crashes.
   */
  lemma AdapterSettingsRule(deviceName: string, fields: map<string, Json>)
    ensures var r := ConfigFromRow(deviceName, JObject(fields));
            var v := Lookup(fields, "adapter_settings");
            && (v == JNull ==> r.Ok? ==> r.value.AdapterSettings == "")
            && (v.JString? ==> r.Ok? ==> r.value.AdapterSettings == v.s)
            && (!v.JNull? && !v.JString? ==> r.Err?)
  {
  }

  /** A row crashes the process exactly when one of the two fields holds something other than a string or null. */
  lemma RowCrashesIff(deviceName: string, fields: map<string, Json>)
    ensures ConfigFromRow(deviceName, JObject(fields)).Err? <==>
              || !(Lookup(fields, "topic_root").JNull? || Lookup(fields, "topic_root").JString?)
              || !(Lookup(fields, "adapter_settings").JNull? || Lookup(fields, "adapter_settings").JString?)
  {
  }

  /** Only the first row is consulted: what follows it never changes the result. */
  lemma OnlyFirstRowConsulted(deviceName: string, r1: map<string, Json>, r2: map<string, Json>,
                              row: Json, rest1: seq<Json>, rest2: seq<Json>)
    requires Lookup(r1, "DATA") == JArray([row] + rest1)
    requires Lookup(r2, "DATA") == JArray([row] + rest2)
    ensures ConfigFromResults(deviceName, r1) == ConfigFromResults(deviceName, r2)
  {
  }

  /** Of a row, only `topic_root` and `adapter_settings` are read. */
  lemma OnlyTwoFieldsConsulted(deviceName: string, f1: map<string, Json>, f2: map<string, Json>)
    requires Lookup(f1, "topic_root") == Lookup(f2, "topic_root")
    requires Lookup(f1, "adapter_settings") == Lookup(f2, "adapter_settings")
    ensures ConfigFromRow(deviceName, JObject(f1)) == ConfigFromRow(deviceName, JObject(f2))
  {
  }

  /** Failed queries are never reported: they only delay the retrieval. */
  lemma {:induction false} FailuresAreRetried(deviceName: string, failures: seq<QueryOutcome>, rest: seq<QueryOutcome>)
    requires forall i :: 0 <= i < |failures| ==> failures[i].QueryFailed?
    ensures FetchSpec(deviceName, failures + rest) == FetchSpec(deviceName, rest)
  {
    if failures == [] {
      assert failures + rest == rest;
    } else {
      assert (failures + rest)[0] == failures[0];
      assert (failures + rest)[1..] == failures[1..] + rest;
      FailuresAreRetried(deviceName, failures[1..], rest);
    }
  }

  /** The retrieval ends with the result of the first successful query, whatever follows it. */
  lemma FirstSuccessDecides(deviceName: string, outcomes: seq<QueryOutcome>, k: nat)
    requires k < |outcomes| && outcomes[k].QuerySucceeded?
    requires forall i :: 0 <= i < k ==> outcomes[i].QueryFailed?
    ensures FetchSpec(deviceName, outcomes) == Finished(ConfigFromResults(deviceName, outcomes[k].results))
  {
    assert outcomes == outcomes[..k] + outcomes[k..];
    FailuresAreRetried(deviceName, outcomes[..k], outcomes[k..]);
  }

  /**
   * The loop's result, as `FetchAdapterConfigLoop` characterises it, is the
   * result of the recursive retry.
   */
  lemma LoopMatchesRecursion(deviceName: string, outcomes: seq<QueryOutcome>, r: FetchResult, attempts: nat)
    requires attempts <= |outcomes|
    requires forall i :: 0 <= i < attempts - 1 ==> outcomes[i].QueryFailed?
    requires r.StillQuerying? <==> forall i :: 0 <= i < |outcomes| ==> outcomes[i].QueryFailed?
    requires !r.StillQuerying? ==>
               && 1 <= attempts
               && outcomes[attempts - 1].QuerySucceeded?
               && r == Finished(ConfigFromResults(deviceName, outcomes[attempts - 1].results))
    ensures r == FetchSpec(deviceName, outcomes)
  {
    if r.StillQuerying? {
      assert outcomes + [] == outcomes;
      FailuresAreRetried(deviceName, outcomes, []);
    } else {
      FirstSuccessDecides(deviceName, outcomes, attempts - 1);
    }
  }

  /** A fetched config always has a topic root, provided the device has a name. */
  lemma {:induction false} FetchedTopicRootNonEmpty(deviceName: string, outcomes: seq<QueryOutcome>)
    requires deviceName != ""
    ensures FetchSpec(deviceName, outcomes).Fetched? ==> FetchSpec(deviceName, outcomes).config.TopicRoot != ""
  {
    if outcomes != [] && outcomes[0].QueryFailed? {
      FetchedTopicRootNonEmpty(deviceName, outcomes[1..]);
    }
  }

  // ---------------------------------------------------------------------------
  // MQTT connection

  /** The values `rand.Intn(10000)` can draw. */
  type RandomSuffix = n: nat | n < 10000

  /** The MQTT client identifier: the device name, a dash, and the random suffix in decimal. */
  function ClientId(deviceName: string, suffix: RandomSuffix): (id: string)
    ensures |deviceName| + 2 <= |id| <= |deviceName| + 5
    ensures id[..|deviceName| + 1] == deviceName + "-"
    ensures Text.AllDigits(id[|deviceName| + 1..])
    ensures Text.ParseDecimal(id[|deviceName| + 1..]) == suffix
    ensures id[|deviceName| + 1] == '0' ==> suffix == 0 && |id| == |deviceName| + 2
  {
    Text.ItoaRoundTrip(suffix);
    Text.ItoaLength(suffix, 4);
    var id := deviceName + "-" + Text.Itoa(suffix);
    assert id[|deviceName| + 1..] == Text.Itoa(suffix);
    id
  }

  /**
   * The postconditions of `ClientId` fix the identifier: any text of that
   * shape is the one `ClientId` builds.
   */
  lemma ClientIdShapeIsUnique(deviceName: string, suffix: RandomSuffix, id: string)
    requires |deviceName| + 2 <= |id|
    requires id[..|deviceName| + 1] == deviceName + "-"
    requires Text.AllDigits(id[|deviceName| + 1..])
    requires Text.ParseDecimal(id[|deviceName| + 1..]) == suffix
    requires id[|deviceName| + 1] == '0' ==> |id| == |deviceName| + 2
    ensures id == ClientId(deviceName, suffix)
  {
    var k := |deviceName| + 1;
    var digits := id[k..];
    assert digits[0] == id[k];
    Text.CanonicalIsItoa(digits);
    assert id == id[..k] + digits;
  }

  /** Different suffixes give the same device different client identifiers. */
  lemma ClientIdDistinguishesSuffixes(deviceName: string, m: RandomSuffix, n: RandomSuffix)
    requires ClientId(deviceName, m) == ClientId(deviceName, n)
    ensures m == n
  {
  }

  /** What `ConnectMQTT` leaves in the package variables for the callbacks. */
  datatype Connection = Connection(topic: string, hasCallback: bool, clientId: string)

  /**
   * Records the topic and callback and initializes the MQTT client under a
   * fresh identifier; `initErr` is what the initialization returned. The
   * wait for the on-connect signal is not modelled.
   */
  method ConnectMQTT(args: AdapterArgs, t: string, hasCallback: bool, suffix: RandomSuffix, initErr: Option<string>)
    returns (conn: Connection, err: Option<string>)
    ensures conn.topic == t && conn.hasCallback == hasCallback
    ensures conn.clientId == ClientId(args.DeviceName, suffix)
    ensures err.None? <==> initErr.None?
    ensures initErr.Some? ==> err == Some("Failed to initialize MQTT connection: " + initErr.value)
  {
    conn := Connection(t, hasCallback, ClientId(args.DeviceName, suffix));
    if initErr.Some? {
      return conn, Some("Failed to initialize MQTT connection: " + initErr.value);
    }
    err := None;
  }

  // ---------------------------------------------------------------------------
  // Subscribing once connected

  /** The error text taken to mean the identity may not subscribe to the topic. */
  const LOST_BEFORE_SUBSCRIBE := "Connection lost before Subscribe completed"

  /** MQTT's lowest delivery guarantee, at most once. */
  const AT_MOST_ONCE: nat := 0

  /** What one `Subscribe` call asks for: a topic and a quality of service. */
  datatype SubscribeRequest = SubscribeRequest(topic: string, qos: nat)

  /** What one `Subscribe` call returned; a channel is known by a number. */
  datatype SubscribeOutcome = Subscribed(channel: nat) | SubscribeFailed(message: string)

  predicate IsPermissionFailure(o: SubscribeOutcome)
  {
    o.SubscribeFailed? && Text.Contains(o.message, LOST_BEFORE_SUBSCRIBE)
  }

  predicate IsRetryable(o: SubscribeOutcome)
  {
    o.SubscribeFailed? && !Text.Contains(o.message, LOST_BEFORE_SUBSCRIBE)
  }

  function PermissionLog(topic: string): string
  {
    "[FATAL] onConnect - Ensure your device has subscribe permissionns to topic " + topic
  }

  /**
   * Where the on-connect callback stands: it did not subscribe, it handed a
   * channel to the message listener, it stopped the process, or it is still
   * retrying when the outcomes run out.
   */
  datatype OnConnectResult = NoSubscription | Listening(channel: nat) | Fatal(log: string) | StillRetrying

  /**
   * The on-connect callback after it has signalled the connection: subscribes
   * to the recorded topic if a topic and a callback were given, retrying after
   * every error except a permission failure. `outcomes` are the results of the
   * successive subscribe calls; `attempts` is how many were made and
   * `requests` what each of them asked for.
   */
  method OnConnect(conn: Connection, outcomes: seq<SubscribeOutcome>)
    returns (r: OnConnectResult, attempts: nat, requests: seq<SubscribeRequest>)
    ensures r == NoSubscription <==> !(conn.topic != "" && conn.hasCallback)
    ensures r == NoSubscription ==> attempts == 0
    ensures attempts <= |outcomes|
    // one subscribe call per attempt, each for the recorded topic at most once
    ensures |requests| == attempts
    ensures forall i :: 0 <= i < |requests| ==> requests[i] == SubscribeRequest(conn.topic, AT_MOST_ONCE)
    ensures forall i :: 0 <= i < attempts - 1 ==> IsRetryable(outcomes[i])
    ensures r.StillRetrying? <==>
              conn.topic != "" && conn.hasCallback && forall i :: 0 <= i < |outcomes| ==> IsRetryable(outcomes[i])
    ensures r.StillRetrying? ==> attempts == |outcomes|
    ensures r.Listening? ==> 1 <= attempts && outcomes[attempts - 1] == Subscribed(r.channel)
    ensures r.Fatal? ==> 1 <= attempts && IsPermissionFailure(outcomes[attempts - 1]) && r.log == PermissionLog(conn.topic)
  {
    if !(conn.topic != "" && conn.hasCallback) {
      return NoSubscription, 0, [];
    }
    if |outcomes| == 0 {
      return StillRetrying, 0, [];
    }
    var outcome := outcomes[0];
    attempts, requests := 1, [SubscribeRequest(conn.topic, AT_MOST_ONCE)];
    while outcome.SubscribeFailed?
      invariant 1 <= attempts <= |outcomes|
      invariant outcome == outcomes[attempts - 1]
      invariant forall i :: 0 <= i < attempts - 1 ==> IsRetryable(outcomes[i])
      invariant |requests| == attempts
      invariant forall i :: 0 <= i < |requests| ==> requests[i] == SubscribeRequest(conn.topic, AT_MOST_ONCE)
      decreases |outcomes| - attempts
    {
      if Text.Contains(outcome.message, LOST_BEFORE_SUBSCRIBE) {
        return Fatal(PermissionLog(conn.topic)), attempts, requests;
      }
      // logged, then retried after 30 seconds
      if attempts == |outcomes| {
        return StillRetrying, attempts, requests;
      }
      outcome := outcomes[attempts];
      attempts, requests := attempts + 1, requests + [SubscribeRequest(conn.topic, AT_MOST_ONCE)];
    }
    r := Listening(outcome.channel);
  }

  // ---------------------------------------------------------------------------
  // Connection lost

  datatype LostDecision = Exit | Continue

  /** What the connection-lost callback does, and the lines it logs in order. */
  datatype LostOutcome = LostOutcome(decision: LostDecision, logs: seq<string>)

  const REAUTH_LOG := "[FATAL] onConnectLost - MQTT Connection was lost and no Device Service Account is being used. Stopping Adapter to force device reauth (this can be avoided by using Device Service Accounts)"

  function LostLog(connErr: string): string
  {
    "[ERROR] onConnectLost - Connection to MQTT broker was lost: " + connErr
  }

  /** The connection-lost callback: exit only when asked to by the flag; otherwise only log. */
  function OnConnectLost(args: AdapterArgs, connErr: string): (r: LostOutcome)
    ensures r.decision == Exit <==> args.FatalOnDisconnect == "true"
    ensures 1 <= |r.logs| <= 2 && r.logs[0] == LostLog(connErr)
    ensures r.decision == Exit ==> |r.logs| == 1
    ensures |r.logs| == 2 <==> args.FatalOnDisconnect != "true" && args.ServiceAccount == ""
    ensures |r.logs| == 2 ==> r.logs[1] == REAUTH_LOG
  {
    if args.FatalOnDisconnect == "true" then
      // the fatal log exits, so the device-reauth check after it never runs
      LostOutcome(Exit, [LostLog(connErr)])
    else
      LostOutcome(Continue, [LostLog(connErr)] + if args.ServiceAccount == "" then [REAUTH_LOG] else [])
  }

  /** A device-credential identity does not stop on a lost connection unless the flag says so. */
  lemma DeviceCredentialLossDoesNotExit(args: AdapterArgs, connErr: string)
    requires args.ServiceAccount == "" && args.FatalOnDisconnect != "true"
    ensures OnConnectLost(args, connErr) == LostOutcome(Continue, [LostLog(connErr), REAUTH_LOG])
  {
  }
}
