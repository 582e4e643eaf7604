# ClearBlade adapter library: start-up and connection decisions

A model of the decision and data logic in the ClearBlade Go adapter library. An adapter
built on it resolves its arguments from command-line flags and environment variables. It
then authenticates to the ClearBlade platform, either as a device or through a device
service account. Next it reads its configuration row (topic root and adapter settings)
from a data collection, retrying every failed query. Finally it connects to the platform's
MQTT broker under a randomised client identifier, subscribes to its topic once connected,
and applies a policy when the connection is lost.

The model treats the SDK, the MQTT client, the environment and the clock as inputs.
- A call into the SDK or the MQTT client is represented by the result it returned: the
  error of `Authenticate`, the answer of the configuration fetch, the error of MQTT
  initialisation.
- A retried call is represented by the sequence of results its successive attempts
  returned. A retry loop runs over that finite sequence and either stops or reports that it
  is still retrying when the sequence runs out.
- A process exit (`log.Fatal*`) or a crash on a failed type assertion is a result value.

Files:
- `wrappers.dfy`: `Option` and `Result`, the stand-ins for nil results and `(value, error)` pairs.
- `json.dfy`: decoded JSON values. A missing map key reads as nil, as in Go.
- `text.dfy`: the `strings.Contains` and `strconv.Itoa` behaviour the decisions depend on,
  plus the decimal reader that inverts `Itoa`.
- `args.dfy` (module `Args`): `adapterArgs` and `ParseArguments` from initialize.go.
- `clearblade.dfy` (module `ClearBlade`): clearblade.go. It covers client construction,
  `fetchAdapterConfig`, the client identifier built in `ConnectMQTT`, the subscribe loop of
  `onConnect` and `onConnectLost`.
- `initialize.dfy` (module `Initialization`): `Initialize` from initialize.go.

Go's package-level variables (`Args`, `deviceClient`, `topic`, `mqttCallback`) are passed in
and returned explicitly. `ParseArguments` returns the `Args` it builds. `ConnectMQTT`
returns a `Connection` record holding the topic, whether a callback was given, and the
client identifier. `OnConnect` reads that record.

`fetchAdapterConfig` retries by recursion in the Go code. Here it is
`FetchAdapterConfigLoop`, a `while` loop over the outcomes of successive queries.
`FetchSpec` is a recursive function that mirrors the recursion, and `LoopMatchesRecursion`
proves that the loop's result equals it. Each attempt starts from fresh defaults and then
overwrites fields one step at a time, as the Go code does. The loop is also proved against
`ConfigFromResults`, a function that gives the config of one successful query result.

In these places the code differs from what its own log messages announce or from what a reader
might expect. The model follows the code.
- On a lost connection without a service account, `onConnectLost` logs "Stopping Adapter to
  force device reauth" (clearblade.go:142) but only prints it and carries on; only
  `FatalOnDisconnect == "true"` stops the process (`DeviceCredentialLossDoesNotExit`). With
  the flag set, the device-reauth `Fatalln` (clearblade.go:136-138) can never run, because the
  `Fatalf` before it has already exited.
- `authWithServiceAccount` logs "Authenticating ... using a Service Account" (clearblade.go:66)
  but then only builds the client and returns nil. No authentication happens, so this path
  cannot fail (`AuthWithServiceAccount`, `Initialize`).
- The device path does not retry: `authWithDevice` returns `Authenticate`'s error
  (clearblade.go:61-62), and `Initialize` returns it at once with a nil config
  (initialize.go:114-116).
- A row's `adapter_settings` is copied whenever it is a string, the empty string included.
  Any other non-nil value crashes the process (clearblade.go:107-108).

## Model

| member | source | states |
|---|---|---|
| `Args.ParseArguments` | initialize.go:38-100 | Each flag-only field takes the flag's value, or its default when the flag is absent. A non-empty `systemKey` flag wins over `CB_SYSTEM_KEY`, which applies only when the flag left the key empty. `CB_SERVICE_ACCOUNT` and `CB_SERVICE_ACCOUNT_TOKEN` overwrite whenever present, even when empty. `CB_EDGE_NAME` always applies when present. With no flags and no environment, the arguments are the defaults and the error is the missing system key. The call succeeds iff the three required-field conditions hold. A missing system key is reported before a missing password, which is reported before a missing token |
| `Args.ArgError.Message` | initialize.go:88-96 | The text of each validation error (no contract; defines the messages) |
| `ClearBlade.AuthWithDevice` | clearblade.go:57-63 | The client carries the device name and password plus the platform and messaging addresses. The error is exactly what `Authenticate` returned |
| `ClearBlade.AuthWithServiceAccount` | clearblade.go:65-69 | The client carries the service account and its token. No error is ever returned |
| `ClearBlade.ConfigFromRow` | clearblade.go:98-111 | Reads the config from one row over the defaults, crashing on the three failed type assertions (definition; properties in the lemmas below) |
| `ClearBlade.ConfigFromResults` | clearblade.go:95-114 | The config one successful query yields: a non-array `DATA` crashes, zero rows give the defaults, otherwise the first row decides (definition) |
| `ClearBlade.FetchSpec` | clearblade.go:88-117 | The recursive retry: a failed query starts again, the first successful one decides (definition) |
| `ClearBlade.FetchAdapterConfigLoop` | clearblade.go:71-118 | The query matches `adapter_name` against the service account when one is set, else against the device name, in the configured collection. Every attempt but the last failed. The result is "still querying" iff every outcome failed, and then all were attempted. Otherwise the last attempt succeeded and its result alone gives the config or the crash |
| `ClearBlade.LoopMatchesRecursion` | clearblade.go:88-117 | Any result and attempt count meeting `FetchAdapterConfigLoop`'s postconditions equal the recursive retry `FetchSpec`, so the loop and the Go recursion agree |
| `ClearBlade.ZeroRowsGiveDefaults` | clearblade.go:95-114 | With zero rows, the config is exactly topic root = device name and settings = "" |
| `ClearBlade.TopicRootRule` | clearblade.go:100-103 | A missing, null or empty `topic_root` leaves the device name. A non-empty string replaces it. Any other value crashes the process |
| `ClearBlade.AdapterSettingsRule` | clearblade.go:106-111 | A missing or null `adapter_settings` leaves "". Any string is taken, "" included. Any other value crashes the process |
| `ClearBlade.RowCrashesIff` | clearblade.go:98-108 | An object row crashes iff `topic_root` or `adapter_settings` holds something other than a string or null |
| `ClearBlade.OnlyFirstRowConsulted` | clearblade.go:95-98 | Rows after the first never change the result |
| `ClearBlade.OnlyTwoFieldsConsulted` | clearblade.go:98-111 | Rows that agree on `topic_root` and `adapter_settings` give the same result |
| `ClearBlade.FailuresAreRetried` | clearblade.go:88-94 | Any run of failed queries before the rest leaves the result unchanged. A query error is never reported |
| `ClearBlade.FirstSuccessDecides` | clearblade.go:88-117 | The result is that of the first successful query, whatever follows it |
| `ClearBlade.FetchedTopicRootNonEmpty` | clearblade.go:73-103 | For a device with a name, a fetched config always has a non-empty topic root |
| `ClearBlade.ClientId` | clearblade.go:42 | The identifier is the device name, then "-", then one to four decimal digits that read back as the random suffix (`0 <= n < 10000`). A leading '0' occurs only as the whole text "0" of suffix 0 |
| `ClearBlade.ClientIdShapeIsUnique` | clearblade.go:42 | Any text meeting `ClientId`'s postconditions is the identifier `ClientId` builds, so the contract fixes the text as `strconv.Itoa`'s decimal |
| `ClearBlade.ClientIdDistinguishesSuffixes` | clearblade.go:42 | Two suffixes that give one device the same identifier are equal |
| `ClearBlade.ConnectMQTT` | clearblade.go:36-47 | Records the topic and whether a callback was given. Builds the identifier with `ClientId`. Fails iff MQTT initialisation failed, wrapping its message |
| `ClearBlade.OnConnect` | clearblade.go:147-170 | Subscribes iff a topic is set and a callback is given, and never otherwise. Each attempt is one subscribe call to the recorded topic at QoS 0 (at most once). Every attempt but the last was a retryable error. An error containing "Connection lost before Subscribe completed" is fatal and nothing follows it. The first success hands its channel to the listener. It is still retrying iff every outcome was retryable, after trying them all |
| `ClearBlade.OnConnectLost` | clearblade.go:133-145 | Exits iff `FatalOnDisconnect` is exactly "true". The first log line is the lost-connection error. On exit nothing else is logged, so the device-reauth line after `Fatalf` is unreachable. Otherwise the reauth line is logged iff no service account is used |
| `ClearBlade.DeviceCredentialLossDoesNotExit` | clearblade.go:139-143 | Without the fatal flag, a device identity continues after a lost connection and only logs |
| `Text.Contains` | clearblade.go:157 | `strings.Contains`: true iff `sub` occurs at some position of `s` |
| `Text.ItoaRoundTrip` | clearblade.go:42 | `strconv.Itoa` of a non-negative number is non-empty, all digits, has no leading zero unless the number is zero, and reads back as the number |
| `Text.CanonicalIsItoa` | clearblade.go:42 | A digit string with no leading zero (other than "0" itself) is the `strconv.Itoa` text of its value, so each number has one such text |
| `Text.ItoaLength` | clearblade.go:42 | A number below 10^k takes at most k digits |
| `Initialization.Initialize` | initialize.go:102-127 | Uses service-account credentials iff a service account is set, else the device name and password. The fetch runs iff authentication did not fail, and the service-account path cannot fail. An authentication error comes back with no config. A fetch error comes back with no config. Without a fetch error, the fetched config is passed through unchanged, including a nil one, so `(nil, nil)` can come back. A config never comes back together with an error |

## Left out

- The MQTT and SDK calls themselves (`NewDeviceClient*`, `Authenticate`, `GetDataByName`, `InitializeMQTTWithCallback`, `Subscribe`): their results are inputs.
- `Publish`, `PublishGetToken`, `PublishStatus` and the `ConnectionStatus` JSON tags: pass-through wrappers with no decision in them.
- The `cbMessageListener` goroutine: it depends on channels and goroutines. Once its channel closes it spins forever rather than returning.
- The `connChannel` handshake, the blocking wait in `ConnectMQTT` and the callback thread: concurrency. `ConnectMQTT` is modelled up to the wait.
- `time.Sleep` delays (30 s), `rand.Seed` and `rand.Intn`: the random suffix is an input bounded to `0..9999`.
- `flag.Parse` and `os.LookupEnv`: the set flags and the environment are maps. Unknown flags, which make `flag.Parse` exit, are not modelled.
- Logging configuration (logging.go) and log lines other than those of `onConnectLost` and the fatal subscribe message.
- The configuration fetch called by `Initialize` is not defined in these sources. Its `(config, error)` answer is an input to `Initialize` as two optional halves, and the model does not assume it is `fetchAdapterConfig` (`FetchAdapterConfigLoop`).
- The system secret: clearblade.go passes `Args.SystemSecret` to the SDK, but `adapterArgs` declares no such field. `DeviceClient` therefore omits it.
- The package-level variables are passed and returned explicitly instead of being assigned in place.
- JSON numbers are kept as their literal text. The model only needs to know that a number is not a string.
