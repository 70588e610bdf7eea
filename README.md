# redis.go, modelled in Dafny

This project models `redis.go`, the small connection registry of the
verystar/redis Go package. The package keeps a process-wide map from
connection names to go-redis client handles.

- `Connect(configs)` resets the registry and builds a client per named
  configuration to probe it with `Ping`. When the probe fails, its error is
  collected. When it answers, that probed client is dropped, and a second
  client is built from the same configuration and installed. On exit, a
  deferred check panics with all collected errors, but only when errors are
  held; these include errors collected by earlier calls.
- `Client(name...)` looks a handle up by name. It falls back to `"default"`
  and panics for a name that is not registered.
- `newRedis(conf)` turns a configuration into client options. A non-empty
  master name selects sentinel (failover) mode, and then the comma-separated
  sentinel address list is split. Positive retry counts and positive timeouts
  in seconds override the library defaults. In sentinel mode only, a
  mutual-TLS configuration is attached when a certificate, a key and a CA
  certificate are all given and parse; when they do not parse, `newRedis`
  panics.
- `Open` and `OpenSentinel` build the options record that the library
  constructors receive. `Open` applies its option functions in order.

Files:

- `wrappers.dfy` — `Option` and `Result`.
- `text.dfy` — `strings.Split` and `strings.Join` for a one-character
  separator, with their round-trip lemmas.
- `options.dfy` — configurations, option records, `Open`, `OpenSentinel` and
  `newRedis` (`NewRedis`).
- `registry.dfy` — the handle class and the registry class with `Client` and
  `Connect`.

`Connect` is proved against a pure description of its loop:

- `Step` is one pass of the loop, `Run` the whole loop, `Exit` the deferred
  check.
- The methods `Visit` (one pass) and `Fill` (the loop) are proved to change
  the registry as `Step` and `Run` say.
- The lemmas `ConnectInstalls`, `ConnectErrors`, `ConnectOrderFree` and
  `ConnectOutcome` state what that description means for the registry.

## Model

| member | source | states |
|---|---|---|
| Text.Split | redis.go:108 | there is always at least one piece, and a string without the separator is a single piece equal to itself |
| Text.Join | redis.go:76 | joining no parts gives the empty string, and a join of parts starts with the first part |
| Text.JoinLength | redis.go:76 | a join is as long as all parts together plus one separator fewer than there are parts |
| Text.SplitCount | redis.go:108 | splitting the sentinel address list gives one more piece than there are commas |
| Text.SplitPiecesAreFree | redis.go:108 | no sentinel address produced by the split contains a comma |
| Text.JoinSplit | redis.go:108 | joining the pieces with the separator gives back the original string, so nothing is lost or reordered |
| Text.SplitJoin | redis.go:108 | splitting the join of comma-free parts gives back exactly those parts |
| Text.SplitThreeEndpoints | redis.go:108 | "a:1,b:2,c:3" splits into "a:1", "b:2" and "c:3" |
| RedisOptions.Duration | redis.go:118-119 | a timeout in seconds becomes that many nanoseconds when it fits in 64 bits; otherwise it wraps modulo 2^64 as Go's int64 multiplication does |
| RedisOptions.DurationOverflows | redis.go:118-119 | one second beyond the largest representable timeout wraps to a negative duration |
| RedisOptions.ConfiguredTuning | redis.go:114-128 | each of retries, dial, read and write timeout takes the configured value (timeouts in nanoseconds) when it is positive, and keeps the zero default otherwise |
| RedisOptions.ApplyAllLast | redis.go:59-61 | applying options in order means the last one is applied to the result of all earlier ones |
| RedisOptions.ApplyAllAppend | redis.go:59-61 | applying two lists of options is applying the first list, then the second |
| RedisOptions.Open | redis.go:53-64 | the record starts with only `Addr` set and each option updates it in turn: no options leave the base record, and the last option is applied last |
| RedisOptions.OpenSentinel | redis.go:67-71 | the single option is applied once, to the zero-valued failover record; every field the option leaves alone (master name, addresses, credentials, DB, retries, timeouts, TLS) keeps its zero value in the result, and a panic of the option is the outcome |
| RedisOptions.DirectOption | redis.go:154-173 | the direct-mode closure keeps the address, sets password and DB, and for retries and each timeout installs the configured value (seconds as a duration) when it is positive and keeps the record's value otherwise |
| RedisOptions.SentinelOption | redis.go:106-151 | the sentinel closure panics exactly when all TLS material is present and the key pair or CA certificate does not parse; otherwise it sets master name, split addresses, credentials, password and DB, overrides retries and timeouts only with positive values, and attaches mutual TLS exactly when all material is present, leaving the record's TLS setting otherwise |
| RedisOptions.DirectOptions | redis.go:154-173 | direct mode addresses `Server`, copies password and DB, and tunes exactly as `ConfiguredTuning` says |
| RedisOptions.SentinelOptions | redis.go:105-151 | sentinel mode fails exactly when all TLS material is present and the key pair or the CA certificate does not parse, with the source's two messages; otherwise it copies the master name and credentials, splits the addresses on ',', tunes as `ConfiguredTuning` says, and attaches the mutual-TLS configuration exactly when all material is present |
| RedisOptions.NewRedis | redis.go:103-174 | an empty master name selects direct mode, which never fails and never has TLS; a non-empty one selects failover mode, whose record is exactly the sentinel-mode record; it fails only in the TLS case; both modes tune identically and copy password and DB; TLS requires client certificates, TLS 1.2 and the configured pair |
| RedisOptions.SameTuningInBothModes | redis.go:114-128 | the same configuration gives the same retries and timeouts in sentinel and in direct mode |
| Registry.NotConfigured | redis.go:45-48 | the panic message for a missing client contains the requested name |
| Registry.Aggregate | redis.go:76 | the exit panic message starts with "[redis] ", followed directly by the first held error |
| Registry.AggregateLines | redis.go:76 | when no error spans several lines, the lines after the prefix are exactly the held errors, in order |
| Registry.Exit | redis.go:74-78 | the deferred check lets the call return normally exactly when no error is held and no build panicked; held errors always give the aggregated panic, and a build panic alone propagates |
| Registry.Handle.constructor | redis.go:91 | a new client handle carries the options it was built from |
| Registry.Reached | redis.go:81-82 | the loop gets through exactly the entries before the first configuration whose client cannot be built |
| Registry.ProbeErrorsLast | redis.go:85-88 | visiting one more entry appends its probe error, if any, after the earlier ones |
| Registry.ProbeErrorsEmpty | redis.go:85-88 | no error is collected exactly when every probe succeeds |
| Registry.ProbeErrorsCount | redis.go:85-88 | over distinct names, one error is collected per failed probe |
| Registry.RunAfterFault | redis.go:82 | once building a client panics, the remaining entries change nothing |
| Registry.RunReplacesNothing | redis.go:80-98 | starting from the fresh map, a pass over distinct names never finds an existing handle to replace, so nothing is closed |
| Registry.RunClean | redis.go:81-98 | when every client builds: no panic, errors appended in visiting order, exactly the names whose probe succeeded installed with the options their configuration yields |
| Registry.ConnectInstalls | redis.go:80-98 | after a call, the registry holds exactly the names before the first failing build whose probe succeeded, each with its own configuration's options, and no handle was replaced |
| Registry.ConnectErrors | redis.go:81-88 | after a call, one error per failed probe before the first failing build is appended to the held errors in visiting order, and that build's panic, if any, is kept |
| Registry.ConnectOrderFree | redis.go:81-98 | when every client builds, the installed names are exactly the configured names whose probe succeeds, and the number of new errors is the number of failed probes, whatever the iteration order |
| Registry.ConnectOutcome | redis.go:73-78 | the call returns normally exactly when no error is held from any call, every client builds and every probe succeeds; held errors always end it with the aggregated panic |
| Registry.Registry.constructor | redis.go:14-17 | the package starts with an empty registry and no errors |
| Registry.Registry.Client | redis.go:38-50 | with no name the "default" handle is returned, otherwise the first name's; a missing name panics with a message naming it; an empty, non-nil name list panics with Go's index-out-of-range error |
| Registry.Registry.Visit | redis.go:82-98 | one loop pass changes the registry as `Step` says: a build panic stops and a failed probe appends its error, both leaving handles and closed list untouched; a success installs a new handle under the name; every other name keeps its handle; only a replaced handle is closed |
| Registry.Registry.Fill | redis.go:81-99 | the loop, started on the reset registry, leaves it as `Run` describes, with only new handles, nothing closed, and the build panic that stopped it, if any |
| Registry.Registry.Connect | redis.go:73-100 | the registry is reset and then holds what `Run` describes, with only new handles; no handle is closed; the call ends as the deferred check `Exit` decides |

## Left out

- Building the go-redis clients, the network and `Ping` are not modelled.
  - A handle is an object that remembers the options it was built from.
  - The result of `Ping` for each name is a parameter, `probe`.
- Parsing PEM certificates and keys is a parameter, `X509`. It says whether
  the key pair loads, with the library's error text, and whether the CA
  certificate parses.
- Logging of each connection (redis.go:83) is not modelled.
- Go leaves map iteration order open, so it is a parameter, `order`. The
  parameter lists every configured name exactly once.
  `Registry.ConnectOrderFree` states what does not depend on it.
- Concurrency is not modelled. No locking exists in the source.
- Panics are results: `Err` with the panic message, or the `Outcome` of
  `Connect`. When building a client panics, `Connect` stops. When errors are
  held, the deferred check replaces that panic with its own, as `recover`
  sees it.
- Go's `int` is taken to be 64 bits wide.
- Registry.Registry.Connect: passes `newRedis` on as the function value
  `NewRedisWith(x509)`. `Fill` and `Visit` receive it as `build`. The builder
  is pure, so calling it twice per entry gives the same result both times.
- Registry.Registry.Visit: the handle used for the probe is dropped and never
  closed, as in the source.
- `Open` and `OpenSentinel` options are total functions. An option passed to
  `Open` cannot panic in this model; the options that `newRedis` passes to
  `OpenSentinel` carry their TLS panics as `Err`.
- `OpenSentinel` is modelled only as the function that `SentinelOptions`
  calls. It applies one option to the zero `FailoverOptions` record.
- Direct mode never configures TLS, even when certificates are given, as in
  the source.
- Handles registered by an earlier `Connect` are dropped without being
  closed.
  - Each call starts from a new empty map (redis.go:80).
  - Each name is visited once per call, so the replace-and-close branch
    (redis.go:93-95) is never taken.
  - The model follows the code: `Connect` ensures that nothing is closed.
