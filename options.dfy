/**
 * The configuration record of one named redis connection and its
 * translation into the option records handed to the go-redis client
 * library: `Config`, `newRedis`, `Open` and `OpenSentinel` of redis.go.
 *
 * Go's `int` and `time.Duration` are 64-bit; the model keeps them in
 * `Int64` and writes the wrap-around of the seconds-to-nanoseconds
 * multiplication out explicitly.
 */
module RedisOptions {
  import opened Wrappers
  import Text

  const MinInt64: int := -0x8000_0000_0000_0000
  const MaxInt64: int := 0x7fff_ffff_ffff_ffff
  const TwoTo64: int := 0x1_0000_0000_0000_0000

  /** Go's `int` on a 64-bit platform, and `time.Duration`. */
  type Int64 = x: int | -0x8000_0000_0000_0000 <= x <= 0x7fff_ffff_ffff_ffff

  /** `time.Second`, in nanoseconds. */
  const Second: int := 1_000_000_000

  /** The largest number of seconds whose duration does not overflow. */
  const MaxSeconds: int := MaxInt64 / Second

  /** Two's-complement truncation of a mathematical integer to 64 bits. */
  function Wrap64(x: int): (r: Int64)
    ensures MinInt64 <= x <= MaxInt64 ==> r == x
    ensures (x - r) % TwoTo64 == 0
  {
    (x - MinInt64) % TwoTo64 + MinInt64
  }

  /** `time.Duration(seconds) * time.Second`, with Go's silent overflow. */
  function Duration(seconds: Int64): (d: Int64)
    ensures 0 <= seconds <= MaxSeconds ==> d == seconds * Second
    ensures (seconds * Second - d) % TwoTo64 == 0
  {
    Wrap64(seconds * Second)
  }

  /** One second more than `MaxSeconds` already wraps to a negative duration. */
  lemma DurationOverflows()
    ensures Duration(MaxSeconds + 1) < 0
  {
  }

  /** The `Config` record of one named connection. */
  datatype Config = Config(
    server: string,
    password: string,
    db: Int64,
    maxRetries: Int64,
    dialTimeout: Int64,   // seconds
    readTimeout: Int64,   // seconds
    writeTimeout: Int64,  // seconds
    masterName: string,
    sentinelAddrs: string,
    sentinelUsername: string,
    sentinelPassword: string,
    caCert: string,       // PEM content
    certFile: string,     // PEM content
    certKey: string)      // PEM content

  /** TLS is wanted when all three pieces of PEM material are non-empty. */
  predicate HasTlsMaterial(conf: Config)
  {
    |conf.certKey| > 0 && |conf.certFile| > 0 && |conf.caCert| > 0
  }

  /**
   * What the platform's PEM/X.509 parsers say about the material; the
   * parsers themselves are not part of this model. `keyPairError(cert, key)`
   * is the error of `tls.X509KeyPair`, if any; `caParses(pem)` is the result
   * of `CertPool.AppendCertsFromPEM`.
   */
  datatype X509 = X509(keyPairError: (string, string) -> Option<string>, caParses: string -> bool)

  /** `tls.ClientAuthType`. */
  datatype ClientAuthType =
    | NoClientCert
    | RequestClientCert
    | RequireAnyClientCert
    | VerifyClientCertIfGiven
    | RequireAndVerifyClientCert

  /** `tls.VersionTLS12`. */
  const VersionTLS12: int := 0x0303

  /** A client key pair, named by the PEM material it was parsed from. */
  datatype Certificate = Certificate(certPem: string, keyPem: string)

  /** A trust pool, named by the PEM material appended to it. */
  datatype CertPool = CertPool(pems: seq<string>)

  /** The fields of `tls.Config` that redis.go sets. */
  datatype TlsConfig = TlsConfig(
    clientAuth: ClientAuthType,
    certificates: seq<Certificate>,
    minVersion: int,
    rootCAs: CertPool)

  /** The fields of go-redis `Options` (direct mode) that redis.go sets. */
  datatype Options = Options(
    addr: string,
    password: string,
    db: Int64,
    maxRetries: Int64,
    dialTimeout: Int64,
    readTimeout: Int64,
    writeTimeout: Int64)

  /** The fields of go-redis `FailoverOptions` (sentinel mode) that redis.go sets. */
  datatype FailoverOptions = FailoverOptions(
    masterName: string,
    sentinelAddrs: seq<string>,
    sentinelUsername: string,
    sentinelPassword: string,
    password: string,
    db: Int64,
    maxRetries: Int64,
    dialTimeout: Int64,
    readTimeout: Int64,
    writeTimeout: Int64,
    tlsConfig: Option<TlsConfig>)

  /** The retry count and the three timeouts, common to both option records. */
  datatype Tuning = Tuning(maxRetries: Int64, dialTimeout: Int64, readTimeout: Int64, writeTimeout: Int64)

  /** The options a client handle is built from, in either mode. */
  datatype ClientOptions = Direct(options: Options) | Failover(failover: FailoverOptions)
  {
    function Tunables(): Tuning
    {
      match this
      case Direct(o) => Tuning(o.maxRetries, o.dialTimeout, o.readTimeout, o.writeTimeout)
      case Failover(f) => Tuning(f.maxRetries, f.dialTimeout, f.readTimeout, f.writeTimeout)
    }

    function Password(): string
    {
      if Direct? then options.password else failover.password
    }

    function Db(): Int64
    {
      if Direct? then options.db else failover.db
    }

    function Tls(): Option<TlsConfig>
    {
      if Direct? then None else failover.tlsConfig
    }
  }

  /**
   * Reference definition of the tuning a configuration asks for: each value
   * counts only when positive, and zero (the library default) stays otherwise.
   */
  function ConfiguredTuning(conf: Config): (t: Tuning)
    ensures conf.maxRetries > 0 ==> t.maxRetries == conf.maxRetries
    ensures conf.maxRetries <= 0 ==> t.maxRetries == 0
    ensures 0 < conf.dialTimeout <= MaxSeconds ==> t.dialTimeout == conf.dialTimeout * Second
    ensures 0 < conf.readTimeout <= MaxSeconds ==> t.readTimeout == conf.readTimeout * Second
    ensures 0 < conf.writeTimeout <= MaxSeconds ==> t.writeTimeout == conf.writeTimeout * Second
    ensures conf.dialTimeout > 0 ==> t.dialTimeout == Duration(conf.dialTimeout)
    ensures conf.readTimeout > 0 ==> t.readTimeout == Duration(conf.readTimeout)
    ensures conf.writeTimeout > 0 ==> t.writeTimeout == Duration(conf.writeTimeout)
    ensures conf.dialTimeout <= 0 ==> t.dialTimeout == 0
    ensures conf.readTimeout <= 0 ==> t.readTimeout == 0
    ensures conf.writeTimeout <= 0 ==> t.writeTimeout == 0
  {
    Tuning(
      if conf.maxRetries > 0 then conf.maxRetries else 0,
      if conf.dialTimeout > 0 then Duration(conf.dialTimeout) else 0,
      if conf.readTimeout > 0 then Duration(conf.readTimeout) else 0,
      if conf.writeTimeout > 0 then Duration(conf.writeTimeout) else 0)
  }

  // ---------------------------------------------------------------------
  // Open: option functions applied left to right to a base record

  /** The record `Open` starts from: only `Addr` is set. */
  function BaseOptions(addr: string): Options
  {
    Options(addr, "", 0, 0, 0, 0, 0)
  }

  /** The option functions applied in turn, the first one first. */
  function ApplyAll(o: Options, options: seq<Options -> Options>): Options
    decreases |options|
  {
    if options == [] then o else ApplyAll(options[0](o), options[1..])
  }

  /** The last option is applied last: whatever it sets wins. */
  lemma {:induction false} ApplyAllLast(o: Options, options: seq<Options -> Options>, f: Options -> Options)
    ensures ApplyAll(o, options + [f]) == f(ApplyAll(o, options))
    decreases |options|
  {
    if options != [] {
      ApplyAllLast(options[0](o), options[1..], f);
      assert (options + [f])[1..] == options[1..] + [f];
    }
  }

  /** Applying two lists of options is applying the first, then the second. */
  lemma {:induction false} ApplyAllAppend(o: Options, xs: seq<Options -> Options>, ys: seq<Options -> Options>)
    ensures ApplyAll(o, xs + ys) == ApplyAll(ApplyAll(o, xs), ys)
    decreases |xs|
  {
    if xs == [] {
      assert xs + ys == ys;
    } else {
      ApplyAllAppend(xs[0](o), xs[1..], ys);
      assert (xs + ys)[1..] == xs[1..] + ys;
    }
  }

  /**
   * `Open(addr, options...)`: the options record handed to `redis.NewClient`.
   * It starts from a record with only `Addr` set and lets each option update
   * it in turn.
   */
  method Open(addr: string, options: seq<Options -> Options>) returns (o: Options)
    ensures o == ApplyAll(BaseOptions(addr), options)
    ensures options == [] ==> o == BaseOptions(addr)
    ensures options != [] ==> o == options[|options| - 1](ApplyAll(BaseOptions(addr), options[..|options| - 1]))
  {
    o := BaseOptions(addr);
    for i := 0 to |options|
      invariant o == ApplyAll(BaseOptions(addr), options[..i])
    {
      ApplyAllLast(BaseOptions(addr), options[..i], options[i]);
      assert options[..i + 1] == options[..i] + [options[i]];
      o := options[i](o);
    }
    assert options[..|options|] == options;
    if options != [] {
      var n := |options| - 1;
      ApplyAllLast(BaseOptions(addr), options[..n], options[n]);
      assert options[..n] + [options[n]] == options;
    }
  }

  // ---------------------------------------------------------------------
  // OpenSentinel: one option function applied to the zero record

  /** The zero `FailoverOptions` record: Go's zero value of every field. */
  function ZeroFailoverOptions(): (z: FailoverOptions)
    ensures z.masterName == "" && z.sentinelAddrs == []
    ensures z.sentinelUsername == "" && z.sentinelPassword == "" && z.password == "" && z.db == 0
    ensures z.maxRetries == 0 && z.dialTimeout == 0 && z.readTimeout == 0 && z.writeTimeout == 0
    ensures z.tlsConfig.None?
  {
    FailoverOptions("", [], "", "", "", 0, 0, 0, 0, 0, None)
  }

  /**
   * `OpenSentinel(option)`: the failover record handed to
   * `redis.NewFailoverClient`. The option may panic, which is `Err`. The
   * option runs on the zero record, so every field it leaves alone keeps its
   * zero value.
   */
  function OpenSentinel(option: FailoverOptions -> Result<FailoverOptions>): (r: Result<FailoverOptions>)
    ensures r == option(ZeroFailoverOptions())
    ensures (forall o: FailoverOptions :: option(o).Ok? ==> option(o).value.masterName == o.masterName) && r.Ok? ==> r.value.masterName == ""
    ensures (forall o: FailoverOptions :: option(o).Ok? ==> option(o).value.sentinelAddrs == o.sentinelAddrs) && r.Ok? ==> r.value.sentinelAddrs == []
    ensures (forall o: FailoverOptions :: option(o).Ok? ==> option(o).value.sentinelUsername == o.sentinelUsername) && r.Ok? ==> r.value.sentinelUsername == ""
    ensures (forall o: FailoverOptions :: option(o).Ok? ==> option(o).value.sentinelPassword == o.sentinelPassword) && r.Ok? ==> r.value.sentinelPassword == ""
    ensures (forall o: FailoverOptions :: option(o).Ok? ==> option(o).value.password == o.password) && r.Ok? ==> r.value.password == ""
    ensures (forall o: FailoverOptions :: option(o).Ok? ==> option(o).value.db == o.db) && r.Ok? ==> r.value.db == 0
    ensures (forall o: FailoverOptions :: option(o).Ok? ==> option(o).value.maxRetries == o.maxRetries) && r.Ok? ==> r.value.maxRetries == 0
    ensures (forall o: FailoverOptions :: option(o).Ok? ==> option(o).value.dialTimeout == o.dialTimeout) && r.Ok? ==> r.value.dialTimeout == 0
    ensures (forall o: FailoverOptions :: option(o).Ok? ==> option(o).value.readTimeout == o.readTimeout) && r.Ok? ==> r.value.readTimeout == 0
    ensures (forall o: FailoverOptions :: option(o).Ok? ==> option(o).value.writeTimeout == o.writeTimeout) && r.Ok? ==> r.value.writeTimeout == 0
    ensures (forall o: FailoverOptions :: option(o).Ok? ==> option(o).value.tlsConfig == o.tlsConfig) && r.Ok? ==> r.value.tlsConfig == None
  {
    option(ZeroFailoverOptions())
  }

  // ---------------------------------------------------------------------
  // newRedis: the closures it passes and the options they produce

  /** An override that takes effect only for a positive value. */
  function IfPositive(value: Int64, current: Int64): Int64
  {
    if value > 0 then value else current
  }

  /** A timeout override in seconds that takes effect only for a positive value. */
  function SecondsIfPositive(seconds: Int64, current: Int64): Int64
  {
    if seconds > 0 then Duration(seconds) else current
  }

  /**
   * The closure `newRedis` passes to `Open` in direct mode. It keeps the
   * address, sets password and DB, and overrides a setting only when the
   * configured value is positive.
   */
  function DirectOption(conf: Config): (f: Options -> Options)
    ensures forall o: Options :: f(o).addr == o.addr && f(o).password == conf.password && f(o).db == conf.db
    ensures forall o: Options :: conf.maxRetries > 0 ==> f(o).maxRetries == conf.maxRetries
    ensures forall o: Options :: conf.maxRetries <= 0 ==> f(o).maxRetries == o.maxRetries
    ensures forall o: Options :: conf.dialTimeout > 0 ==> f(o).dialTimeout == Duration(conf.dialTimeout)
    ensures forall o: Options :: conf.dialTimeout <= 0 ==> f(o).dialTimeout == o.dialTimeout
    ensures forall o: Options :: conf.readTimeout > 0 ==> f(o).readTimeout == Duration(conf.readTimeout)
    ensures forall o: Options :: conf.readTimeout <= 0 ==> f(o).readTimeout == o.readTimeout
    ensures forall o: Options :: conf.writeTimeout > 0 ==> f(o).writeTimeout == Duration(conf.writeTimeout)
    ensures forall o: Options :: conf.writeTimeout <= 0 ==> f(o).writeTimeout == o.writeTimeout
  {
    (o: Options) => o.(
      password := conf.password,
      db := conf.db,
      maxRetries := IfPositive(conf.maxRetries, o.maxRetries),
      dialTimeout := SecondsIfPositive(conf.dialTimeout, o.dialTimeout),
      readTimeout := SecondsIfPositive(conf.readTimeout, o.readTimeout),
      writeTimeout := SecondsIfPositive(conf.writeTimeout, o.writeTimeout))
  }

  /** The TLS configuration built when all PEM material is present and parses. */
  function MutualTls(conf: Config): TlsConfig
  {
    TlsConfig(
      RequireAndVerifyClientCert,
      [Certificate(conf.certFile, conf.certKey)],
      VersionTLS12,
      CertPool([conf.caCert]))
  }

  /**
   * The closure `newRedis` passes to `OpenSentinel`; the two TLS panics
   * become `Err`. It fails exactly when all TLS material is given and does
   * not load; otherwise it sets the sentinel fields, overrides a setting
   * only when the configured value is positive, and attaches TLS exactly when
   * all material is given.
   */
  function SentinelOption(conf: Config, x509: X509): (f: FailoverOptions -> Result<FailoverOptions>)
    ensures forall o: FailoverOptions :: f(o).Err? <==>
      HasTlsMaterial(conf) && (x509.keyPairError(conf.certFile, conf.certKey).Some? || !x509.caParses(conf.caCert))
    ensures forall o: FailoverOptions :: f(o).Ok? ==>
      f(o).value.masterName == conf.masterName && f(o).value.sentinelAddrs == Text.Split(conf.sentinelAddrs, ',')
    ensures forall o: FailoverOptions :: f(o).Ok? ==>
      f(o).value.sentinelUsername == conf.sentinelUsername && f(o).value.sentinelPassword == conf.sentinelPassword
    ensures forall o: FailoverOptions :: f(o).Ok? ==> f(o).value.password == conf.password && f(o).value.db == conf.db
    ensures forall o: FailoverOptions :: f(o).Ok? && conf.maxRetries > 0 ==> f(o).value.maxRetries == conf.maxRetries
    ensures forall o: FailoverOptions :: f(o).Ok? && conf.maxRetries <= 0 ==> f(o).value.maxRetries == o.maxRetries
    ensures forall o: FailoverOptions :: f(o).Ok? && conf.dialTimeout > 0 ==> f(o).value.dialTimeout == Duration(conf.dialTimeout)
    ensures forall o: FailoverOptions :: f(o).Ok? && conf.dialTimeout <= 0 ==> f(o).value.dialTimeout == o.dialTimeout
    ensures forall o: FailoverOptions :: f(o).Ok? && conf.readTimeout > 0 ==> f(o).value.readTimeout == Duration(conf.readTimeout)
    ensures forall o: FailoverOptions :: f(o).Ok? && conf.readTimeout <= 0 ==> f(o).value.readTimeout == o.readTimeout
    ensures forall o: FailoverOptions :: f(o).Ok? && conf.writeTimeout > 0 ==> f(o).value.writeTimeout == Duration(conf.writeTimeout)
    ensures forall o: FailoverOptions :: f(o).Ok? && conf.writeTimeout <= 0 ==> f(o).value.writeTimeout == o.writeTimeout
    ensures forall o: FailoverOptions :: f(o).Ok? && HasTlsMaterial(conf) ==> f(o).value.tlsConfig == Some(MutualTls(conf))
    ensures forall o: FailoverOptions :: f(o).Ok? && !HasTlsMaterial(conf) ==> f(o).value.tlsConfig == o.tlsConfig
  {
    (o: FailoverOptions) => ConfigureFailover(conf, x509, o)
  }

  /**
   * What `SentinelOption(conf, x509)` does to one record `o`. The closure
   * body lives here so that the quantified contract of `SentinelOption`
   * follows from this per-record one cheaply.
   */
  function ConfigureFailover(conf: Config, x509: X509, o: FailoverOptions): (r: Result<FailoverOptions>)
    ensures r.Err? <==>
      HasTlsMaterial(conf) && (x509.keyPairError(conf.certFile, conf.certKey).Some? || !x509.caParses(conf.caCert))
    ensures r.Ok? ==> r.value.masterName == conf.masterName && r.value.sentinelAddrs == Text.Split(conf.sentinelAddrs, ',')
    ensures r.Ok? ==> r.value.sentinelUsername == conf.sentinelUsername && r.value.sentinelPassword == conf.sentinelPassword
    ensures r.Ok? ==> r.value.password == conf.password && r.value.db == conf.db
    ensures r.Ok? ==> r.value.maxRetries == IfPositive(conf.maxRetries, o.maxRetries)
    ensures r.Ok? ==> r.value.dialTimeout == SecondsIfPositive(conf.dialTimeout, o.dialTimeout)
    ensures r.Ok? ==> r.value.readTimeout == SecondsIfPositive(conf.readTimeout, o.readTimeout)
    ensures r.Ok? ==> r.value.writeTimeout == SecondsIfPositive(conf.writeTimeout, o.writeTimeout)
    ensures r.Ok? ==> r.value.tlsConfig == if HasTlsMaterial(conf) then Some(MutualTls(conf)) else o.tlsConfig
  {
    var plain := o.(
      masterName := conf.masterName,
      sentinelAddrs := Text.Split(conf.sentinelAddrs, ','),
      sentinelPassword := conf.sentinelPassword,
      sentinelUsername := conf.sentinelUsername,
      password := conf.password,
      db := conf.db,
      maxRetries := IfPositive(conf.maxRetries, o.maxRetries),
      dialTimeout := SecondsIfPositive(conf.dialTimeout, o.dialTimeout),
      readTimeout := SecondsIfPositive(conf.readTimeout, o.readTimeout),
      writeTimeout := SecondsIfPositive(conf.writeTimeout, o.writeTimeout));
    if HasTlsMaterial(conf) then
      match x509.keyPairError(conf.certFile, conf.certKey)
      case Some(e) => Err("Unable to load key pair: " + e)
      case None =>
        if !x509.caParses(conf.caCert) then Err("failed to parse root certificate")
        else Ok(plain.(tlsConfig := Some(MutualTls(conf))))
    else Ok(plain)
  }

  /** Direct mode: the record `Open(conf.Server, …)` builds. */
  function DirectOptions(conf: Config): (o: Options)
    ensures o.addr == conf.server
    ensures o.password == conf.password && o.db == conf.db
    ensures Tuning(o.maxRetries, o.dialTimeout, o.readTimeout, o.writeTimeout) == ConfiguredTuning(conf)
  {
    var options := [DirectOption(conf)];
    assert options == [] + [DirectOption(conf)];
    ApplyAllLast(BaseOptions(conf.server), [], DirectOption(conf));
    ApplyAll(BaseOptions(conf.server), options)
  }

  /** Sentinel mode: the record `OpenSentinel(…)` builds, or the TLS panic. */
  function SentinelOptions(conf: Config, x509: X509): (r: Result<FailoverOptions>)
    ensures r.Err? <==> HasTlsMaterial(conf) && (x509.keyPairError(conf.certFile, conf.certKey).Some? || !x509.caParses(conf.caCert))
    ensures r.Err? && x509.keyPairError(conf.certFile, conf.certKey).Some? ==>
      r.error == "Unable to load key pair: " + x509.keyPairError(conf.certFile, conf.certKey).value
    ensures r.Err? && x509.keyPairError(conf.certFile, conf.certKey).None? ==>
      r.error == "failed to parse root certificate"
    ensures r.Ok? ==> r.value.masterName == conf.masterName
    ensures r.Ok? ==> r.value.sentinelAddrs == Text.Split(conf.sentinelAddrs, ',')
    ensures r.Ok? ==> r.value.sentinelUsername == conf.sentinelUsername && r.value.sentinelPassword == conf.sentinelPassword
    ensures r.Ok? ==> r.value.password == conf.password && r.value.db == conf.db
    ensures r.Ok? ==> Tuning(r.value.maxRetries, r.value.dialTimeout, r.value.readTimeout, r.value.writeTimeout) == ConfiguredTuning(conf)
    ensures r.Ok? ==> (r.value.tlsConfig.Some? <==> HasTlsMaterial(conf))
    ensures r.Ok? && r.value.tlsConfig.Some? ==> r.value.tlsConfig.value == MutualTls(conf)
  {
    OpenSentinel(SentinelOption(conf, x509))
  }

  /**
   * `newRedis(conf)`: the options of the client it builds. A non-empty
   * master name selects sentinel mode whatever `Server` holds; otherwise the
   * client connects directly to `Server`, and no TLS is configured.
   */
  function NewRedis(conf: Config, x509: X509): (r: Result<ClientOptions>)
    ensures conf.masterName == "" ==> r.Ok? && r.value.Direct? && r.value.options.addr == conf.server
    ensures conf.masterName != "" && r.Ok? ==> r.value.Failover? && r.value.failover.masterName == conf.masterName
    ensures conf.masterName != "" && r.Ok? ==> SentinelOptions(conf, x509).Ok? && r.value.failover == SentinelOptions(conf, x509).value
    ensures r.Err? <==>
      (conf.masterName != "" && HasTlsMaterial(conf) &&
       (x509.keyPairError(conf.certFile, conf.certKey).Some? || !x509.caParses(conf.caCert)))
    ensures r.Ok? ==> r.value.Tunables() == ConfiguredTuning(conf)
    ensures r.Ok? ==> r.value.Password() == conf.password && r.value.Db() == conf.db
    ensures r.Ok? ==> (r.value.Tls().Some? <==> conf.masterName != "" && HasTlsMaterial(conf))
    ensures r.Ok? && r.value.Tls().Some? ==>
      r.value.Tls().value.clientAuth == RequireAndVerifyClientCert &&
      r.value.Tls().value.minVersion == VersionTLS12 &&
      r.value.Tls().value.certificates == [Certificate(conf.certFile, conf.certKey)]
  {
    if conf.masterName != "" then
      match SentinelOptions(conf, x509)
      case Ok(f) => Ok(Failover(f))
      case Err(e) => Err(e)
    else
      Ok(Direct(DirectOptions(conf)))
  }

  /**
   * The overrides behave the same in both modes: the same configuration
   * read in sentinel mode (when it builds) and in direct mode gives the same
   * retry count and timeouts.
   */
  lemma SameTuningInBothModes(conf: Config, x509: X509, master: string)
    requires master != ""
    requires NewRedis(conf.(masterName := master), x509).Ok?
    ensures NewRedis(conf.(masterName := master), x509).value.Tunables()
         == NewRedis(conf.(masterName := ""), x509).value.Tunables()
  {
  }
}
