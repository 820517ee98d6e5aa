/** The configuration objects of `cloudfoundry/config.py`: environment filtering by
    prefix, the required-field checks each configuration runs on construction, the
    feature flags of the Data Flow server, and the defaults written into the
    environment handed to the Data Flow and Skipper servers.

    The process environment is passed in as a map; Python's `int()` and
    `json.loads` acceptance are passed in as predicates. */
module Config {
  import opened PyValues
  import opened Text
  import CliParse

  /** The `ValueError`s the checks raise, by what they complain about. */
  datatype ConfigError =
    | Required(field: string)          // "'<field>' is required"
    | NotConfigured(key: string)       // "<key> is not configured in environment"
    | NotAnInt(text: string)           // `int(self.port)` raised
    | NotJson(config: string)          // "config is not valid json:..."
    | NoFeatureEnabled                 // neither streams nor tasks enabled
    | SchedulesWithoutTasks            // schedules enabled without tasks

  /** A check that returns normally or raises. */
  datatype Check = Pass | Fail(error: ConfigError)

  /** A constructor that returns an object or raises. */
  datatype Result<T> = Ok(value: T) | Err(error: ConfigError)

  // ---- env_vars --------------------------------------------------------------------------

  /** The entries of the environment whose key starts with `prefix`. */
  function WithPrefix(environ: map<string, string>, prefix: string): map<string, string> {
    map k | k in environ && StartsWith(k, prefix) :: environ[k]
  }

  /** `env_vars(prefix)`: with a non-empty prefix, exactly the entries whose key starts
      with it, values unchanged; with an empty or `None` prefix, the whole environment. */
  method EnvVars(prefix: Option<string>, environ: map<string, string>) returns (env: map<string, string>)
    ensures !Truthy(prefix) ==> env == environ
    ensures Truthy(prefix) ==> forall k :: k in env <==> k in environ && StartsWith(k, prefix.value)
    ensures forall k :: k in env ==> k in environ && env[k] == environ[k]
    ensures Truthy(prefix) ==> env == WithPrefix(environ, prefix.value)
  {
    if !Truthy(prefix) {
      return environ;
    }
    env := map[];
    var pending := environ.Keys;
    while pending != {}
      invariant pending <= environ.Keys
      invariant forall k :: k in env <==> k in environ && k !in pending && StartsWith(k, prefix.value)
      invariant forall k :: k in env ==> env[k] == environ[k]
      decreases pending
    {
      var key :| key in pending;
      if StartsWith(key, prefix.value) {
        env := env[key := environ[key]];
      }
      pending := pending - {key};
    }
  }

  /** A key that starts with the prefix reads the same in the filtered map. */
  lemma WithPrefixGet(environ: map<string, string>, prefix: string, key: string)
    requires StartsWith(key, prefix)
    ensures Get(WithPrefix(environ, prefix), key) == Get(environ, key)
  {
  }

  // ---- required fields ---------------------------------------------------------------------

  /** One `if not self.x: raise ValueError("'x' is required")` step, followed by the
      rest of the checks. */
  function Require(field: string, value: Option<string>, next: Check): (r: Check)
    ensures r == Pass <==> Truthy(value) && next == Pass
    ensures !Truthy(value) ==> r == Fail(Required(field))
    ensures Truthy(value) ==> r == next
  {
    if !Truthy(value) then Fail(Required(field)) else next
  }

  // ---- TestConfig ----------------------------------------------------------------------

  /** `TestConfig`: the polling interval and budget the CLI falls back on. */
  datatype TestConfig = TestConfig(deployWaitSec: int, maxRetries: int, buildpacks: seq<string>, mavenRepos: seq<string>)

  /** `TestConfig()`. The interval is written `20,` in the source, a one-element tuple;
      it is modelled as the 20 seconds evidently meant. */
  function DefaultTestConfig(): (t: TestConfig)
    ensures t.deployWaitSec == 20 && t.maxRetries == 150
    ensures t.buildpacks == ["java_buildpack_offline"]
  {
    TestConfig(20, 150, ["java_buildpack_offline"], ["https://repo.spring.io/libs-snapshot"])
  }

  // ---- CloudFoundryDeployerConfig -------------------------------------------------------

  const DeployerPrefix := "SPRING_CLOUD_DEPLOYER_CLOUDFOUNDRY_"
  const UrlKey := DeployerPrefix + "URL"
  const OrgKey := DeployerPrefix + "ORG"
  const SpaceKey := DeployerPrefix + "SPACE"
  const DomainKey := DeployerPrefix + "DOMAIN"
  const UsernameKey := DeployerPrefix + "USERNAME"
  const PasswordKey := DeployerPrefix + "PASSWORD"
  const SkipSslKey := DeployerPrefix + "SKIP_SSL_VALIDATION"

  datatype DeployerConfig = DeployerConfig(
    apiEndpoint: Option<string>,
    org: Option<string>,
    space: Option<string>,
    appDomain: Option<string>,
    username: Option<string>,
    password: Option<string>,
    skipSslValidation: Flag,
    env: map<string, string>)

  /** `CloudFoundryDeployerConfig.validate`: raises exactly when one of the six settings
      is falsy, naming the first in the order api_endpoint, org, space, app_domain,
      username, password; skip_ssl_validation is never looked at. */
  function ValidateDeployer(c: DeployerConfig): (r: Check)
    ensures r == Pass <==> (Truthy(c.apiEndpoint) && Truthy(c.org) && Truthy(c.space)
                            && Truthy(c.appDomain) && Truthy(c.username) && Truthy(c.password))
    ensures !Truthy(c.apiEndpoint) ==> r == Fail(Required("api_endpoint"))
    ensures Truthy(c.apiEndpoint) && !Truthy(c.org) ==> r == Fail(Required("org"))
    ensures Truthy(c.apiEndpoint) && Truthy(c.org) && !Truthy(c.space) ==> r == Fail(Required("space"))
    ensures Truthy(c.apiEndpoint) && Truthy(c.org) && Truthy(c.space) && !Truthy(c.appDomain) ==>
      r == Fail(Required("app_domain"))
    ensures (Truthy(c.apiEndpoint) && Truthy(c.org) && Truthy(c.space) && Truthy(c.appDomain)
             && !Truthy(c.username)) ==> r == Fail(Required("username"))
    ensures (Truthy(c.apiEndpoint) && Truthy(c.org) && Truthy(c.space) && Truthy(c.appDomain)
             && Truthy(c.username) && !Truthy(c.password)) ==> r == Fail(Required("password"))
  {
    Require("api_endpoint", c.apiEndpoint, Require("org", c.org, Require("space", c.space,
      Require("app_domain", c.appDomain, Require("username", c.username, Require("password", c.password, Pass))))))
  }

  /** The constructor: it stores the settings and always validates. */
  function NewDeployerConfig(apiEndpoint: Option<string>, org: Option<string>, space: Option<string>,
                             appDomain: Option<string>, username: Option<string>, password: Option<string>,
                             skipSslValidation: Flag, env: map<string, string>): (r: Result<DeployerConfig>)
    ensures r.Ok? ==> r.value == DeployerConfig(apiEndpoint, org, space, appDomain, username, password, skipSslValidation, env)
    ensures r.Ok? <==> ValidateDeployer(DeployerConfig(apiEndpoint, org, space, appDomain, username, password, skipSslValidation, env)) == Pass
  {
    var c := DeployerConfig(apiEndpoint, org, space, appDomain, username, password, skipSslValidation, env);
    match ValidateDeployer(c)
    case Pass => Ok(c)
    case Fail(e) => Err(e)
  }

  /** A setting read from the environment: a string when present, `None` otherwise. */
  function FlagOf(s: Option<string>): Flag {
    if s.Some? then Text(s.value) else Unset
  }

  /** `CloudFoundryDeployerConfig.from_env_vars`. */
  function DeployerFromEnv(environ: map<string, string>): Result<DeployerConfig> {
    var env := WithPrefix(environ, DeployerPrefix);
    if !Truthy(Get(env, UrlKey)) then Err(NotConfigured(UrlKey))
    else NewDeployerConfig(Get(env, UrlKey), Get(env, OrgKey), Get(env, SpaceKey), Get(env, DomainKey),
                           Get(env, UsernameKey), Get(env, PasswordKey), FlagOf(Get(env, SkipSslKey)), env)
  }

  lemma DeployerKeysHavePrefix()
    ensures StartsWith(UrlKey, DeployerPrefix) && StartsWith(OrgKey, DeployerPrefix)
    ensures StartsWith(SpaceKey, DeployerPrefix) && StartsWith(DomainKey, DeployerPrefix)
    ensures StartsWith(UsernameKey, DeployerPrefix) && StartsWith(PasswordKey, DeployerPrefix)
    ensures StartsWith(SkipSslKey, DeployerPrefix)
  {
    assert UrlKey[..|DeployerPrefix|] == DeployerPrefix;
    assert OrgKey[..|DeployerPrefix|] == DeployerPrefix;
    assert SpaceKey[..|DeployerPrefix|] == DeployerPrefix;
    assert DomainKey[..|DeployerPrefix|] == DeployerPrefix;
    assert UsernameKey[..|DeployerPrefix|] == DeployerPrefix;
    assert PasswordKey[..|DeployerPrefix|] == DeployerPrefix;
    assert SkipSslKey[..|DeployerPrefix|] == DeployerPrefix;
  }

  /** A missing or empty URL is reported before anything is built or validated; otherwise
      the configuration holds the environment's values and stands or falls with
      `validate`. */
  lemma DeployerFromEnvOutcome(environ: map<string, string>)
    ensures !Truthy(Get(environ, UrlKey)) ==> DeployerFromEnv(environ) == Err(NotConfigured(UrlKey))
    ensures Truthy(Get(environ, UrlKey)) ==> DeployerFromEnv(environ) == NewDeployerConfig(
      Get(environ, UrlKey), Get(environ, OrgKey), Get(environ, SpaceKey), Get(environ, DomainKey),
      Get(environ, UsernameKey), Get(environ, PasswordKey), FlagOf(Get(environ, SkipSslKey)),
      WithPrefix(environ, DeployerPrefix))
  {
    DeployerKeysHavePrefix();
    WithPrefixGet(environ, DeployerPrefix, UrlKey);
    WithPrefixGet(environ, DeployerPrefix, OrgKey);
    WithPrefixGet(environ, DeployerPrefix, SpaceKey);
    WithPrefixGet(environ, DeployerPrefix, DomainKey);
    WithPrefixGet(environ, DeployerPrefix, UsernameKey);
    WithPrefixGet(environ, DeployerPrefix, PasswordKey);
    WithPrefixGet(environ, DeployerPrefix, SkipSslKey);
  }

  /** `connection()`: the six connection settings under their short names. */
  function Connection(c: DeployerConfig): (m: map<string, Option<string>>)
    ensures m.Keys == {"url", "org", "space", "domain", "username", "password"}
    ensures m["url"] == c.apiEndpoint && m["org"] == c.org && m["space"] == c.space
    ensures m["domain"] == c.appDomain && m["username"] == c.username && m["password"] == c.password
  {
    map["url" := c.apiEndpoint, "org" := c.org, "space" := c.space, "domain" := c.appDomain,
        "username" := c.username, "password" := c.password]
  }

  // ---- DBConfig, DatasourceConfig, KafkaConfig -------------------------------------------

  const SqlPrefix := "SQL_"

  datatype DBConfig = DBConfig(host: Option<string>, port: Option<string>, username: Option<string>,
                               password: Option<string>, provider: Option<string>, index: Option<string>)

  /** `DBConfig.from_env_vars`: `None` without a host; the index is whatever SQL_INDEX
      holds, `None` included (the constructor's default '0' is never used here). */
  function DBFromEnv(environ: map<string, string>): (r: Option<DBConfig>)
    ensures r.Some? <==> Truthy(Get(environ, SqlPrefix + "HOST"))
    ensures r.Some? ==> r.value.host == Get(environ, SqlPrefix + "HOST") && r.value.index == Get(environ, SqlPrefix + "INDEX")
  {
    var env := WithPrefix(environ, SqlPrefix);
    assert StartsWith(SqlPrefix + "HOST", SqlPrefix) && StartsWith(SqlPrefix + "INDEX", SqlPrefix) by {
      assert (SqlPrefix + "HOST")[..|SqlPrefix|] == SqlPrefix;
      assert (SqlPrefix + "INDEX")[..|SqlPrefix|] == SqlPrefix;
    }
    if !Truthy(Get(env, SqlPrefix + "HOST")) then None
    else Some(DBConfig(Get(env, SqlPrefix + "HOST"), Get(env, SqlPrefix + "PORT"), Get(env, SqlPrefix + "USERNAME"),
                       Get(env, SqlPrefix + "PASSWORD"), Get(env, SqlPrefix + "PROVIDER"), Get(env, SqlPrefix + "INDEX")))
  }

  datatype DatasourceConfig = DatasourceConfig(url: Option<string>, username: Option<string>, password: Option<string>,
                                               driverClassName: Option<string>, host: Option<string>,
                                               port: Option<string>, provider: Option<string>)

  /** `DatasourceConfig.validate`: url, username, password, driver_class_name, host and
      port must be truthy, in that order; then the port must parse as an int; then the
      provider must be truthy. */
  function ValidateDatasource(c: DatasourceConfig, parsesAsInt: string -> bool): (r: Check)
    ensures r == Pass <==> (Truthy(c.url) && Truthy(c.username) && Truthy(c.password)
                            && Truthy(c.driverClassName) && Truthy(c.host) && Truthy(c.port)
                            && parsesAsInt(c.port.value) && Truthy(c.provider))
    ensures !Truthy(c.url) ==> r == Fail(Required("url"))
    ensures Truthy(c.url) && !Truthy(c.username) ==> r == Fail(Required("username"))
    ensures Truthy(c.url) && Truthy(c.username) && !Truthy(c.password) ==> r == Fail(Required("password"))
    ensures Truthy(c.url) && Truthy(c.username) && Truthy(c.password) && !Truthy(c.driverClassName) ==>
      r == Fail(Required("driver_class_name"))
    ensures (Truthy(c.url) && Truthy(c.username) && Truthy(c.password) && Truthy(c.driverClassName)
             && !Truthy(c.host)) ==> r == Fail(Required("host"))
    ensures (Truthy(c.url) && Truthy(c.username) && Truthy(c.password) && Truthy(c.driverClassName)
             && Truthy(c.host) && !Truthy(c.port)) ==> r == Fail(Required("port"))
    ensures (Truthy(c.url) && Truthy(c.username) && Truthy(c.password) && Truthy(c.driverClassName)
             && Truthy(c.host) && Truthy(c.port) && !parsesAsInt(c.port.value)) ==> r == Fail(NotAnInt(c.port.value))
    ensures (Truthy(c.url) && Truthy(c.username) && Truthy(c.password) && Truthy(c.driverClassName)
             && Truthy(c.host) && Truthy(c.port) && parsesAsInt(c.port.value) && !Truthy(c.provider)) ==>
      r == Fail(Required("provider"))
    ensures r == Fail(Required("provider")) ==> Truthy(c.port) && parsesAsInt(c.port.value)
    ensures r.Fail? && r.error.NotAnInt? ==> Truthy(c.port) && !parsesAsInt(c.port.value) && r.error.text == c.port.value
  {
    Require("url", c.url, Require("username", c.username, Require("password", c.password,
      Require("driver_class_name", c.driverClassName, Require("host", c.host, Require("port", c.port,
      if c.port.Some? && !parsesAsInt(c.port.value) then Fail(NotAnInt(c.port.value))
      else Require("provider", c.provider, Pass)))))))
  }

  const KafkaPrefix := "KAFKA_"

  datatype KafkaConfig = KafkaConfig(brokerAddress: Option<string>, username: Option<string>, password: Option<string>)

  /** `KafkaConfig.validate`: broker_address, username and password, in that order. */
  function ValidateKafka(c: KafkaConfig): (r: Check)
    ensures r == Pass <==> Truthy(c.brokerAddress) && Truthy(c.username) && Truthy(c.password)
    ensures !Truthy(c.brokerAddress) ==> r == Fail(Required("broker_address"))
    ensures Truthy(c.brokerAddress) && !Truthy(c.username) ==> r == Fail(Required("username"))
    ensures Truthy(c.brokerAddress) && Truthy(c.username) && !Truthy(c.password) ==> r == Fail(Required("password"))
  {
    Require("broker_address", c.brokerAddress, Require("username", c.username, Require("password", c.password, Pass)))
  }

  /** `KafkaConfig.from_env_vars`: `None` without a broker address; the values are read
      from the whole environment (`os.getenv`), not from the filtered map. */
  function KafkaFromEnv(environ: map<string, string>): (r: Option<KafkaConfig>)
    ensures r.Some? <==> Truthy(Get(environ, KafkaPrefix + "BROKER_ADDRESS"))
    ensures r.Some? ==> r.value.brokerAddress == Get(environ, KafkaPrefix + "BROKER_ADDRESS")
  {
    var env := WithPrefix(environ, KafkaPrefix);
    assert StartsWith(KafkaPrefix + "BROKER_ADDRESS", KafkaPrefix) by {
      assert (KafkaPrefix + "BROKER_ADDRESS")[..|KafkaPrefix|] == KafkaPrefix;
    }
    if !Truthy(Get(env, KafkaPrefix + "BROKER_ADDRESS")) then None
    else Some(KafkaConfig(Get(environ, KafkaPrefix + "BROKER_ADDRESS"), Get(environ, KafkaPrefix + "USERNAME"),
                          Get(environ, KafkaPrefix + "PASSWORD")))
  }

  // ---- ServiceConfig ---------------------------------------------------------------------

  datatype ServiceConfig = ServiceConfig(name: Option<string>, service: Option<string>, plan: Option<string>, config: Option<string>)

  /** `ServiceConfig.validate`: name, service and plan in that order; the config string is
      parsed as JSON only when it is truthy. */
  function ValidateService(c: ServiceConfig, isJson: string -> bool): (r: Check)
    ensures r == Pass <==> (Truthy(c.name) && Truthy(c.service) && Truthy(c.plan)
                            && (Truthy(c.config) ==> isJson(c.config.value)))
    ensures !Truthy(c.name) ==> r == Fail(Required("name"))
    ensures Truthy(c.name) && !Truthy(c.service) ==> r == Fail(Required("service"))
    ensures Truthy(c.name) && Truthy(c.service) && !Truthy(c.plan) ==> r == Fail(Required("plan"))
    ensures r.Fail? && r.error.NotJson? ==> Truthy(c.config) && r.error.config == c.config.value
  {
    Require("name", c.name, Require("service", c.service, Require("plan", c.plan,
      if Truthy(c.config) && !isJson(c.config.value) then Fail(NotJson(c.config.value)) else Pass)))
  }

  /** The constructor: it stores the settings and always validates. */
  function NewServiceConfig(name: Option<string>, service: Option<string>, plan: Option<string>,
                            config: Option<string>, isJson: string -> bool): (r: Result<ServiceConfig>)
    ensures r.Ok? <==> ValidateService(ServiceConfig(name, service, plan, config), isJson) == Pass
    ensures r.Ok? ==> r.value == ServiceConfig(name, service, plan, config)
  {
    var c := ServiceConfig(name, service, plan, config);
    match ValidateService(c, isJson)
    case Pass => Ok(c)
    case Fail(e) => Err(e)
  }

  /** `ServiceConfig.of_service`: the name, service and plan a `cf service` lookup
      reported, with no config. */
  function OfService(s: CliParse.Service, isJson: string -> bool): (r: Result<ServiceConfig>)
    ensures r.Ok? <==> Truthy(s.name) && Truthy(s.service) && Truthy(s.plan)
    ensures r.Ok? ==> r.value.config == None
  {
    NewServiceConfig(s.name, s.service, s.plan, None, isJson)
  }

  /** `ServiceConfig.rabbit_default()` */
  function RabbitDefault(): ServiceConfig {
    ServiceConfig(Some("rabbit"), Some("p.rabbitmq"), Some("single-node"), None)
  }

  /** `ServiceConfig.scheduler_default()` */
  function SchedulerDefault(): ServiceConfig {
    ServiceConfig(Some("ci-scheduler"), Some("scheduler-for-pcf"), Some("standard"), None)
  }

  /** Both built-in service configurations pass their own validation, whatever the JSON
      parser accepts. */
  lemma DefaultsAreValid(isJson: string -> bool)
    ensures NewServiceConfig(Some("rabbit"), Some("p.rabbitmq"), Some("single-node"), None, isJson) == Ok(RabbitDefault())
    ensures NewServiceConfig(Some("ci-scheduler"), Some("scheduler-for-pcf"), Some("standard"), None, isJson) == Ok(SchedulerDefault())
  {
  }

  /** The truthiness of `ServiceConfig.__eq__` as written: equal names, plans and configs,
      but only that both service fields are truthy. Anything that is not a
      `ServiceConfig` (`None` here) gives the falsy `None`. */
  function Equals(self: ServiceConfig, other: Option<ServiceConfig>): bool {
    other.Some? && self.name == other.value.name && Truthy(self.service) && Truthy(other.value.service)
      && self.plan == other.value.plan && self.config == other.value.config
  }

  /** As written, two configurations that differ only in their service compare equal, and
      one with an empty service is not even equal to itself. */
  lemma EqualsIgnoresService(a: ServiceConfig, b: ServiceConfig)
    requires a.name == b.name && a.plan == b.plan && a.config == b.config
    ensures Truthy(a.service) && Truthy(b.service) ==> Equals(a, Some(b))
    ensures !Truthy(a.service) ==> !Equals(a, Some(a))
  {
  }

  /** A concrete instance: the RabbitMQ default equals a configuration that names another
      broker service. */
  lemma EqualsAcrossServices()
    ensures Equals(RabbitDefault(), Some(RabbitDefault().(service := Some("p.redis"))))
    ensures RabbitDefault() != RabbitDefault().(service := Some("p.redis"))
  {
  }

  /** The comparison evidently intended: all four fields equal. */
  function EqualsIntended(self: ServiceConfig, other: Option<ServiceConfig>): bool {
    other.Some? && self.name == other.value.name && self.service == other.value.service
      && self.plan == other.value.plan && self.config == other.value.config
  }

  /** The intended comparison is equality of values, and so an equivalence. */
  lemma EqualsIntendedIsEquality(a: ServiceConfig, other: Option<ServiceConfig>)
    ensures EqualsIntended(a, other) <==> other == Some(a)
  {
  }

  /** On configurations that passed validation, the comparison as written is still an
      equivalence, but a coarser one than equality. */
  lemma EqualsOnValid(a: ServiceConfig, b: ServiceConfig, c: ServiceConfig)
    requires Truthy(a.service) && Truthy(b.service) && Truthy(c.service)
    ensures Equals(a, Some(a))
    ensures Equals(a, Some(b)) ==> Equals(b, Some(a))
    ensures Equals(a, Some(b)) && Equals(b, Some(c)) ==> Equals(a, Some(c))
    ensures EqualsIntended(a, Some(b)) ==> Equals(a, Some(b))
  {
  }

  // ---- env defaulting ------------------------------------------------------------------

  const ProfilesKey := "SPRING_PROFILES_ACTIVE"
  const ReconfigurationKey := "JBP_CONFIG_SPRING_AUTO_RECONFIGURATION"
  const AppNameKey := "SPRING_APPLICATION_NAME"

  /** `if not env.get(key): env[key] = value` */
  function Defaulted(m: map<string, string>, key: string, value: string): map<string, string> {
    if !Truthy(Get(m, key)) then m[key := value] else m
  }

  /** The three defaults the Data Flow and Skipper constructors write into their env. */
  function WithServerDefaults(m: map<string, string>, appName: string): map<string, string> {
    Defaulted(Defaulted(Defaulted(m, ProfilesKey, "cloud"), ReconfigurationKey, "{enabled: false}"), AppNameKey, appName)
  }

  /** The default a server key receives when it is missing or empty. */
  function ServerDefault(key: string, appName: string): string {
    if key == ProfilesKey then "cloud"
    else if key == ReconfigurationKey then "{enabled: false}"
    else appName
  }

  predicate IsServerKey(key: string) {
    key == ProfilesKey || key == ReconfigurationKey || key == AppNameKey
  }

  /** The defaults fill in the three keys exactly where they are missing or empty and leave
      every other entry as it was. */
  lemma ServerDefaultsMeaning(m: map<string, string>, appName: string, key: string)
    ensures key in WithServerDefaults(m, appName) <==> key in m || IsServerKey(key)
    ensures !IsServerKey(key) && key in m ==> WithServerDefaults(m, appName)[key] == m[key]
    ensures IsServerKey(key) && Truthy(Get(m, key)) ==> WithServerDefaults(m, appName)[key] == m[key]
    ensures IsServerKey(key) && !Truthy(Get(m, key)) ==> WithServerDefaults(m, appName)[key] == ServerDefault(key, appName)
  {
  }

  /** Applying the defaults a second time changes nothing. */
  lemma ServerDefaultsIdempotent(m: map<string, string>, appName: string)
    requires appName != ""
    ensures WithServerDefaults(WithServerDefaults(m, appName), appName) == WithServerDefaults(m, appName)
  {
    var d := WithServerDefaults(m, appName);
    assert Truthy(Get(d, ProfilesKey)) && Truthy(Get(d, ReconfigurationKey)) && Truthy(Get(d, AppNameKey));
  }

  /** The environment dictionary a server configuration shares with its caller and
      updates in place. */
  class Env {
    var vars: map<string, string>

    constructor (vars: map<string, string>)
      ensures this.vars == vars
    {
      this.vars := vars;
    }

    /** The three `if not env.get(...)` assignments of the server constructors. */
    method ApplyServerDefaults(appName: string)
      modifies this
      ensures vars == WithServerDefaults(old(vars), appName)
    {
      if !Truthy(Get(vars, ProfilesKey)) {
        vars := vars[ProfilesKey := "cloud"];
      }
      if !Truthy(Get(vars, ReconfigurationKey)) {
        vars := vars[ReconfigurationKey := "{enabled: false}"];
      }
      if !Truthy(Get(vars, AppNameKey)) {
        vars := vars[AppNameKey := appName];
      }
    }
  }

  // ---- DataflowConfig and SkipperConfig ---------------------------------------------------

  const DataflowPrefix := "SPRING_CLOUD_DATAFLOW_"
  const StreamsKey := DataflowPrefix + "FEATURES_STREAMS_ENABLED"
  const TasksKey := DataflowPrefix + "FEATURES_TASKS_ENABLED"
  const SchedulesKey := DataflowPrefix + "FEATURES_SCHEDULES_ENABLED"
  const SkipperPrefix := "SPRING_CLOUD_SKIPPER_"

  /** `env.get(key) if env.get(key) else default`: the string when it is non-empty. */
  function FlagFromEnv(env: map<string, string>, key: string, default: bool): (f: Flag)
    ensures Truthy(Get(env, key)) ==> f == Text(env[key]) && f.IsTrue()
    ensures !Truthy(Get(env, key)) ==> f == Bool(default)
  {
    if Truthy(Get(env, key)) then Text(env[key]) else Bool(default)
  }

  /** `DataflowConfig.validate`: some of streams and tasks must be enabled, and schedules
      need tasks. */
  function ValidateFeatures(streams: Flag, tasks: Flag, schedules: Flag): (r: Check)
    ensures r == Pass <==> (streams.IsTrue() || tasks.IsTrue()) && (schedules.IsTrue() ==> tasks.IsTrue())
    ensures r == Fail(NoFeatureEnabled) <==> !streams.IsTrue() && !tasks.IsTrue()
    ensures r == Fail(SchedulesWithoutTasks) <==> streams.IsTrue() && !tasks.IsTrue() && schedules.IsTrue()
  {
    if !streams.IsTrue() && !tasks.IsTrue() then Fail(NoFeatureEnabled)
    else if schedules.IsTrue() && !tasks.IsTrue() then Fail(SchedulesWithoutTasks)
    else Pass
  }

  /** The flags `from_env_vars` reads always validate: a flag set in the environment is a
      non-empty string, which is truthy whatever it says, so even
      SPRING_CLOUD_DATAFLOW_FEATURES_TASKS_ENABLED=false leaves tasks enabled. */
  lemma EnvFlagsAlwaysValid(env: map<string, string>)
    ensures FlagFromEnv(env, TasksKey, true).IsTrue()
    ensures ValidateFeatures(FlagFromEnv(env, StreamsKey, true), FlagFromEnv(env, TasksKey, true),
                             FlagFromEnv(env, SchedulesKey, false)) == Pass
  {
  }

  /** The same check on the constructor's own default values passes; with only schedules
      on and both others off it reports the missing feature first. */
  lemma FeatureCheckOrder()
    ensures ValidateFeatures(Bool(true), Bool(true), Bool(true)) == Pass
    ensures ValidateFeatures(Bool(false), Bool(false), Bool(true)) == Fail(NoFeatureEnabled)
    ensures ValidateFeatures(Bool(true), Bool(false), Bool(true)) == Fail(SchedulesWithoutTasks)
  {
  }

  /** `DataflowConfig`: the feature flags and the env it defaults in place. */
  class DataflowConfig {
    const streamsEnabled: Flag
    const tasksEnabled: Flag
    const schedulesEnabled: Flag
    const env: Env

    constructor (streamsEnabled: Flag, tasksEnabled: Flag, schedulesEnabled: Flag, env: Env)
      modifies env
      ensures this.streamsEnabled == streamsEnabled && this.tasksEnabled == tasksEnabled
      ensures this.schedulesEnabled == schedulesEnabled && this.env == env
      ensures env.vars == WithServerDefaults(old(env.vars), "dataflow-server")
    {
      this.streamsEnabled := streamsEnabled;
      this.tasksEnabled := tasksEnabled;
      this.schedulesEnabled := schedulesEnabled;
      this.env := env;
      new;
      env.ApplyServerDefaults("dataflow-server");
    }

    function Validate(): Check {
      ValidateFeatures(streamsEnabled, tasksEnabled, schedulesEnabled)
    }

    /** `DataflowConfig.from_env_vars`: streams and tasks default to on, schedules to off,
        and the filtered environment becomes the server's env, defaults filled in. */
    static method FromEnvVars(environ: map<string, string>) returns (c: DataflowConfig)
      ensures fresh(c) && fresh(c.env)
      ensures c.streamsEnabled == FlagFromEnv(WithPrefix(environ, DataflowPrefix), StreamsKey, true)
      ensures c.tasksEnabled == FlagFromEnv(WithPrefix(environ, DataflowPrefix), TasksKey, true)
      ensures c.schedulesEnabled == FlagFromEnv(WithPrefix(environ, DataflowPrefix), SchedulesKey, false)
      ensures c.env.vars == WithServerDefaults(WithPrefix(environ, DataflowPrefix), "dataflow-server")
      ensures c.Validate() == Pass
    {
      var vars := EnvVars(Some(DataflowPrefix), environ);
      var streams := FlagFromEnv(vars, StreamsKey, true);
      var tasks := FlagFromEnv(vars, TasksKey, true);
      var schedules := FlagFromEnv(vars, SchedulesKey, false);
      var env := new Env(vars);
      c := new DataflowConfig(streams, tasks, schedules, env);
      EnvFlagsAlwaysValid(vars);
    }
  }

  /** `SkipperConfig`: only the env it defaults in place. */
  class SkipperConfig {
    const env: Env

    constructor (env: Env)
      modifies env
      ensures this.env == env
      ensures env.vars == WithServerDefaults(old(env.vars), "skipper-server")
    {
      this.env := env;
      new;
      env.ApplyServerDefaults("skipper-server");
    }

    /** `SkipperConfig.from_env_vars` */
    static method FromEnvVars(environ: map<string, string>) returns (c: SkipperConfig)
      ensures fresh(c) && fresh(c.env)
      ensures c.env.vars == WithServerDefaults(WithPrefix(environ, SkipperPrefix), "skipper-server")
    {
      var vars := EnvVars(Some(SkipperPrefix), environ);
      var env := new Env(vars);
      c := new SkipperConfig(env);
    }
  }

  // ---- CloudFoundryConfig ----------------------------------------------------------------

  datatype CloudFoundryConfig = CloudFoundryConfig(
    deployer: Option<DeployerConfig>,
    dataflow: Option<DataflowConfig>,
    skipper: Option<SkipperConfig>,
    db: Option<DBConfig>,
    kafka: Option<KafkaConfig>,
    services: seq<ServiceConfig>,
    test: TestConfig)

  /** `CloudFoundryConfig.validate`: only a missing deployer configuration raises; the
      other checks only log. */
  function ValidateCloudFoundry(c: CloudFoundryConfig): (r: Check)
    ensures r == Pass <==> c.deployer.Some?
    ensures r.Fail? ==> r.error == Required("deployer_config")
  {
    if c.deployer.None? then Fail(Required("deployer_config")) else Pass
  }

  /** `CloudFoundryConfig.from_env_vars`: the deployer settings decide whether it raises;
      Data Flow is always configured, the database and Kafka only when their host or
      broker is set, and the service list is the RabbitMQ default. */
  method CloudFoundryFromEnv(environ: map<string, string>) returns (r: Result<CloudFoundryConfig>)
    ensures DeployerFromEnv(environ).Err? ==> r == Err(DeployerFromEnv(environ).error)
    ensures DeployerFromEnv(environ).Ok? ==> r.Ok? && r.value.deployer == Some(DeployerFromEnv(environ).value)
    ensures r.Ok? ==> r.value.dataflow.Some? && r.value.skipper == None
    ensures r.Ok? ==> var vars := WithPrefix(environ, DataflowPrefix);
      && r.value.dataflow.value.streamsEnabled == FlagFromEnv(vars, StreamsKey, true)
      && r.value.dataflow.value.tasksEnabled == FlagFromEnv(vars, TasksKey, true)
      && r.value.dataflow.value.schedulesEnabled == FlagFromEnv(vars, SchedulesKey, false)
      && r.value.dataflow.value.env.vars == WithServerDefaults(vars, "dataflow-server")
    ensures r.Ok? ==> r.value.db == DBFromEnv(environ) && r.value.kafka == KafkaFromEnv(environ)
    ensures r.Ok? ==> r.value.services == [RabbitDefault()] && r.value.test == DefaultTestConfig()
    ensures r.Ok? ==> ValidateCloudFoundry(r.value) == Pass
  {
    var deployer := DeployerFromEnv(environ);
    if deployer.Err? {
      return Err(deployer.error);
    }
    var dataflow := DataflowConfig.FromEnvVars(environ);
    var c := CloudFoundryConfig(Some(deployer.value), Some(dataflow), None, DBFromEnv(environ),
                                KafkaFromEnv(environ), [RabbitDefault()], DefaultTestConfig());
    r := Ok(c);
  }
}
