# cloudfoundry: the `cf` wrapper, the poller and the configuration, in Dafny

This project models the core of the `cloudfoundry` Python package of the Spring Cloud
Data Flow acceptance-test setup. The package drives the Cloud Foundry `cf`
command-line tool. The model covers three of its files:

- `cloudfoundry/cli.py` becomes `cli.dfy` (module `Cli`) and `cli_parse.dfy` (module `CliParse`).
  - The `CloudFoundry` class:
    - probes for `cf`;
    - reconciles the live target with the deployer configuration;
    - logs in and out;
    - creates and deletes services and polls their status;
    - scrapes the text that `cf target`, `cf service`, `cf services` and `cf apps` print.
  - The class attribute `CloudFoundry.initialized` is a `Session` object shared by every instance.
  - The shell is an oracle: the n-th command it ever receives gets the reply `respond(n)` (exit code and output).
  - The shell's log of commands is the state the methods change.
- `cloudfoundry/platform/util.py` becomes `util.dfy` (module `PlatformUtil`). The bounded-retry `Poller` is specified by `Poll`, the least stopping point of the loop.
  - A condition is the sequence of answers it gives, indexed by evaluation number.
  - A sleep is counted, not timed.
- `cloudfoundry/config.py` becomes `config.dfy` (module `Config`):
  - `env_vars`;
  - the ordered required-field checks;
  - the `from_env_vars` constructors;
  - `ServiceConfig.__eq__`;
  - the server defaults written into the shared environment dictionary.

Two helper files support these:

- `py.dfy` (module `PyValues`): `None`, `dict.get` and Python truthiness.
- `text.dfy` (module `Text`): the `str` operations the package uses, which are `strip`, `split`, `startswith` and `index`. It also has a join of words by one separator, which is how the model renders the commands the package builds with `+` and `%`.

Methods that loop or change state are proved against specification functions. Those
functions are:

- `TargetOf`, `ServiceOf`, `ServiceNames`, `AppNames`;
- `Poll`, `CliWait`;
- `CreateSpec`, `DeleteSpec`, `OpenSpec`, `AfterOpen`;
- `WithPrefix`, `WithServerDefaults`.

Lemmas state what the source promises about them.

Re-targeting in the constructor does not set `initialized`. A session that had to
re-target therefore still logs in on `connect` (`Cli.RetargetThenLogin`).

## Model

| member | source | states |
|---|---|---|
| PyValues.Get | src/python/cloudfoundry/config.py:41 | `dict.get` gives a value exactly when the key is present, and then the stored one |
| Text.StripEmpty | src/python/cloudfoundry/cli.py:216 | `line.strip()` is falsy exactly when the line is all whitespace |
| Text.IndexOf | src/python/cloudfoundry/cli.py:77 | `index(':')` is the position of the first colon |
| Text.FirstTokenIsPrefix | src/python/cloudfoundry/cli.py:174 | `line.split(' ')[0]` is the text before the first space, or the whole line when there is none |
| CliParse.CollectKeys | src/python/cloudfoundry/cli.py:75-79 | a key is in the scraped dict exactly when some line yields it |
| CliParse.CollectLast | src/python/cloudfoundry/cli.py:75-79 | a key holds the value of the last line that yields it (later duplicates overwrite) |
| CliParse.ReadBlock | src/python/cloudfoundry/cli.py:75-79 | the dict-filling loop shared by `current_target` and `service` yields the lines' pairs in order, a later one overwriting |
| CliParse.ParseTarget | src/python/cloudfoundry/cli.py:74-81 | `current_target`'s loop computes the first-colon key/value map of the output |
| CliParse.CollectTargetLines | src/python/cloudfoundry/cli.py:74-79 | "key: value" lines read back as exactly the listed keys with their values, for keys that `strip` leaves alone and that hold no colon or newline, and values that `strip` leaves alone and that hold no newline (either may be empty) |
| CliParse.TargetRoundTrip | src/python/cloudfoundry/cli.py:74-81 | listing a map's entries as "key: value" lines in any order parses back to the same map, when keys are stripped and free of colons and newlines and values are stripped and free of newlines; empty keys and values and values with colons are included |
| CliParse.TargetSplitsFirst | src/python/cloudfoundry/cli.py:76-79 | a line "k: v" gives key k and value v whenever `strip` leaves both alone and k has no colon, the empty key and value included |
| CliParse.LastSplit | src/python/cloudfoundry/cli.py:193-197 | the greedy `(.+)` ends at a colon that is followed by whitespace and is not the first character |
| CliParse.LastSplitIsLast | src/python/cloudfoundry/cli.py:193-197 | no later colon-whitespace position exists: the split is at the last one |
| CliParse.ServiceEntryMatches | src/python/cloudfoundry/cli.py:196-198 | a stripped line matches `(.+):\s+(.*)` exactly when it has such a colon |
| CliParse.ServiceSplitsLast | src/python/cloudfoundry/cli.py:196-199 | a line "head: v" gives key head and value v when v holds no colon |
| CliParse.SplitsDiffer | src/python/cloudfoundry/cli.py:77-78 | on "k: m: v", `current_target` splits at the first colon and `service` at the last one |
| CliParse.EmptyValueDiffers | src/python/cloudfoundry/cli.py:193-199 | "key:" gives nothing to `service` but an empty value to `current_target` |
| CliParse.ParseService | src/python/cloudfoundry/cli.py:192-205 | the parse builds the record from the scraped keys, with `None` for each missing one |
| CliParse.ParsingAfterHeader | src/python/cloudfoundry/cli.py:216-218 | `parse_line` is set exactly once a non-blank line starting with "name" has been read |
| CliParse.NoHeaderNoNames | src/python/cloudfoundry/cli.py:212-222 | without a header line nothing is looked up |
| CliParse.ScanWhileParsing | src/python/cloudfoundry/cli.py:220-222 | once parsing, a line adds its first token exactly when it is a non-blank non-header row |
| CliParse.FirstHeader | src/python/cloudfoundry/cli.py:217-218 | the first header starts parsing with no name collected |
| CliParse.RowsAfterHeader | src/python/cloudfoundry/cli.py:213-222 | after the first header, the names are the first tokens of the data rows that follow, in order |
| CliParse.NamesFollowFirstHeader | src/python/cloudfoundry/cli.py:213-222 | lines before the first header are ignored and every later data row contributes its first token |
| CliParse.AppsHeader | src/python/cloudfoundry/cli.py:171-175 | the first four lines contribute nothing, blank or not |
| CliParse.AppsAfterHeader | src/python/cloudfoundry/cli.py:172-175 | from line index 4 on, every non-empty line contributes its first token, in order |
| CliParse.ParseApps | src/python/cloudfoundry/cli.py:168-176 | the loop of `apps` computes exactly those tokens |
| PlatformUtil.StopFrom | src/python/cloudfoundry/platform/util.py:35-42 | the loop stops at the least sleep count at which success holds, the budget is spent, or failure fired |
| PlatformUtil.FirstStop | src/python/cloudfoundry/platform/util.py:35-47 | the first stopping point determines the result and the number of sleeps |
| PlatformUtil.ZeroWaitFastPath | src/python/cloudfoundry/platform/util.py:35-36 | a first success returns true with no sleep |
| PlatformUtil.SleepsWithinBudget | src/python/cloudfoundry/platform/util.py:36 | the sleeps never exceed `max_retries` (none for a budget of 0 or less) |
| PlatformUtil.NoBudgetSingleCheck | src/python/cloudfoundry/platform/util.py:35-36 | with `max_retries <= 0`, the one success evaluation is the answer |
| PlatformUtil.FailureShortCircuits | src/python/cloudfoundry/platform/util.py:40-42 | failure after the k-th sleep stops the loop there and returns the success value just evaluated |
| PlatformUtil.SuccessWinsTie | src/python/cloudfoundry/platform/util.py:40-47 | success and failure in the same iteration return true |
| PlatformUtil.BudgetExhausted | src/python/cloudfoundry/platform/util.py:36-47 | if neither condition fires, exactly `max_retries` sleeps occur and the answer is false |
| PlatformUtil.Poller.constructor | src/python/cloudfoundry/platform/util.py:24-26 | the interval and budget are stored |
| PlatformUtil.Poller.WaitFor | src/python/cloudfoundry/platform/util.py:28-47 | the loop meets `Poll` and changes no field; success is evaluated sleeps+1 times and failure sleeps times |
| Config.EnvVars | src/python/cloudfoundry/config.py:7-16 | a non-empty prefix gives exactly the entries whose key starts with it, values unchanged; an empty or `None` prefix gives the whole environment |
| Config.WithPrefixGet | src/python/cloudfoundry/config.py:12-16 | a key with the prefix reads the same in the filtered map |
| Config.Require | src/python/cloudfoundry/config.py:72-73 | one required-field step raises for a falsy value and otherwise defers to the later checks |
| Config.DefaultTestConfig | src/python/cloudfoundry/config.py:20-24 | 150 retries and the offline Java buildpack |
| Config.ValidateDeployer | src/python/cloudfoundry/config.py:71-83 | raises exactly when one of the six settings is falsy, naming the first in source order; skip_ssl_validation is never checked |
| Config.NewDeployerConfig | src/python/cloudfoundry/config.py:53-65 | construction stores the settings and always validates |
| Config.DeployerKeysHavePrefix | src/python/cloudfoundry/config.py:29-36 | every deployer key starts with the deployer prefix |
| Config.DeployerFromEnvOutcome | src/python/cloudfoundry/config.py:38-51 | a missing or empty URL raises before anything is built; otherwise the environment's values are validated |
| Config.Connection | src/python/cloudfoundry/config.py:67-69 | exactly the keys url, org, space, domain, username and password, holding the API endpoint, org, space, app domain, username and password |
| Config.DBFromEnv | src/python/cloudfoundry/config.py:89-101 | `None` exactly without a truthy SQL_HOST; the index is SQL_INDEX as found |
| Config.ValidateDatasource | src/python/cloudfoundry/config.py:128-143 | passes exactly when all seven fields are truthy and the port parses as an int; otherwise the first falsy field among url, username, password, driver_class_name, host and port is reported, then a port that does not parse is reported with its text, then a falsy provider |
| Config.ValidateKafka | src/python/cloudfoundry/config.py:166-172 | broker_address, username, password in that order |
| Config.KafkaFromEnv | src/python/cloudfoundry/config.py:149-159 | `None` exactly without a truthy broker address |
| Config.ValidateService | src/python/cloudfoundry/config.py:200-212 | name, service, plan in order; the config is parsed only when truthy |
| Config.NewServiceConfig | src/python/cloudfoundry/config.py:176-181 | construction stores the fields and always validates |
| Config.OfService | src/python/cloudfoundry/config.py:188-190 | a looked-up service converts exactly when its name, service and plan are truthy, with no config |
| Config.DefaultsAreValid | src/python/cloudfoundry/config.py:192-198 | the rabbit and scheduler defaults pass validation |
| Config.EqualsIgnoresService | src/python/cloudfoundry/config.py:183-186 | as written, configs differing only in service compare equal, and one with an empty service is unequal to itself |
| Config.EqualsAcrossServices | src/python/cloudfoundry/config.py:183-186 | the rabbit default compares equal to a different value naming another broker |
| Config.EqualsIntendedIsEquality | src/python/cloudfoundry/config.py:183-186 | the intended comparison holds exactly for equal values |
| Config.EqualsOnValid | src/python/cloudfoundry/config.py:183-186 | on validated configs, the comparison as written is an equivalence that contains equality |
| Config.ServerDefaultsMeaning | src/python/cloudfoundry/config.py:234-239 | the three keys are filled exactly where missing or empty; every other entry is unchanged |
| Config.ServerDefaultsIdempotent | src/python/cloudfoundry/config.py:234-239 | defaulting twice equals defaulting once |
| Config.Env.constructor | src/python/cloudfoundry/config.py:233 | the dictionary the server configuration shares |
| Config.Env.ApplyServerDefaults | src/python/cloudfoundry/config.py:234-239 | the in-place updates produce `WithServerDefaults` of the old dictionary |
| Config.FlagFromEnv | src/python/cloudfoundry/config.py:221-226 | a non-empty environment string is kept (and is truthy), otherwise the default is used |
| Config.ValidateFeatures | src/python/cloudfoundry/config.py:241-245 | passes exactly when streams or tasks is on and schedules imply tasks; each error exactly in its case |
| Config.EnvFlagsAlwaysValid | src/python/cloudfoundry/config.py:218-227 | flags read from the environment always validate, since "false" is a truthy string |
| Config.FeatureCheckOrder | src/python/cloudfoundry/config.py:241-245 | "no feature" is reported before "schedules without tasks" |
| Config.DataflowConfig.constructor | src/python/cloudfoundry/config.py:229-239 | the flags are stored and the shared env is defaulted with 'dataflow-server' |
| Config.DataflowConfig.FromEnvVars | src/python/cloudfoundry/config.py:218-227 | streams and tasks default to on, schedules to off; the env is the filtered map with defaults; the result validates |
| Config.SkipperConfig.constructor | src/python/cloudfoundry/config.py:256-263 | the shared env is defaulted with 'skipper-server' |
| Config.SkipperConfig.FromEnvVars | src/python/cloudfoundry/config.py:251-254 | the env is the filtered map with defaults |
| Config.ValidateCloudFoundry | src/python/cloudfoundry/config.py:289-291 | raises exactly when the deployer configuration is missing |
| Config.CloudFoundryFromEnv | src/python/cloudfoundry/config.py:267-274 | raises what the deployer settings raise; otherwise Data Flow with the three flags and the defaulted environment that `DataflowConfig.from_env_vars` builds, the database and Kafka only when configured, and the rabbit default service |
| Cli.Session.constructor | src/python/cloudfoundry/cli.py:13 | the flag starts false |
| Cli.TargetCommandWords | src/python/cloudfoundry/cli.py:83-89 | `-o` and `-s` appear exactly when org and space are given, each followed by its value |
| Cli.LoginCommandWords | src/python/cloudfoundry/cli.py:105-118 | each credential follows its option; the command ends in `--skip-ssl-validation` exactly when that setting is truthy |
| Cli.CreateServiceCommandText | src/python/cloudfoundry/cli.py:123-125 | for every configuration, the command is `cf create-service`, service, plan and name, each after a single space, then a space and `-c '<config>'` for a truthy config (spaces inside stay in the one quoted argument) or nothing |
| Cli.CreateServiceCommandWords | src/python/cloudfoundry/cli.py:123-125 | with no space in service, plan or name, those are words three to five and the rest is the config option |
| Cli.LookupCommandsAt | src/python/cloudfoundry/cli.py:220-222 | exactly one `cf service` per row, in row order |
| Cli.LookupsAt | src/python/cloudfoundry/cli.py:186-190 | the k-th looked-up record answers the k-th lookup; a non-zero exit gives `None` |
| Cli.OrDefault | src/python/cloudfoundry/cli.py:235-238 | a missing or zero setting takes the configured default |
| Cli.ZeroRetriesMeansDefault | src/python/cloudfoundry/cli.py:237-238 | `max_retries=0` falls back on 150 retries, unlike the Poller |
| Cli.WaitFromMatchesPoll | src/python/cloudfoundry/cli.py:241-247 | with conditions that never raise, the loop ends at `Poll`'s stopping point |
| Cli.CliWaitMatchesPoll | src/python/cloudfoundry/cli.py:234-252 | `CloudFoundry.wait_for` is `Poller.wait_for`: same answer, same sleeps, 2·sleeps+1 evaluations |
| Cli.FirstRaiseEscapes | src/python/cloudfoundry/cli.py:240 | an exception from the first success evaluation escapes before any sleep |
| Cli.DeleteRaisesOnceGone | src/python/cloudfoundry/cli.py:153-156 | as written, a service that disappears after one sleep makes `delete_service` raise `AttributeError` |
| Cli.DeleteGuardedPolls | src/python/cloudfoundry/cli.py:153-156 | with the guarded failure condition, deletion polls like `Poll` and the same replies return true |
| Cli.DeleteServiceRaisesOnceGone | src/python/cloudfoundry/cli.py:142-159 | as written, a service listed at the first lookup and gone at the next two makes `delete_service` raise `AttributeError` after three lookups; the guarded delete returns the reply on the same replies |
| Cli.LifecycleShortCircuits | src/python/cloudfoundry/cli.py:127-132 | a dry run or non-zero exit returns the command's reply with no polling (create and delete) |
| Cli.CreateFollowsPoll | src/python/cloudfoundry/cli.py:134-140 | a true poll returns the reply; a false poll raises `SystemExit` |
| Cli.CreateAtOnce | src/python/cloudfoundry/cli.py:134-140 | "create succeeded" at the first lookup returns after one lookup and no sleep |
| Cli.DeleteAtOnce | src/python/cloudfoundry/cli.py:153-159 | a service gone at the first lookup returns the reply after one lookup |
| Cli.DeleteNeverNoStatus | src/python/cloudfoundry/cli.py:153-159 | the guarded delete returns the reply or raises `SystemExit`, never `AttributeError` |
| Cli.ConnectConflict | src/python/cloudfoundry/cli.py:55-56 | a live target at another endpoint raises, with no login and the flag untouched |
| Cli.ConnectMatched | src/python/cloudfoundry/cli.py:66-68 | an exact endpoint, org and space match sets the flag, so `connect` sends no login |
| Cli.ConnectRetarget | src/python/cloudfoundry/cli.py:58-64 | same endpoint with other org or space sends one `cf target -o … -s …`, and its failure raises |
| Cli.RetargetThenLogin | src/python/cloudfoundry/cli.py:58-65 | re-targeting leaves the flag unset, so `connect` then logs in |
| Cli.ConnectWhenInitialized | src/python/cloudfoundry/cli.py:20-34 | an initialized session sends no login |
| Cli.ConnectLoginFails | src/python/cloudfoundry/cli.py:23-29 | a failed login sends one logout and leaves the flag false |
| Cli.ConnectSucceeds | src/python/cloudfoundry/cli.py:30-31 | a `connect` that returns leaves the session initialized |
| Cli.CloudFoundry.constructor | src/python/cloudfoundry/cli.py:44-47 | the configurations, shell and session are stored |
| Cli.CloudFoundry.CurrentTarget | src/python/cloudfoundry/cli.py:70-81 | sends `cf target` and returns the first-colon map of its output |
| Cli.CloudFoundry.Target | src/python/cloudfoundry/cli.py:83-89 | sends the target command and returns its reply |
| Cli.CloudFoundry.Login | src/python/cloudfoundry/cli.py:105-118 | sends the login command built from the deployer settings |
| Cli.CloudFoundry.Logout | src/python/cloudfoundry/cli.py:99-103 | sends `cf logout`; the flag is cleared only on exit code 0 |
| Cli.CloudFoundry.Service | src/python/cloudfoundry/cli.py:186-205 | `None` on a non-zero exit, without parsing; otherwise the last-colon record of the output |
| Cli.CloudFoundry.Services | src/python/cloudfoundry/cli.py:207-225 | one lookup per data row after the header, in order, and their records |
| Cli.CloudFoundry.AppendLookup | src/python/cloudfoundry/cli.py:221-222 | a data row sends one `cf service` for its first token and appends the record of that reply, keeping the log and the records in step with the names |
| Cli.CloudFoundry.Apps | src/python/cloudfoundry/cli.py:167-176 | sends `cf apps` and returns the app names of its output |
| Cli.CloudFoundry.WaitFor | src/python/cloudfoundry/cli.py:227-252 | the loop meets `CliWait` with the defaulted budget |
| Cli.CloudFoundry.CreateService | src/python/cloudfoundry/cli.py:120-140 | result and commands sent are those of `CreateSpec` |
| Cli.CloudFoundry.DeleteService | src/python/cloudfoundry/cli.py:142-159 | result and commands sent are those of `DeleteSpec`, which uses the guarded failure condition |
| Cli.CloudFoundry.FinishDelete | src/python/cloudfoundry/cli.py:153-159 | once the poll has ended, its lookups are logged; an error from the poll propagates, true returns the delete reply, and false looks the service up once more and raises `SystemExit` with that record, per `DeleteAfterWait` |
| Cli.CloudFoundry.Open | src/python/cloudfoundry/cli.py:36-68 | the constructor's probe, reconciliation, commands, flag and exception are those of `OpenSpec` |
| Cli.CloudFoundry.Connect | src/python/cloudfoundry/cli.py:15-34 | `connect`'s commands, flag and exception are those of `AfterOpen` applied to the constructor's effect; a returned object is new and holds the given configurations, shell and session |

## Left out

- Process execution: `Shell.exec`, `stdout_to_s`, `log_stdout` and the shell's class are not part of this model. A reply is an oracle value (exit code, output), and `cf --version` either runs or raises (`installed`).
- Logging, `print` and every `json.dumps` of the log messages are dropped.
- `time.sleep` is not modelled. Sleeps are counted, and `wait_sec` (the Poller's `waitSec`, the CLI's interval default) has no effect on the model.
- Cli.CloudFoundry.WaitFor: the `args` list passed to the conditions is always empty in the package and is omitted. The messages are log text.
- Config.DefaultTestConfig: `deploy_wait_sec` is written `20,`, a one-element tuple. It is modelled as 20, the value evidently meant, because the interval has no effect on the model.
- `wait_for_200` is an HTTP request and is not modelled.
- `os.environ` is passed in as a map. Python's `int()` and `json.loads` acceptance are passed in as predicates.
- `push`, `is_logged_in`, `delete_all` and the stubs `create_service_key`, `delete_service_key` and `delete_app` are thin wrappers or empty.
- Aliasing through mutable default arguments (`env={}`, the shared `TestConfig()` and `Shell()` defaults) is not modelled. Each configuration gets its own `Env` object.
- Cli.CloudFoundry.Open: the `ValueError`s for a falsy deployer, test configuration or shell cannot arise with the typed arguments and are not modelled.
- Cli.CloudFoundry.CreateService: requires a truthy service name, which `ServiceConfig` validation guarantees for every constructed configuration.
- Cli.CloudFoundry.CreateService, Cli.CloudFoundry.DeleteService: the lookups the polling conditions send are logged as one batch after polling. Their replies are still indexed in the order they are sent.
- Cli.CloudFoundry.DeleteService: its contract is the delete with the guarded failure condition (`DeleteSpec`). The source's own behaviour, including the `AttributeError` when a service vanishes after a sleep, is `DeleteAsWrittenSpec`, shown by `Cli.DeleteServiceRaisesOnceGone`. The method itself does not run the as-written condition.
- Cli.Lookup: the parsing of `service` is stated through `CliParse.ParseService` and the lemmas on `ServiceEntry`, not on `Lookup` itself.
- `CloudFoundryConfig.validate` warnings about missing Data Flow or Skipper settings only log and are not modelled. `datasources_config` is never read and is omitted.
- `cloudfoundry.domain.Service` and `JSonEnabled` are not part of this model. Service is a plain record of five optional strings.

## Findings

| source | as written | input that shows it | evidently intended | confidence | as-written member | corrected member |
|---|---|---|---|---|---|---|
| src/python/cloudfoundry/config.py:183-186 | `__eq__` tests only that both `service` fields are truthy | `rabbit_default()` against the same config with service "p.redis" compares equal | `self.service == other.service` | not executed | Config.EqualsAcrossServices | Config.EqualsIntendedIsEquality |
| src/python/cloudfoundry/cli.py:153-156 | the delete failure condition reads `.status` of `self.service(name)`, which is `None` once the service is gone | first lookup exits 0 and the next two exit non-zero, with budget at least 1: `wait_for` raises `AttributeError` after one sleep | a vanished service has not failed to delete | not executed | Cli.DeleteServiceRaisesOnceGone | Cli.DeleteGuardedPolls |
