/** `cloudfoundry/cli.py`: the `CloudFoundry` wrapper around the `cf` command-line tool.

    The shell is an oracle. It records every command it is sent, and the n-th command
    it ever receives (counting from 0) gets the reply `respond(n)`. The class-level flag
    `CloudFoundry.initialized` is held in a `Session` object shared by every
    `CloudFoundry`. An exception is an `Outcome` that is `Raised`. */
module Cli {
  import opened PyValues
  import opened Text
  import opened CliParse
  import opened PlatformUtil
  import opened Config

  /** What `Shell.exec` hands back: the exit code and what the command printed. */
  datatype Proc = Proc(returnCode: int, stdout: string)

  /** The exceptions the wrapper raises, or lets escape from a polling condition. */
  datatype CfError =
    | NotInstalled                                         // RuntimeError('cf cli is not installed')
    | AlreadyLoggedIn(endpoint: string)                    // RuntimeError("Already logged in to ...")
    | EndpointMissing                                      // TypeError: "Already logged in to " + None
    | TargetFailed                                         // RuntimeError("unable to log in to CF environment")
    | LoginFailed(org: Option<string>, space: Option<string>)  // RuntimeError("cf login failed ...")
    | CreateFailed(name: Option<string>)                   // SystemExit("FATAL: unable to create service ...")
    | DeleteFailed(lookup: Option<Service>)                // SystemExit("FATAL: " + str(self.service(name)))
    | NoStatus                                             // AttributeError: None has no attribute 'status'

  /** A call that returns a value or raises. */
  datatype Outcome<T> = Value(v: T) | Raised(error: CfError)

  /** A command the wrapper sends, rendered to its text by `Line`. */
  datatype Command =
    | CfVersion
    | CfTarget
    | CfSetTarget(org: Option<string>, space: Option<string>)
    | CfLogin(d: DeployerConfig)
    | CfLogout
    | CfService(name: string)
    | CfServices
    | CfApps
    | CfCreateService(c: ServiceConfig)
    | CfDeleteService(name: string)

  /** The text of a command as the source formats it. */
  function Line(cmd: Command): string {
    match cmd
    case CfVersion => "cf --version"
    case CfTarget => "cf target"
    case CfSetTarget(org, space) => TargetCommand(org, space)
    case CfLogin(d) => LoginCommand(d)
    case CfLogout => "cf logout"
    case CfService(name) => "cf service " + name
    case CfServices => "cf services"
    case CfApps => "cf apps"
    case CfCreateService(c) => CreateServiceCommand(c)
    case CfDeleteService(name) => "cf delete-service -f " + name
  }

  /** `scdf_at.shell.Shell`, of which the wrapper uses `exec` and `dry_run`. The log
      holds the commands sent, each standing for the text `Line` gives it. */
  class Shell {
    const dryRun: bool
    /** Whether `cf --version` runs, rather than raising. */
    const installed: bool
    const respond: nat -> Proc
    var commands: seq<Command>

    constructor (dryRun: bool, installed: bool, respond: nat -> Proc)
      ensures this.dryRun == dryRun && this.installed == installed && this.respond == respond
      ensures commands == []
    {
      this.dryRun := dryRun;
      this.installed := installed;
      this.respond := respond;
      commands := [];
    }

    /** `exec(cmd)`: sends one command and answers with the reply due to it. */
    method Exec(cmd: Command) returns (proc: Proc)
      modifies this
      ensures commands == old(commands) + [cmd]
      ensures proc == respond(|old(commands)|)
    {
      proc := respond(|commands|);
      commands := commands + [cmd];
    }

    /** Commands the polling conditions sent, given as a batch once polling is over. */
    method Record(cmds: seq<Command>)
      modifies this
      ensures commands == old(commands) + cmds
    {
      commands := commands + cmds;
    }
  }

  /** The class attribute `CloudFoundry.initialized`. */
  class Session {
    var initialized: bool

    constructor ()
      ensures !initialized
    {
      initialized := false;
    }
  }

  // ---- commands ----------------------------------------------------------------------------

  /** `cmd + " -o %s" % org + " -s %s" % space`, each part only when it is not `None`,
      written as the words the spaces separate. */
  function TargetWords(org: Option<string>, space: Option<string>): seq<string> {
    ["cf", "target"] + (if org.Some? then ["-o", org.value] else []) + (if space.Some? then ["-s", space.value] else [])
  }

  function TargetCommand(org: Option<string>, space: Option<string>): string {
    Join(TargetWords(org, space), ' ')
  }

  /** The `-o` and `-s` options appear exactly when org and space are given, each followed
      by its value, provided neither holds a space. */
  lemma TargetCommandWords(org: Option<string>, space: Option<string>)
    requires org.Some? ==> ' ' !in org.value
    requires space.Some? ==> ' ' !in space.value
    ensures var w := Split(TargetCommand(org, space), ' ');
      && |w| == 2 + (if org.Some? then 2 else 0) + (if space.Some? then 2 else 0)
      && w[..2] == ["cf", "target"]
      && (org.Some? ==> w[2] == "-o" && w[3] == org.value)
      && (space.Some? ==> w[|w| - 2] == "-s" && w[|w| - 1] == space.value)
  {
    JoinSplit(TargetWords(org, space), ' ');
  }

  /** The last word of the login command: the skip flag, or an empty word. */
  function SkipSslWord(skip: Flag): string {
    if skip.IsTrue() then "--skip-ssl-validation" else ""
  }

  /** The words of `"cf login -a %s -o %s -s %s -u %s -p %s %s"`; a `None` setting is
      written "None". */
  function LoginWords(d: DeployerConfig): seq<string> {
    ["cf", "login", "-a", Show(d.apiEndpoint), "-o", Show(d.org), "-s", Show(d.space),
     "-u", Show(d.username), "-p", Show(d.password), SkipSslWord(d.skipSslValidation)]
  }

  function LoginCommand(d: DeployerConfig): string {
    Join(LoginWords(d), ' ')
  }

  predicate NoSpaces(s: Option<string>) {
    ' ' !in Show(s)
  }

  /** Each credential follows its own option, and the command ends in
      `--skip-ssl-validation` exactly when that setting is truthy (otherwise in an empty
      word: the format leaves a trailing space). */
  lemma LoginCommandWords(d: DeployerConfig)
    requires NoSpaces(d.apiEndpoint) && NoSpaces(d.org) && NoSpaces(d.space)
    requires NoSpaces(d.username) && NoSpaces(d.password)
    ensures var w := Split(LoginCommand(d), ' ');
      && |w| == 13 && w[..3] == ["cf", "login", "-a"]
      && w[3] == Show(d.apiEndpoint) && w[4] == "-o" && w[5] == Show(d.org) && w[6] == "-s" && w[7] == Show(d.space)
      && w[8] == "-u" && w[9] == Show(d.username) && w[10] == "-p" && w[11] == Show(d.password)
      && (w[12] == "--skip-ssl-validation" <==> d.skipSslValidation.IsTrue())
      && (w[12] == "" <==> !d.skipSslValidation.IsTrue())
  {
    JoinSplit(LoginWords(d), ' ');
  }

  /** The words of `"cf create-service %s %s %s %s"`; the last argument, `-c '<config>'`,
      is there only for a truthy config and is otherwise an empty word. */
  function CreateServiceWords(c: ServiceConfig): seq<string> {
    ["cf", "create-service", Show(c.service), Show(c.plan), Show(c.name)]
      + (if Truthy(c.config) then ["-c", "'" + c.config.value + "'"] else [""])
  }

  function CreateServiceCommand(c: ServiceConfig): string {
    Join(CreateServiceWords(c), ' ')
  }

  /** The `-c` argument: the config in single quotes when it is truthy, else nothing. */
  function ConfigOption(config: Option<string>): string {
    if Truthy(config) then "-c '" + config.value + "'" else ""
  }

  /** The command text for every configuration: the words "cf", "create-service",
      service, plan and name separated by single spaces, then a space and the quoted
      config option, which may itself hold spaces (a JSON object, say) and stays one
      quoted argument. */
  lemma CreateServiceCommandText(c: ServiceConfig)
    ensures CreateServiceCommand(c) ==
      Join(["cf", "create-service", Show(c.service), Show(c.plan), Show(c.name)], ' ') + " " + ConfigOption(c.config)
  {
    var tail := if Truthy(c.config) then ["-c", "'" + c.config.value + "'"] else [""];
    if Truthy(c.config) {
      JoinCons("-c", ["'" + c.config.value + "'"], ' ');
    }
    JoinAppend(["cf", "create-service", Show(c.service), Show(c.plan), Show(c.name)], tail, ' ');
  }

  /** Service, plan and name, which the format does not quote, are the third to fifth
      words when they hold no space; everything after them is the config option. */
  lemma CreateServiceCommandWords(c: ServiceConfig)
    requires NoSpaces(c.service) && NoSpaces(c.plan) && NoSpaces(c.name)
    ensures Split(CreateServiceCommand(c), ' ') ==
      ["cf", "create-service", Show(c.service), Show(c.plan), Show(c.name)] + Split(ConfigOption(c.config), ' ')
  {
    var words := ["cf", "create-service", Show(c.service), Show(c.plan), Show(c.name)];
    CreateServiceCommandText(c);
    assert ' ' !in "cf" && ' ' !in "create-service";
    JoinSplit(words, ' ');
    SplitAt(Join(words, ' '), ConfigOption(c.config), ' ');
  }

  /** The commands `services` sends for the names it looks up, one each, in order. */
  function LookupCommands(names: seq<string>): (cmds: seq<Command>)
    ensures |cmds| == |names|
    decreases |names|
  {
    if names == [] then [] else LookupCommands(names[..|names| - 1]) + [CfService(names[|names| - 1])]
  }

  /** A further name adds its lookup command at the end of the log. */
  lemma LookupCommandsSnoc(log: seq<Command>, names: seq<string>, name: string)
    ensures (log + LookupCommands(names)) + [CfService(name)] == log + LookupCommands(names + [name])
  {
    assert (names + [name])[..|names|] == names;
  }

  /** Each name gets its own lookup command, in the order of the names. */
  lemma {:induction false} LookupCommandsAt(names: seq<string>, k: int)
    requires 0 <= k < |names|
    ensures LookupCommands(names)[k] == CfService(names[k])
    decreases |names|
  {
    if k < |names| - 1 {
      LookupCommandsAt(names[..|names| - 1], k);
    }
  }

  /** `n` copies of one command. */
  function Repeat(cmd: Command, n: nat): (r: seq<Command>)
    ensures |r| == n && forall i :: 0 <= i < n ==> r[i] == cmd
  {
    seq(n, _ => cmd)
  }

  /** One more copy of a command at the end of a log. */
  lemma RepeatSnoc(log: seq<Command>, cmd: Command, n: nat)
    ensures (log + Repeat(cmd, n)) + [cmd] == log + Repeat(cmd, n + 1)
  {
    assert Repeat(cmd, n) + [cmd] == Repeat(cmd, n + 1);
  }

  // ---- service lookups ----------------------------------------------------------------------

  /** What `service(name)` makes of the reply to `cf service NAME`: `None` on a non-zero
      exit code, without reading the output; the parsed record otherwise. */
  function Lookup(proc: Proc): Option<Service> {
    if proc.returnCode != 0 then None else Some(ServiceOf(proc.stdout))
  }

  /** The records the lookups answered `count` commands from `base` on. */
  function Lookups(respond: nat -> Proc, base: nat, count: nat): (r: seq<Option<Service>>)
    ensures |r| == count
  {
    if count == 0 then [] else Lookups(respond, base, count - 1) + [Lookup(respond(base + count - 1))]
  }

  /** One more lookup appends its answer. */
  lemma LookupsSnoc(respond: nat -> Proc, base: nat, count: nat, s: Option<Service>)
    requires s == Lookup(respond(base + count))
    ensures Lookups(respond, base, count + 1) == Lookups(respond, base, count) + [s]
  {
  }

  /** The k-th record is the answer to the k-th lookup. */
  lemma {:induction false} LookupsAt(respond: nat -> Proc, base: nat, count: nat, k: nat)
    requires k < count
    ensures Lookups(respond, base, count)[k] == Lookup(respond(base + k))
    decreases count
  {
    if k < count - 1 {
      LookupsAt(respond, base, count - 1, k);
    }
  }

  // ---- wait_for ---------------------------------------------------------------------------

  /** `if not x: x = default`: a missing or zero setting takes the configured default. */
  function OrDefault(x: Option<int>, default: int): (r: int)
    ensures x.None? ==> r == default
    ensures x.Some? && x.value == 0 ==> r == default
    ensures x.Some? && x.value != 0 ==> r == x.value
  {
    if x.None? || x.value == 0 then default else x.value
  }

  /** Unlike `Poller`, an explicit `max_retries=0` does not mean "check once": it falls
      back on the configured budget, 150 by default. */
  lemma ZeroRetriesMeansDefault()
    ensures OrDefault(Some(0), DefaultTestConfig().maxRetries) == 150
    ensures OrDefault(None, DefaultTestConfig().maxRetries) == 150
  {
  }

  /** What a call of `wait_for` amounts to: what it returned or raised, the sleeps, and
      how many times a condition was evaluated (each evaluation may send a command). */
  datatype Waited = Waited(outcome: Outcome<bool>, sleeps: nat, evals: nat)

  /** The loop of `wait_for` from the point where it has slept k times and the last
      success evaluation gave `answer`. `success(j)` answers the j-th success
      evaluation and `failure(j)` the failure evaluation after the (j+1)-th sleep; an
      exception in either ends the call. */
  function WaitFrom(success: nat -> Outcome<bool>, failure: nat -> Outcome<bool>, budget: int, k: nat, answer: bool): Waited
    decreases budget - k
  {
    if answer || k >= budget then Waited(Value(answer), k, 2 * k + 1)
    else
      var s := success(k + 1);
      if s.Raised? then Waited(s, k + 1, 2 * k + 2)
      else
        var f := failure(k);
        if f.Raised? then Waited(f, k + 1, 2 * k + 3)
        else if f.v then Waited(Value(s.v), k + 1, 2 * k + 3)
        else WaitFrom(success, failure, budget, k + 1, s.v)
  }

  /** The specification of `CloudFoundry.wait_for` with a budget of `budget` sleeps. */
  function CliWait(success: nat -> Outcome<bool>, failure: nat -> Outcome<bool>, budget: int): Waited {
    var s := success(0);
    if s.Raised? then Waited(s, 0, 1) else WaitFrom(success, failure, budget, 0, s.v)
  }

  ghost predicate NeverRaises(p: nat -> Outcome<bool>) {
    forall k: nat :: p(k).Value?
  }

  /** The answers of a condition that does not raise. */
  function Answers(p: nat -> Outcome<bool>): nat -> bool {
    (k: nat) => p(k).Value? && p(k).v
  }

  lemma {:induction false} WaitFromMatchesPoll(success: nat -> Outcome<bool>, failure: nat -> Outcome<bool>, budget: int, k: nat)
    requires NeverRaises(success) && NeverRaises(failure)
    requires k == 0 || !Answers(failure)(k - 1)
    ensures var m := StopFrom(Answers(success), Answers(failure), budget, k);
      WaitFrom(success, failure, budget, k, Answers(success)(k)) == Waited(Value(Answers(success)(m)), m, 2 * m + 1)
    decreases budget - k
  {
    var S, F := Answers(success), Answers(failure);
    if !Stops(S, F, budget, k) {
      assert success(k + 1).Value? && failure(k).Value?;
      if F(k) {
        assert Stops(S, F, budget, k + 1);
      } else {
        WaitFromMatchesPoll(success, failure, budget, k + 1);
      }
    }
  }

  /** With conditions that never raise, `CloudFoundry.wait_for` is `Poller.wait_for`: the
      same answer after the same number of sleeps, each sleep followed by one
      evaluation of each condition. */
  lemma CliWaitMatchesPoll(success: nat -> Outcome<bool>, failure: nat -> Outcome<bool>, budget: int)
    requires NeverRaises(success) && NeverRaises(failure)
    ensures var p := Poll(Answers(success), Answers(failure), budget);
      CliWait(success, failure, budget) == Waited(Value(p.result), p.sleeps, 2 * p.sleeps + 1)
  {
    assert success(0).Value?;
    WaitFromMatchesPoll(success, failure, budget, 0);
  }

  /** An exception from the first success evaluation escapes before any sleep. */
  lemma FirstRaiseEscapes(success: nat -> Outcome<bool>, failure: nat -> Outcome<bool>, budget: int)
    requires success(0).Raised?
    ensures CliWait(success, failure, budget) == Waited(success(0), 0, 1)
  {
  }

  // ---- create_service / delete_service -----------------------------------------------------

  /** The command index of the j-th success evaluation when the first lookup is command
      `base`: evaluations alternate success, failure after the first. */
  function SuccessLookup(base: nat, j: nat): nat {
    if j == 0 then base else base + 2 * j - 1
  }

  /** The command index of the failure evaluation after the (j+1)-th sleep. */
  function FailureLookup(base: nat, j: nat): nat {
    base + 2 * j + 2
  }

  /** `self.service(name).status == status`, which raises when the lookup gives `None`. */
  function StatusIs(s: Option<Service>, status: string): Outcome<bool> {
    if s.None? then Raised(NoStatus) else Value(s.value.status == Some(status))
  }

  function CreateSucceeded(respond: nat -> Proc, base: nat): nat -> Outcome<bool> {
    (j: nat) => StatusIs(Lookup(respond(SuccessLookup(base, j))), "create succeeded")
  }

  function CreateFailedYet(respond: nat -> Proc, base: nat): nat -> Outcome<bool> {
    (j: nat) => StatusIs(Lookup(respond(FailureLookup(base, j))), "create failed")
  }

  /** `self.service(service_name) is None` */
  function Deleted(respond: nat -> Proc, base: nat): nat -> Outcome<bool> {
    (j: nat) => Value(Lookup(respond(SuccessLookup(base, j))).None?)
  }

  /** The failure condition of `delete_service` as written: it reads `.status` of a lookup
      that is `None` once the service is gone. */
  function DeleteFailedAsWritten(respond: nat -> Proc, base: nat): nat -> Outcome<bool> {
    (j: nat) => StatusIs(Lookup(respond(FailureLookup(base, j))), "delete failed")
  }

  /** The failure condition evidently intended: a vanished service has not failed. */
  function DeleteFailedGuarded(respond: nat -> Proc, base: nat): nat -> Outcome<bool> {
    (j: nat) => var s := Lookup(respond(FailureLookup(base, j)));
      Value(s.Some? && s.value.status == Some("delete failed"))
  }

  /** As written: a service that is still there at the first lookup and gone after the
      first sleep makes `delete_service` raise `AttributeError` instead of returning,
      because the failure condition looks the service up again. */
  lemma DeleteRaisesOnceGone(respond: nat -> Proc, base: nat, budget: int)
    requires budget >= 1
    requires respond(base).returnCode == 0
    requires respond(base + 1).returnCode != 0 && respond(base + 2).returnCode != 0
    ensures CliWait(Deleted(respond, base), DeleteFailedAsWritten(respond, base), budget) == Waited(Raised(NoStatus), 1, 3)
  {
    assert SuccessLookup(base, 0) == base && Lookup(respond(base)).Some?;
    assert Deleted(respond, base)(0) == Value(false);
    assert SuccessLookup(base, 1) == base + 1 && Lookup(respond(base + 1)).None?;
    assert Deleted(respond, base)(1) == Value(true);
    assert FailureLookup(base, 0) == base + 2 && Lookup(respond(base + 2)).None?;
    assert DeleteFailedAsWritten(respond, base)(0) == Raised(NoStatus);
  }

  /** The guarded condition never raises, so deletion is polled like any other condition;
      in particular the same replies now give success after one sleep. */
  lemma DeleteGuardedPolls(respond: nat -> Proc, base: nat, budget: int)
    ensures var p := Poll(Answers(Deleted(respond, base)), Answers(DeleteFailedGuarded(respond, base)), budget);
      CliWait(Deleted(respond, base), DeleteFailedGuarded(respond, base), budget) == Waited(Value(p.result), p.sleeps, 2 * p.sleeps + 1)
    ensures budget >= 1 && respond(base).returnCode == 0 && respond(base + 1).returnCode != 0 ==>
      CliWait(Deleted(respond, base), DeleteFailedGuarded(respond, base), budget) == Waited(Value(true), 1, 3)
  {
    CliWaitMatchesPoll(Deleted(respond, base), DeleteFailedGuarded(respond, base), budget);
    if budget >= 1 && respond(base).returnCode == 0 && respond(base + 1).returnCode != 0 {
      assert SuccessLookup(base, 0) == base && Lookup(respond(base)).Some?;
      assert Deleted(respond, base)(0) == Value(false);
      assert SuccessLookup(base, 1) == base + 1 && Lookup(respond(base + 1)).None?;
      assert Deleted(respond, base)(1) == Value(true);
      assert DeleteFailedGuarded(respond, base)(0).Value?;
      assert WaitFrom(Deleted(respond, base), DeleteFailedGuarded(respond, base), budget, 1, true) == Waited(Value(true), 1, 3);
    }
  }

  /** The result of `create_service`/`delete_service` and the lookups made after the first
      command. */
  datatype Done = Done(outcome: Outcome<Proc>, lookups: nat)

  /** `create_service`: the create command is command `n`. Dry run and a non-zero exit
      code return its reply at once; otherwise the service's status is polled and a
      poll that ends false raises `SystemExit`. */
  function CreateSpec(c: ServiceConfig, dryRun: bool, respond: nat -> Proc, n: nat, budget: int): Done {
    var proc := respond(n);
    if dryRun || proc.returnCode != 0 then Done(Value(proc), 0)
    else
      var w := CliWait(CreateSucceeded(respond, n + 1), CreateFailedYet(respond, n + 1), budget);
      match w.outcome
      case Raised(e) => Done(Raised(e), w.evals)
      case Value(ok) => if ok then Done(Value(proc), w.evals) else Done(Raised(CreateFailed(c.name)), w.evals)
  }

  /** What `delete_service` does once the poll `w` has ended, `proc` being the reply to
      the delete command `n`: a poll that ends false looks the service up once more for
      the message of `SystemExit`. */
  function DeleteAfterWait(proc: Proc, respond: nat -> Proc, n: nat, w: Waited): Done {
    match w.outcome
    case Raised(e) => Done(Raised(e), w.evals)
    case Value(ok) =>
      if ok then Done(Value(proc), w.evals)
      else Done(Raised(DeleteFailed(Lookup(respond(n + 1 + w.evals)))), w.evals + 1)
  }

  /** `delete_service` as written: the delete command is command `n`, and the poll uses
      the unguarded failure condition. */
  function DeleteAsWrittenSpec(dryRun: bool, respond: nat -> Proc, n: nat, budget: int): Done {
    var proc := respond(n);
    if dryRun || proc.returnCode != 0 then Done(Value(proc), 0)
    else DeleteAfterWait(proc, respond, n, CliWait(Deleted(respond, n + 1), DeleteFailedAsWritten(respond, n + 1), budget))
  }

  /** `delete_service` with the guarded failure condition. */
  function DeleteSpec(dryRun: bool, respond: nat -> Proc, n: nat, budget: int): Done {
    var proc := respond(n);
    if dryRun || proc.returnCode != 0 then Done(Value(proc), 0)
    else DeleteAfterWait(proc, respond, n, CliWait(Deleted(respond, n + 1), DeleteFailedGuarded(respond, n + 1), budget))
  }

  /** The usual asynchronous deletion: the service is still listed at the first lookup
      and gone at the next two. As written, `delete_service` raises `AttributeError`
      after one sleep and three lookups; with the guarded condition the same replies
      make it return the delete command's reply. */
  lemma DeleteServiceRaisesOnceGone(respond: nat -> Proc, n: nat, budget: int)
    requires budget >= 1
    requires respond(n).returnCode == 0 && respond(n + 1).returnCode == 0
    requires respond(n + 2).returnCode != 0 && respond(n + 3).returnCode != 0
    ensures DeleteAsWrittenSpec(false, respond, n, budget) == Done(Raised(NoStatus), 3)
    ensures DeleteSpec(false, respond, n, budget) == Done(Value(respond(n)), 3)
  {
    DeleteRaisesOnceGone(respond, n + 1, budget);
    DeleteGuardedPolls(respond, n + 1, budget);
  }

  /** Dry run or a failed command: the reply comes back with no polling. */
  lemma LifecycleShortCircuits(c: ServiceConfig, dryRun: bool, respond: nat -> Proc, n: nat, budget: int)
    requires dryRun || respond(n).returnCode != 0
    ensures CreateSpec(c, dryRun, respond, n, budget) == Done(Value(respond(n)), 0)
    ensures DeleteSpec(dryRun, respond, n, budget) == Done(Value(respond(n)), 0)
  {
  }

  /** A create that polls: it returns the command's reply exactly when the poll answers
      true, and raises `SystemExit` when it answers false. */
  lemma CreateFollowsPoll(c: ServiceConfig, respond: nat -> Proc, n: nat, budget: int)
    requires respond(n).returnCode == 0
    ensures var w := CliWait(CreateSucceeded(respond, n + 1), CreateFailedYet(respond, n + 1), budget);
      && (w.outcome == Value(true) ==> CreateSpec(c, false, respond, n, budget) == Done(Value(respond(n)), w.evals))
      && (w.outcome == Value(false) ==> CreateSpec(c, false, respond, n, budget) == Done(Raised(CreateFailed(c.name)), w.evals))
  {
  }

  /** A service reported created at the first lookup: one lookup, no sleep, the create
      command's reply. */
  lemma CreateAtOnce(c: ServiceConfig, respond: nat -> Proc, n: nat, budget: int)
    requires respond(n).returnCode == 0 && respond(n + 1).returnCode == 0
    requires ServiceOf(respond(n + 1).stdout).status == Some("create succeeded")
    ensures CreateSpec(c, false, respond, n, budget) == Done(Value(respond(n)), 1)
  {
    assert SuccessLookup(n + 1, 0) == n + 1 && Lookup(respond(n + 1)) == Some(ServiceOf(respond(n + 1).stdout));
    assert CreateSucceeded(respond, n + 1)(0) == Value(true);
  }

  /** A service already gone at the first lookup: the delete returns at once. */
  lemma DeleteAtOnce(respond: nat -> Proc, n: nat, budget: int)
    requires respond(n).returnCode == 0 && respond(n + 1).returnCode != 0
    ensures DeleteSpec(false, respond, n, budget) == Done(Value(respond(n)), 1)
  {
    assert SuccessLookup(n + 1, 0) == n + 1 && Lookup(respond(n + 1)).None?;
    assert Deleted(respond, n + 1)(0) == Value(true);
  }

  /** The delete never raises `AttributeError`: every outcome is the reply or `SystemExit`. */
  lemma DeleteNeverNoStatus(dryRun: bool, respond: nat -> Proc, n: nat, budget: int)
    ensures DeleteSpec(dryRun, respond, n, budget).outcome.Value?
      || DeleteSpec(dryRun, respond, n, budget).outcome.error.DeleteFailed?
  {
    DeleteGuardedPolls(respond, n + 1, budget);
  }

  // ---- session -----------------------------------------------------------------------------

  /** How the constructor reconciles the live target with the configuration. */
  datatype Reconciliation =
    | NoTarget                            // `cf target` printed no "key: value" line
    | Conflict(endpoint: Option<string>)  // logged in to another API endpoint
    | Retarget                            // same endpoint, other org or space
    | Matched                             // same endpoint, org and space

  function Reconcile(target: map<string, string>, d: DeployerConfig): Reconciliation {
    if target == map[] then NoTarget
    else if Get(target, "api endpoint") != d.apiEndpoint then Conflict(Get(target, "api endpoint"))
    else if !(Get(target, "org") == d.org && Get(target, "space") == d.space) then Retarget
    else Matched
  }

  /** `"Already logged in to " + endpoint`, which itself raises `TypeError` for `None`. */
  function ConflictError(endpoint: Option<string>): CfError {
    if endpoint.Some? then AlreadyLoggedIn(endpoint.value) else EndpointMissing
  }

  /** What a session operation does: what it raised, the commands it sent, and the value
      `initialized` has afterwards. */
  datatype Effect = Effect(error: Option<CfError>, sent: seq<Command>, initialized: bool)

  /** `CloudFoundry.__init__`, the first command being number `n` and `target` what
      `cf target` (command n + 1) reports. */
  function OpenSpec(d: DeployerConfig, installed: bool, target: map<string, string>, respond: nat -> Proc, n: nat, initialized: bool): Effect {
    if !installed then Effect(Some(NotInstalled), [CfVersion], initialized)
    else
      var probe := [CfVersion, CfTarget];
      match Reconcile(target, d)
      case NoTarget => Effect(None, probe, initialized)
      case Conflict(endpoint) => Effect(Some(ConflictError(endpoint)), probe, initialized)
      case Retarget =>
        var retarget := CfSetTarget(d.org, d.space);
        if respond(n + 2).returnCode != 0 then Effect(Some(TargetFailed), probe + [retarget], initialized)
        else Effect(None, probe + [retarget, CfTarget], initialized)
      case Matched => Effect(None, probe, true)
  }

  /** `logout`: the flag is cleared only when `cf logout` exits 0. */
  function AfterLogout(proc: Proc, initialized: bool): bool {
    if proc.returnCode == 0 then false else initialized
  }

  /** `CloudFoundry.connect`: construct, then log in unless already initialized; a failed
      login logs out and raises. */
  function ConnectSpec(d: DeployerConfig, installed: bool, target: map<string, string>, respond: nat -> Proc, n: nat, initialized: bool): Effect {
    AfterOpen(d, OpenSpec(d, installed, target, respond, n, initialized), respond, n)
  }

  /** What `connect` does once the constructor, whose first command was number `n`, has
      had effect `open`. */
  function AfterOpen(d: DeployerConfig, open: Effect, respond: nat -> Proc, n: nat): Effect {
    if open.error.Some? || open.initialized then open
    else
      var m := n + |open.sent|;
      if respond(m).returnCode != 0 then
        Effect(Some(LoginFailed(d.org, d.space)), open.sent + [CfLogin(d), CfLogout],
               AfterLogout(respond(m + 1), open.initialized))
      else Effect(None, open.sent + [CfLogin(d), CfTarget], true)
  }

  /** A live target at another API endpoint makes construction raise, with no login and
      the flag untouched. */
  lemma ConnectConflict(d: DeployerConfig, target: map<string, string>, respond: nat -> Proc, n: nat, initialized: bool)
    requires Reconcile(target, d).Conflict?
    ensures var e := ConnectSpec(d, true, target, respond, n, initialized);
      e.error.Some? && (e.error.value.AlreadyLoggedIn? || e.error.value == EndpointMissing)
      && e.sent == [CfVersion, CfTarget] && e.initialized == initialized
  {
  }

  /** An exact match of endpoint, org and space sets the flag, so `connect` sends no login. */
  lemma ConnectMatched(d: DeployerConfig, target: map<string, string>, respond: nat -> Proc, n: nat, initialized: bool)
    requires target != map[]
    requires Get(target, "api endpoint") == d.apiEndpoint
    requires Get(target, "org") == d.org
    requires Get(target, "space") == d.space
    ensures ConnectSpec(d, true, target, respond, n, initialized) == Effect(None, [CfVersion, CfTarget], true)
  {
  }

  /** Same endpoint, other org or space: exactly one `cf target -o … -s …`, and its failure
      raises before any login. */
  lemma ConnectRetarget(d: DeployerConfig, target: map<string, string>, respond: nat -> Proc, n: nat, initialized: bool)
    requires Reconcile(target, d) == Retarget
    ensures var e := ConnectSpec(d, true, target, respond, n, initialized);
      && |e.sent| >= 3 && e.sent[2] == CfSetTarget(d.org, d.space)
      && (respond(n + 2).returnCode != 0 ==> e == Effect(Some(TargetFailed), [CfVersion, CfTarget, CfSetTarget(d.org, d.space)], initialized))
  {
  }

  /** Re-targeting does not set the flag: an uninitialized session that re-targets still
      logs in. */
  lemma RetargetThenLogin(d: DeployerConfig, target: map<string, string>, respond: nat -> Proc, n: nat)
    requires Reconcile(target, d) == Retarget
    requires respond(n + 2).returnCode == 0 && respond(n + 4).returnCode == 0
    ensures ConnectSpec(d, true, target, respond, n, false) ==
      Effect(None, [CfVersion, CfTarget, CfSetTarget(d.org, d.space), CfTarget, CfLogin(d), CfTarget], true)
  {
  }

  /** An initialized session never logs in again: `connect` does only what the
      constructor does. */
  lemma ConnectWhenInitialized(d: DeployerConfig, target: map<string, string>, installed: bool, respond: nat -> Proc, n: nat)
    ensures ConnectSpec(d, installed, target, respond, n, true) == OpenSpec(d, installed, target, respond, n, true)
    ensures OpenSpec(d, installed, target, respond, n, true).initialized
  {
  }

  /** A failed login leaves the flag clear, whatever the logout answers, and the session
      has sent the login followed by one logout. */
  lemma ConnectLoginFails(d: DeployerConfig, target: map<string, string>, installed: bool, respond: nat -> Proc, n: nat, initialized: bool)
    requires ConnectSpec(d, installed, target, respond, n, initialized).error == Some(LoginFailed(d.org, d.space))
    ensures var e := ConnectSpec(d, installed, target, respond, n, initialized);
      !e.initialized && e.sent == OpenSpec(d, installed, target, respond, n, initialized).sent + [CfLogin(d), CfLogout]
  {
  }

  /** A `connect` that returns normally leaves the session initialized. */
  lemma ConnectSucceeds(d: DeployerConfig, target: map<string, string>, installed: bool, respond: nat -> Proc, n: nat, initialized: bool)
    requires ConnectSpec(d, installed, target, respond, n, initialized).error.None?
    ensures ConnectSpec(d, installed, target, respond, n, initialized).initialized
  {
  }

  // ---- the wrapper ----------------------------------------------------------------------

  /** `CloudFoundry`: the configurations and the shell are set once; the session flag is
      shared by all instances. */
  class CloudFoundry {
    const deployer: DeployerConfig
    const test: TestConfig
    const shell: Shell
    const session: Session

    constructor (deployer: DeployerConfig, test: TestConfig, shell: Shell, session: Session)
      ensures this.deployer == deployer && this.test == test && this.shell == shell && this.session == session
    {
      this.deployer := deployer;
      this.test := test;
      this.shell := shell;
      this.session := session;
    }

    /** `current_target`: the "key: value" lines of `cf target`, split at the first colon. */
    method CurrentTarget() returns (target: map<string, string>)
      modifies shell
      ensures shell.commands == old(shell.commands) + [CfTarget]
      ensures target == TargetOf(shell.respond(|old(shell.commands)|).stdout)
    {
      var proc := shell.Exec(CfTarget);
      target := ParseTarget(proc.stdout);
    }

    /** `target(org, space)` */
    method Target(org: Option<string>, space: Option<string>) returns (proc: Proc)
      modifies shell
      ensures shell.commands == old(shell.commands) + [CfSetTarget(org, space)]
      ensures proc == shell.respond(|old(shell.commands)|)
    {
      proc := shell.Exec(CfSetTarget(org, space));
    }

    /** `login()` with the deployer settings. */
    method Login() returns (proc: Proc)
      modifies shell
      ensures shell.commands == old(shell.commands) + [CfLogin(deployer)]
      ensures proc == shell.respond(|old(shell.commands)|)
    {
      proc := shell.Exec(CfLogin(deployer));
    }

    /** `logout()` */
    method Logout() returns (proc: Proc)
      modifies shell, session
      ensures shell.commands == old(shell.commands) + [CfLogout]
      ensures proc == shell.respond(|old(shell.commands)|)
      ensures session.initialized == AfterLogout(proc, old(session.initialized))
    {
      proc := shell.Exec(CfLogout);
      if proc.returnCode == 0 {
        session.initialized := false;
      }
    }

    /** `service(name)` */
    method Service(name: string) returns (s: Option<CliParse.Service>)
      modifies shell
      ensures shell.commands == old(shell.commands) + [CfService(name)]
      ensures s == Lookup(shell.respond(|old(shell.commands)|))
    {
      var proc := shell.Exec(CfService(name));
      if proc.returnCode != 0 {
        return None;
      }
      var record := ParseService(proc.stdout);
      s := Some(record);
    }

    /** One row of `services`: the named service is looked up and its record appended. */
    method AppendLookup(name: string, ghost names: seq<string>, ghost start: seq<Command>, services: seq<Option<CliParse.Service>>)
      returns (more: seq<Option<CliParse.Service>>)
      requires shell.commands == start + LookupCommands(names)
      requires services == Lookups(shell.respond, |start|, |names|)
      modifies shell
      ensures shell.commands == start + LookupCommands(names + [name])
      ensures more == Lookups(shell.respond, |start|, |names + [name]|)
    {
      var s := Service(name);
      LookupsSnoc(shell.respond, |start|, |names|, s);
      LookupCommandsSnoc(start, names, name);
      more := services + [s];
    }

    /** `services()`: one lookup per data row after the header, in row order. */
    method Services() returns (services: seq<Option<CliParse.Service>>)
      modifies shell
      ensures var n := |old(shell.commands)|;
        var names := ServiceNames(shell.respond(n).stdout);
        && services == Lookups(shell.respond, n + 1, |names|)
        && shell.commands == old(shell.commands) + [CfServices] + LookupCommands(names)
    {
      var n := |shell.commands|;
      var proc := shell.Exec(CfServices);
      var lines := Lines(proc.stdout);
      ghost var start := shell.commands;
      ghost var names: seq<string> := [];
      services := [];
      var parsing := false;
      var i := 0;
      while i < |lines|
        invariant 0 <= i <= |lines|
        invariant ScanUpTo(lines, i) == Scan(names, parsing)
        invariant |start| == n + 1
        invariant services == Lookups(shell.respond, n + 1, |names|)
        invariant shell.commands == start + LookupCommands(names)
      {
        var line := lines[i];
        StripEmpty(line);
        ghost var next := ScanUpTo(lines, i + 1);
        if Strip(line) != "" {
          if StartsWith(line, "name") {
            parsing := true;
          } else if parsing {
            var row := Split(line, ' ');
            services := AppendLookup(row[0], names, start, services);
            names := names + [row[0]];
          }
        }
        assert next == Scan(names, parsing);
        i := i + 1;
      }
      assert lines[..|lines|] == lines;
    }

    /** `apps()`: the first word of every non-empty line after the four header lines. */
    method Apps() returns (appnames: seq<string>)
      modifies shell
      ensures shell.commands == old(shell.commands) + [CfApps]
      ensures appnames == AppNames(shell.respond(|old(shell.commands)|).stdout)
    {
      var proc := shell.Exec(CfApps);
      appnames := ParseApps(proc.stdout);
    }

    /** `wait_for` with a falsy `max_retries` replaced by the configured one. The
        conditions send their own commands; the method itself changes nothing. */
    method WaitFor(success: nat -> Outcome<bool>, failure: nat -> Outcome<bool>, maxRetries: Option<int>) returns (w: Waited)
      ensures w == CliWait(success, failure, OrDefault(maxRetries, test.maxRetries))
    {
      var budget := OrDefault(maxRetries, test.maxRetries);
      var tries: nat := 0;
      var first := success(0);
      if first.Raised? {
        return Waited(first, 0, 1);
      }
      var answer := first.v;
      while !answer && tries < budget
        invariant CliWait(success, failure, budget) == WaitFrom(success, failure, budget, tries, answer)
        decreases budget - tries
      {
        tries := tries + 1;
        var s := success(tries);
        if s.Raised? {
          return Waited(s, tries, 2 * tries);
        }
        answer := s.v;
        var f := failure(tries - 1);
        if f.Raised? {
          return Waited(f, tries, 2 * tries + 1);
        }
        if f.v {
          break;
        }
      }
      w := Waited(Value(answer), tries, 2 * tries + 1);
    }

    /** `create_service(service_config)`; every configuration that passed validation has
        a name. */
    method CreateService(c: ServiceConfig) returns (r: Outcome<Proc>)
      requires Truthy(c.name)
      modifies shell
      ensures var d := CreateSpec(c, shell.dryRun, shell.respond, |old(shell.commands)|, test.maxRetries);
        && r == d.outcome
        && shell.commands == old(shell.commands) + [CfCreateService(c)] + Repeat(CfService(c.name.value), d.lookups)
    {
      var n := |shell.commands|;
      var proc := shell.Exec(CfCreateService(c));
      if shell.dryRun || proc.returnCode != 0 {
        return Value(proc);
      }
      var w := WaitFor(CreateSucceeded(shell.respond, n + 1), CreateFailedYet(shell.respond, n + 1), None);
      shell.Record(Repeat(CfService(c.name.value), w.evals));
      match w.outcome
      case Raised(e) => r := Raised(e);
      case Value(ok) => r := if ok then Value(proc) else Raised(CreateFailed(c.name));
    }

    /** The end of `delete_service` once the poll `w` has ended: the poll's lookups are
        logged, and a poll that answered false looks the service up once more for the
        message of `SystemExit`. */
    method FinishDelete(name: string, proc: Proc, n: nat, w: Waited) returns (r: Outcome<Proc>)
      requires |shell.commands| == n + 1
      modifies shell
      ensures var d := DeleteAfterWait(proc, shell.respond, n, w);
        && r == d.outcome
        && shell.commands == old(shell.commands) + Repeat(CfService(name), d.lookups)
    {
      ghost var log := shell.commands;
      shell.Record(Repeat(CfService(name), w.evals));
      match w.outcome
      case Raised(e) => r := Raised(e);
      case Value(ok) =>
        if ok {
          r := Value(proc);
        } else {
          var last := Service(name);
          RepeatSnoc(log, CfService(name), w.evals);
          r := Raised(DeleteFailed(last));
        }
    }

    /** `delete_service(service_name)`, polling with the guarded failure condition. */
    method DeleteService(name: string) returns (r: Outcome<Proc>)
      modifies shell
      ensures var d := DeleteSpec(shell.dryRun, shell.respond, |old(shell.commands)|, test.maxRetries);
        && r == d.outcome
        && shell.commands == old(shell.commands) + [CfDeleteService(name)] + Repeat(CfService(name), d.lookups)
    {
      ghost var start := shell.commands;
      var n := |shell.commands|;
      var proc := shell.Exec(CfDeleteService(name));
      if shell.dryRun || proc.returnCode != 0 {
        return Value(proc);
      }
      var w := WaitFor(Deleted(shell.respond, n + 1), DeleteFailedGuarded(shell.respond, n + 1), None);
      r := FinishDelete(name, proc, n, w);
    }

    /** `CloudFoundry(deployer_config, test_config, shell)`: probe for `cf`, read the live
        target and reconcile it with the configuration. */
    static method Open(d: DeployerConfig, test: TestConfig, shell: Shell, session: Session) returns (r: Outcome<CloudFoundry>, ghost e: Effect)
      modifies shell, session
      ensures e == OpenSpec(d, shell.installed, TargetOf(shell.respond(|old(shell.commands)| + 1).stdout), shell.respond, |old(shell.commands)|, old(session.initialized))
      ensures shell.commands == old(shell.commands) + e.sent
      ensures session.initialized == e.initialized
      ensures r.Raised? <==> e.error.Some?
      ensures r.Raised? ==> r.error == e.error.value
      ensures r.Value? ==> fresh(r.v) && r.v.deployer == d && r.v.test == test && r.v.shell == shell && r.v.session == session
    {
      ghost var start := shell.commands;
      ghost var init := session.initialized;
      var cf := new CloudFoundry(d, test, shell, session);
      var version := shell.Exec(CfVersion);
      if !shell.installed {
        e := OpenSpec(d, false, map[], shell.respond, |start|, init);
        r := Raised(NotInstalled);
      } else {
        var target := cf.CurrentTarget();
        assert target == TargetOf(shell.respond(|start| + 1).stdout);
        e := OpenSpec(d, true, target, shell.respond, |start|, init);
        ghost var probe := [CfVersion, CfTarget];
        assert shell.commands == start + probe;
        match Reconcile(target, d)
        case NoTarget =>
          assert e == Effect(None, probe, init);
          r := Value(cf);
        case Conflict(endpoint) =>
          assert e == Effect(Some(ConflictError(endpoint)), probe, init);
          r := Raised(ConflictError(endpoint));
        case Retarget =>
          var proc := cf.Target(d.org, d.space);
          if proc.returnCode != 0 {
            assert e == Effect(Some(TargetFailed), probe + [CfSetTarget(d.org, d.space)], init);
            assert shell.commands == start + (probe + [CfSetTarget(d.org, d.space)]);
            r := Raised(TargetFailed);
          } else {
            var reread := cf.CurrentTarget();
            assert e == Effect(None, probe + [CfSetTarget(d.org, d.space), CfTarget], init);
            assert shell.commands == start + (probe + [CfSetTarget(d.org, d.space), CfTarget]);
            r := Value(cf);
          }
        case Matched =>
          assert e == Effect(None, probe, true);
          session.initialized := true;
          r := Value(cf);
      }
    }

    /** `CloudFoundry.connect(deployer_config)`: construct, then log in unless the session
        is already initialized. */
    static method Connect(d: DeployerConfig, test: TestConfig, shell: Shell, session: Session) returns (r: Outcome<CloudFoundry>, ghost open: Effect)
      modifies shell, session
      ensures open == OpenSpec(d, shell.installed, TargetOf(shell.respond(|old(shell.commands)| + 1).stdout), shell.respond, |old(shell.commands)|, old(session.initialized))
      ensures var e := AfterOpen(d, open, shell.respond, |old(shell.commands)|);
        && shell.commands == old(shell.commands) + e.sent
        && session.initialized == e.initialized
        && (r.Raised? <==> e.error.Some?)
        && (r.Raised? ==> r.error == e.error.value)
      ensures r.Value? ==> fresh(r.v) && r.v.deployer == d && r.v.test == test && r.v.shell == shell && r.v.session == session
    {
      ghost var start := shell.commands;
      r, open := Open(d, test, shell, session);
      if r.Value? && !session.initialized {
        var cf := r.v;
        var proc := cf.Login();
        if proc.returnCode != 0 {
          var out := cf.Logout();
          assert shell.commands == start + (open.sent + [CfLogin(d), CfLogout]);
          r := Raised(LoginFailed(d.org, d.space));
        } else {
          var shown := cf.CurrentTarget();
          assert shell.commands == start + (open.sent + [CfLogin(d), CfTarget]);
          session.initialized := true;
        }
      }
    }
  }
}
