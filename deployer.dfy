/**
 * The deployer entry point (`deployer/index.js`): it checks the deployment type
 * against the configured list, fetches the configuration repository when one is
 * named in the environment, loads its `config.json`, and hands the options to
 * exactly one handler. The run is modelled as the trace of steps it takes; the
 * results of the file system and of the clone process are parameters.
 */
module Deployer {
  import opened Wrappers
  import opened RepoFetcher
  import NginxConf

  type Env = NginxConf.Env

  /** A configuration subtree the deployer passes on without reading it. */
  type Tree = map<string, string>

  /** The part of the deployer's `config.js` the entry point reads. */
  datatype DeployerConfig = DeployerConfig(
    types: seq<string>,
    paths: Tree,
    configRepoPath: string,
    configRepoGit: GitRepo,
    nginx: NginxConf.NginxConfig,
    nodejs: Tree)

  /** What the file system and the clone process answer during the run. */
  datatype Effects = Effects(
    mkdirFails: bool,
    cloneEvent: ProcessEvent,
    loadedConfig: Option<Tree>)

  datatype Handler = ServiceHandler | NginxHandler | NodejsHandler

  /** The options object a handler receives. */
  datatype DeployOptions = DeployOptions(
    paths: Tree,
    config: Option<Tree>,
    nginx: Option<NginxConf.NginxConfig>,
    nodejs: Option<Tree>)

  datatype Step =
    | Rejected(kind: Option<string>)
    | MakeDir(path: string)
    | FetchRepo(clone: CloneStep)
    | LoadConfig(dir: string)
    | Dispatch(handler: Handler, options: DeployOptions)
    | Throw(error: string)

  const OwnerVar := "SOAJS_CONFIG_REPO_OWNER"
  const NameVar := "SOAJS_CONFIG_REPO_NAME"

  /** The message `deploy()` logs when `config.json` cannot be loaded; the error
      it then throws wraps the loader's exception, which is outside the model,
      so the thrown step carries this fixed message instead. */
  const LoadError := "Unable to load config.json from configuration repository"

  /** The configuration repository is named in the environment. */
  predicate FetchRequested(env: Env) {
    NginxConf.IsSet(env, OwnerVar) && NginxConf.IsSet(env, NameVar)
  }

  predicate Accepted(cfg: DeployerConfig, kind: Option<string>) {
    kind.Some? && kind.value in cfg.types
  }

  /** The handler the `switch` of `deploy` picks; a type with no case picks none. */
  function HandlerFor(kind: string): Option<Handler> {
    if kind == "service" then Some(ServiceHandler)
    else if kind == "nginx" then Some(NginxHandler)
    else if kind == "nodejs" then Some(NodejsHandler)
    else None
  }

  function CloneOptionsOf(cfg: DeployerConfig): CloneOptions {
    CloneOptions(cfg.configRepoGit, cfg.configRepoPath)
  }

  /** The order in which steps may happen. */
  function Rank(s: Step): nat {
    match s
      case Rejected(_) => 0
      case MakeDir(_) => 0
      case FetchRepo(_) => 1
      case LoadConfig(_) => 2
      case Dispatch(_, _) => 3
      case Throw(_) => 4
  }

  predicate Ordered(trace: seq<Step>) {
    forall i, j | 0 <= i < j < |trace| :: Rank(trace[i]) < Rank(trace[j])
  }

  /** Two ordered traces, the first of lower rank at its end than the second at
      its start, make an ordered trace. */
  lemma OrderedConcat(a: seq<Step>, b: seq<Step>)
    requires Ordered(a) && Ordered(b)
    requires |a| > 0 && |b| > 0 ==> Rank(a[|a| - 1]) < Rank(b[0])
    ensures Ordered(a + b)
  {
    var c := a + b;
    forall i, j | 0 <= i < j < |c| ensures Rank(c[i]) < Rank(c[j]) {
      if j < |a| {
      } else if i >= |a| {
        assert c[i] == b[i - |a|] && c[j] == b[j - |a|];
      } else {
        assert Rank(c[i]) <= Rank(a[|a| - 1]);
        assert Rank(b[0]) <= Rank(c[j]);
      }
    }
  }

  /** Both the directory and the clone succeed, so the clone's callback runs. */
  predicate FetchSucceeds(cfg: DeployerConfig, fx: Effects) {
    !fx.mkdirFails && CloneOutcome(CloneOptionsOf(cfg), fx.cloneEvent) == CalledBack
  }

  /** The run got through every step before the dispatch without an error. */
  predicate ReachesDispatch(cfg: DeployerConfig, env: Env, fx: Effects) {
    FetchRequested(env) ==>
      && !fx.mkdirFails
      && CloneOutcome(CloneOptionsOf(cfg), fx.cloneEvent) == CalledBack
      && fx.loadedConfig.Some?
  }

  /** `options` with the handler's own configuration subtree added. */
  function WithSubtree(options: DeployOptions, cfg: DeployerConfig, handler: Handler): DeployOptions {
    options.(nginx := if handler == NginxHandler then Some(cfg.nginx) else options.nginx,
             nodejs := if handler == NodejsHandler then Some(cfg.nodejs) else options.nodejs)
  }

  /** The options handed to `handler`: the paths, the loaded configuration when
      the repository was fetched, and the handler's own subtree only. */
  function OptionsFor(cfg: DeployerConfig, env: Env, fx: Effects, handler: Handler): DeployOptions {
    WithSubtree(DeployOptions(cfg.paths, if FetchRequested(env) then fx.loadedConfig else None, None, None), cfg, handler)
  }

  predicate EndsInThrow(trace: seq<Step>) {
    |trace| > 0 && trace[|trace| - 1].Throw?
  }

  predicate EndsInDispatch(trace: seq<Step>) {
    |trace| > 0 && trace[|trace| - 1].Dispatch?
  }

  /** Every dispatch goes to the handler of `kind` with the options built for it. */
  predicate DispatchesRightly(trace: seq<Step>, cfg: DeployerConfig, env: Env, fx: Effects, kind: string) {
    forall i | 0 <= i < |trace| && trace[i].Dispatch? ::
      HandlerFor(kind) == Some(trace[i].handler) && trace[i].options == OptionsFor(cfg, env, fx, trace[i].handler)
  }

  /** What the `switch` of `deploy()` adds to the trace once the options are
      built: one dispatch to the type's handler, or nothing for a type without a
      case. */
  function SwitchSteps(cfg: DeployerConfig, kind: string, env: Env, fx: Effects): seq<Step> {
    if HandlerFor(kind).Some? then
      [Dispatch(HandlerFor(kind).value, OptionsFor(cfg, env, fx, HandlerFor(kind).value))]
    else
      []
  }

  /** `deploy()`: load `config.json` from the fetched repository when one was
      requested, then dispatch on the type. */
  method Deploy(cfg: DeployerConfig, kind: string, env: Env, fx: Effects) returns (trace: seq<Step>)
    ensures Ordered(trace)
    ensures forall i | 0 <= i < |trace| :: trace[i].LoadConfig? || trace[i].Dispatch? || trace[i].Throw?
    ensures (|trace| > 0 && trace[0] == LoadConfig(cfg.configRepoPath)) <==> FetchRequested(env)
    ensures forall i | 0 <= i < |trace| && trace[i].LoadConfig? :: i == 0 && FetchRequested(env)
    ensures EndsInThrow(trace) <==> FetchRequested(env) && fx.loadedConfig.None?
    ensures EndsInDispatch(trace) <==> HandlerFor(kind).Some? && (FetchRequested(env) ==> fx.loadedConfig.Some?)
    ensures DispatchesRightly(trace, cfg, env, fx, kind)
    ensures FetchRequested(env) && fx.loadedConfig.None? ==>
      trace == [LoadConfig(cfg.configRepoPath), Throw(LoadError)]
    ensures !FetchRequested(env) ==> trace == SwitchSteps(cfg, kind, env, fx)
    ensures FetchRequested(env) && fx.loadedConfig.Some? ==>
      trace == [LoadConfig(cfg.configRepoPath)] + SwitchSteps(cfg, kind, env, fx)
  {
    trace := [];
    var options := DeployOptions(cfg.paths, None, None, None);
    if FetchRequested(env) {
      trace := trace + [LoadConfig(cfg.configRepoPath)];
      if fx.loadedConfig.None? {
        trace := trace + [Throw(LoadError)];
        return;
      }
      options := options.(config := fx.loadedConfig);
    }
    var dispatched := SwitchOnType(cfg, kind, options);
    trace := trace + dispatched;
  }

  /** The `switch` on the type: at most one handler is called, with the base
      options plus that handler's own subtree; a type with no case does nothing. */
  method SwitchOnType(cfg: DeployerConfig, kind: string, options: DeployOptions) returns (steps: seq<Step>)
    ensures |steps| <= 1
    ensures |steps| == 1 <==> HandlerFor(kind).Some?
    ensures |steps| == 1 ==> steps[0] == Dispatch(HandlerFor(kind).value, WithSubtree(options, cfg, HandlerFor(kind).value))
  {
    steps := [];
    if kind == "service" {
      steps := [Dispatch(ServiceHandler, options)];
    } else if kind == "nginx" {
      steps := [Dispatch(NginxHandler, options.(nginx := Some(cfg.nginx)))];
    } else if kind == "nodejs" {
      steps := [Dispatch(NodejsHandler, options.(nodejs := Some(cfg.nodejs)))];
    }
  }

  /** The fetch path: create the repository directory, then clone into it; the
      run proceeds to `deploy()` only from the clone's callback. */
  method FetchRepository(cfg: DeployerConfig, fx: Effects) returns (steps: seq<Step>, proceed: bool)
    ensures Ordered(steps)
    ensures |steps| >= 2 && steps[0] == MakeDir(cfg.configRepoPath)
    ensures proceed <==> FetchSucceeds(cfg, fx)
    ensures proceed ==> steps == [MakeDir(cfg.configRepoPath), FetchRepo(Clone(CloneOptionsOf(cfg)))]
    ensures !proceed ==> EndsInThrow(steps)
    ensures steps[1] == FetchRepo(Clone(CloneOptionsOf(cfg))) <==> !fx.mkdirFails
    ensures forall i | 0 <= i < |steps| && steps[i].FetchRepo? :: i == 1
    ensures forall i | 0 <= i < |steps| :: steps[i].MakeDir? || steps[i].FetchRepo? || steps[i].Throw?
    ensures fx.mkdirFails ==> steps == [MakeDir(cfg.configRepoPath), Throw("mkdir " + cfg.configRepoPath)]
    ensures !fx.mkdirFails ==> steps[..2] == [MakeDir(cfg.configRepoPath), FetchRepo(Clone(CloneOptionsOf(cfg)))]
    ensures !fx.mkdirFails && CloneOutcome(CloneOptionsOf(cfg), fx.cloneEvent).Thrown? ==>
      steps == [MakeDir(cfg.configRepoPath), FetchRepo(Clone(CloneOptionsOf(cfg))),
                Throw(CloneOutcome(CloneOptionsOf(cfg), fx.cloneEvent).error)]
  {
    if fx.mkdirFails {
      steps := [MakeDir(cfg.configRepoPath), Throw("mkdir " + cfg.configRepoPath)];
      proceed := false;
      return;
    }
    var cloneOptions := CloneOptionsOf(cfg);
    steps := [MakeDir(cfg.configRepoPath), FetchRepo(Clone(cloneOptions))];
    var outcome := CloneOutcome(cloneOptions, fx.cloneEvent);
    proceed := outcome.CalledBack?;
    if outcome.Thrown? {
      steps := steps + [Throw(outcome.error)];
    }
  }

  /** The fetch path of the run: the clone's callback is the only way on to
      `deploy()`; a failed directory or clone ends the run with an error. */
  method FetchThenDeploy(cfg: DeployerConfig, kind: string, env: Env, fx: Effects) returns (trace: seq<Step>)
    requires FetchRequested(env)
    ensures Ordered(trace)
    ensures forall i | 0 <= i < |trace| :: !trace[i].Rejected?
    ensures |trace| > 0 && trace[0] == MakeDir(cfg.configRepoPath)
    ensures (|trace| > 1 && trace[1] == FetchRepo(Clone(CloneOptionsOf(cfg)))) <==> !fx.mkdirFails
    ensures forall i | 0 <= i < |trace| && trace[i].FetchRepo? :: i == 1
    ensures EndsInDispatch(trace) <==> HandlerFor(kind).Some? && ReachesDispatch(cfg, env, fx)
    ensures DispatchesRightly(trace, cfg, env, fx, kind)
    ensures !FetchSucceeds(cfg, fx) ==>
      EndsInThrow(trace) && forall i | 0 <= i < |trace| :: !trace[i].LoadConfig? && !trace[i].Dispatch?
    ensures FetchSucceeds(cfg, fx) && fx.loadedConfig.None? ==>
      trace == [MakeDir(cfg.configRepoPath), FetchRepo(Clone(CloneOptionsOf(cfg))),
                LoadConfig(cfg.configRepoPath), Throw(LoadError)]
    ensures FetchSucceeds(cfg, fx) && fx.loadedConfig.Some? ==>
      trace == [MakeDir(cfg.configRepoPath), FetchRepo(Clone(CloneOptionsOf(cfg))),
                LoadConfig(cfg.configRepoPath)] + SwitchSteps(cfg, kind, env, fx)
    ensures EndsInThrow(trace) <==> !FetchSucceeds(cfg, fx) || fx.loadedConfig.None?
    ensures fx.mkdirFails ==> trace == [MakeDir(cfg.configRepoPath), Throw("mkdir " + cfg.configRepoPath)]
    ensures !fx.mkdirFails && CloneOutcome(CloneOptionsOf(cfg), fx.cloneEvent).Thrown? ==>
      trace == [MakeDir(cfg.configRepoPath), FetchRepo(Clone(CloneOptionsOf(cfg))),
                Throw(CloneOutcome(CloneOptionsOf(cfg), fx.cloneEvent).error)]
  {
    var fetched, proceed := FetchRepository(cfg, fx);
    if !proceed {
      trace := fetched;
      return;
    }
    var rest := Deploy(cfg, kind, env, fx);
    OrderedConcat(fetched, rest);
    trace := fetched + rest;
  }

  /** Everything after the type check: fetch the configuration repository when the
      environment names one and deploy from the clone's callback, or deploy at once. */
  method Start(cfg: DeployerConfig, kind: string, env: Env, fx: Effects) returns (trace: seq<Step>)
    ensures Ordered(trace)
    ensures forall i | 0 <= i < |trace| :: !trace[i].Rejected?
    ensures (|trace| > 0 && trace[0] == MakeDir(cfg.configRepoPath)) <==> FetchRequested(env)
    ensures (|trace| > 1 && trace[1] == FetchRepo(Clone(CloneOptionsOf(cfg)))) <==>
      FetchRequested(env) && !fx.mkdirFails
    ensures forall i | 0 <= i < |trace| && trace[i].FetchRepo? :: i == 1
    ensures forall i | 0 <= i < |trace| && trace[i].LoadConfig? :: FetchRequested(env)
    ensures EndsInDispatch(trace) <==> HandlerFor(kind).Some? && ReachesDispatch(cfg, env, fx)
    ensures DispatchesRightly(trace, cfg, env, fx, kind)
    ensures FetchRequested(env) && !FetchSucceeds(cfg, fx) ==>
      EndsInThrow(trace) && forall i | 0 <= i < |trace| :: !trace[i].LoadConfig? && !trace[i].Dispatch?
    ensures FetchRequested(env) && FetchSucceeds(cfg, fx) && fx.loadedConfig.None? ==>
      trace == [MakeDir(cfg.configRepoPath), FetchRepo(Clone(CloneOptionsOf(cfg))),
                LoadConfig(cfg.configRepoPath), Throw(LoadError)]
    ensures FetchRequested(env) && FetchSucceeds(cfg, fx) && fx.loadedConfig.Some? ==>
      trace == [MakeDir(cfg.configRepoPath), FetchRepo(Clone(CloneOptionsOf(cfg))),
                LoadConfig(cfg.configRepoPath)] + SwitchSteps(cfg, kind, env, fx)
    ensures !FetchRequested(env) ==> trace == SwitchSteps(cfg, kind, env, fx)
    ensures EndsInThrow(trace) <==> FetchRequested(env) && (!FetchSucceeds(cfg, fx) || fx.loadedConfig.None?)
    ensures FetchRequested(env) && fx.mkdirFails ==> trace == [MakeDir(cfg.configRepoPath), Throw("mkdir " + cfg.configRepoPath)]
    ensures FetchRequested(env) && !fx.mkdirFails && CloneOutcome(CloneOptionsOf(cfg), fx.cloneEvent).Thrown? ==>
      trace == [MakeDir(cfg.configRepoPath), FetchRepo(Clone(CloneOptionsOf(cfg))),
                Throw(CloneOutcome(CloneOptionsOf(cfg), fx.cloneEvent).error)]
  {
    if FetchRequested(env) {
      trace := FetchThenDeploy(cfg, kind, env, fx);
    } else {
      trace := Deploy(cfg, kind, env, fx);
    }
  }

  /** The whole run for the type given on the command line (`None` when `-T` is
      missing). */
  method Run(cfg: DeployerConfig, kind: Option<string>, env: Env, fx: Effects) returns (trace: seq<Step>)
    ensures Ordered(trace)
    ensures !Accepted(cfg, kind) <==> trace == [Rejected(kind)]
    ensures (|trace| > 0 && trace[0] == MakeDir(cfg.configRepoPath)) <==> Accepted(cfg, kind) && FetchRequested(env)
    ensures (|trace| > 1 && trace[1] == FetchRepo(Clone(CloneOptionsOf(cfg)))) <==>
      Accepted(cfg, kind) && FetchRequested(env) && !fx.mkdirFails
    ensures forall i | 0 <= i < |trace| && trace[i].FetchRepo? :: i == 1
    ensures forall i | 0 <= i < |trace| && trace[i].LoadConfig? :: FetchRequested(env)
    ensures EndsInDispatch(trace) <==>
      Accepted(cfg, kind) && HandlerFor(kind.value).Some? && ReachesDispatch(cfg, env, fx)
    ensures kind.Some? ==> DispatchesRightly(trace, cfg, env, fx, kind.value)
    ensures Accepted(cfg, kind) && FetchRequested(env) && !FetchSucceeds(cfg, fx) ==>
      EndsInThrow(trace) && forall i | 0 <= i < |trace| :: !trace[i].LoadConfig? && !trace[i].Dispatch?
    ensures Accepted(cfg, kind) && FetchRequested(env) && FetchSucceeds(cfg, fx) && fx.loadedConfig.None? ==>
      trace == [MakeDir(cfg.configRepoPath), FetchRepo(Clone(CloneOptionsOf(cfg))),
                LoadConfig(cfg.configRepoPath), Throw(LoadError)]
    ensures Accepted(cfg, kind) && FetchRequested(env) && FetchSucceeds(cfg, fx) && fx.loadedConfig.Some? ==>
      trace == [MakeDir(cfg.configRepoPath), FetchRepo(Clone(CloneOptionsOf(cfg))),
                LoadConfig(cfg.configRepoPath)] + SwitchSteps(cfg, kind.value, env, fx)
    ensures Accepted(cfg, kind) && !FetchRequested(env) ==> trace == SwitchSteps(cfg, kind.value, env, fx)
    ensures EndsInThrow(trace) <==>
      Accepted(cfg, kind) && FetchRequested(env) && (!FetchSucceeds(cfg, fx) || fx.loadedConfig.None?)
    ensures Accepted(cfg, kind) && FetchRequested(env) && fx.mkdirFails ==> trace == [MakeDir(cfg.configRepoPath), Throw("mkdir " + cfg.configRepoPath)]
    ensures Accepted(cfg, kind) && FetchRequested(env) && !fx.mkdirFails && CloneOutcome(CloneOptionsOf(cfg), fx.cloneEvent).Thrown? ==>
      trace == [MakeDir(cfg.configRepoPath), FetchRepo(Clone(CloneOptionsOf(cfg))),
                Throw(CloneOutcome(CloneOptionsOf(cfg), fx.cloneEvent).error)]
  {
    if !(kind.Some? && kind.value in cfg.types) {
      trace := [Rejected(kind)];
      return;
    }
    trace := Start(cfg, kind.value, env, fx);
  }
}
