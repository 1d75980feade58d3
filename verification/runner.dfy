/** One Renovate run of a task: resolve the configured runtime, build the
    invocation, run the wrapper, extract the report (`renovate`), and then store
    the report while turning every failure into a log entry (`run`). The
    collaborators whose code lies outside the runner are fields of
    `RunnerContext`, each standing for whatever it returns or throws. */
module Runner {
  import opened Wrappers
  import opened Types
  import opened Seqs
  import Environment

  /** The lines a Renovate process writes to standard output. */
  type Stdout = seq<string>

  /** The payload handed to a runtime wrapper. */
  datatype Invocation = Invocation(env: Environment.Env, renovateConfig: Json, runtimeConfig: Option<ConfigObject>)

  /** A runtime wrapper's `run`: the output stream, or the error it fails with. */
  type Wrapper = Invocation -> Result<Stdout, Fault>

  /** A configuration section as `getOptionalConfig` returns it: an object of values. */
  type ConfigObject = map<string, Json>

  /** The plugin configuration as the runner reads it: the runtime name that
      `getRuntime` resolves, the optional `config` object, and the optional
      `runtime.<name>` sub-configurations keyed by runtime name. */
  datatype PluginConfig = PluginConfig(runtime: string, config: Option<Json>, runtimeConfigs: map<string, ConfigObject>)

  /** The runner's fields and the helpers it calls. */
  datatype RunnerContext = RunnerContext(
    pluginConfig: PluginConfig,
    runtimes: map<string, Wrapper>,
    platformEnvs: TargetRepo -> Result<Environment.Env, Fault>,
    cacheEnvs: Result<Environment.Env, Fault>,
    extractReport: Stdout -> Result<RenovateReport, Fault>,
    addReport: ReportRecord -> Outcome<Fault>)

  /** Why a run failed. */
  datatype RunError =
    | UnknownRuntime(runtime: string)
    | PlatformEnvsFailed(fault: Fault)
    | CacheEnvsFailed(fault: Fault)
    | WrapperFailed(fault: Fault)
    | ExtractionFailed(fault: Fault)
    | PersistenceFailed(fault: Fault)

  /** What a run does that can be observed from outside. */
  datatype Effect =
    | Info(message: string)
    | Error(message: string, cause: RunError)
    | Invoke(runtime: string, invocation: Invocation)
    | AddReport(record: ReportRecord)

  const StartMessage := "Renovate run starting"
  const FinishMessage := "Renovate run successfully finished"
  const FailureMessage := "Renovate failed"

  predicate IsInvoke(e: Effect) { e.Invoke? }
  predicate IsAddReport(e: Effect) { e.AddReport? }

  /** The effects of `renovate` and the report it returns or the error it throws. */
  datatype RenovateStep = RenovateStep(effects: seq<Effect>, result: Result<RenovateReport, RunError>)

  /** `config ?? {}`: an absent or `null` configuration becomes the empty object. */
  function RenovateConfig(config: Option<Json>): Json
  {
    match config
    case Some(JNull) => JObject(map[])
    case Some(v) => v
    case None => JObject(map[])
  }

  /** The payload `renovate` hands to the wrapper once both environment helpers succeeded. */
  function InvocationOf(id: TaskId, ctx: RunnerContext, platform: Environment.Env, cache: Environment.Env): Invocation
  {
    Invocation(
      Environment.ComposeEnv(id, platform, cache),
      RenovateConfig(ctx.pluginConfig.config),
      Get(ctx.pluginConfig.runtimeConfigs, ctx.pluginConfig.runtime))
  }

  /** `renovate(id, target)`. */
  function Renovate(id: TaskId, target: TargetRepo, ctx: RunnerContext): (step: RenovateStep)
    // an unknown runtime fails the run before anything is invoked
    ensures ctx.pluginConfig.runtime !in ctx.runtimes <==> step.result == Failure(UnknownRuntime(ctx.pluginConfig.runtime))
    ensures ctx.pluginConfig.runtime !in ctx.runtimes ==> step.effects == []
    // at most one invocation, of the configured runtime, and nothing else
    ensures |step.effects| <= 1
    ensures forall e :: e in step.effects ==>
              && e.Invoke?
              && e.runtime == ctx.pluginConfig.runtime
              && e.runtime in ctx.runtimes
              && ctx.platformEnvs(target).Success?
              && ctx.cacheEnvs.Success?
              && e.invocation.env == Environment.ComposeEnv(id, ctx.platformEnvs(target).value, ctx.cacheEnvs.value)
              && (ctx.pluginConfig.config.Some? && ctx.pluginConfig.config.value != JNull ==>
                    e.invocation.renovateConfig == ctx.pluginConfig.config.value)
              && (ctx.pluginConfig.config.None? || ctx.pluginConfig.config == Some(JNull) ==>
                    e.invocation.renovateConfig == JObject(map[]))
              && e.invocation.runtimeConfig == Get(ctx.pluginConfig.runtimeConfigs, ctx.pluginConfig.runtime)
    // the wrapper is invoked exactly when the runtime is known and both env helpers succeed
    ensures |step.effects| == 1 <==>
              ctx.pluginConfig.runtime in ctx.runtimes && ctx.platformEnvs(target).Success? && ctx.cacheEnvs.Success?
    // an environment helper's failure is the run's failure, with its fault, before anything is invoked
    ensures ctx.pluginConfig.runtime in ctx.runtimes && ctx.platformEnvs(target).Failure? ==>
              step == RenovateStep([], Failure(PlatformEnvsFailed(ctx.platformEnvs(target).error)))
    ensures ctx.pluginConfig.runtime in ctx.runtimes && ctx.platformEnvs(target).Success? && ctx.cacheEnvs.Failure? ==>
              step == RenovateStep([], Failure(CacheEnvsFailed(ctx.cacheEnvs.error)))
    // once invoked, the result is the wrapper's failure, or whatever `extractReport` makes of its output
    ensures |step.effects| == 1 ==>
              var out := ctx.runtimes[ctx.pluginConfig.runtime](step.effects[0].invocation);
              && (out.Failure? ==> step.result == Failure(WrapperFailed(out.error)))
              && (out.Success? && ctx.extractReport(out.value).Failure? ==>
                    step.result == Failure(ExtractionFailed(ctx.extractReport(out.value).error)))
              && (out.Success? && ctx.extractReport(out.value).Success? ==>
                    step.result == Success(ctx.extractReport(out.value).value))
    // a report is returned exactly when every stage succeeded, and it is the extracted one
    ensures step.result.Success? <==>
              && |step.effects| == 1
              && var out := ctx.runtimes[ctx.pluginConfig.runtime](step.effects[0].invocation);
              && out.Success?
              && ctx.extractReport(out.value).Success?
    ensures step.result.Success? ==>
              ctx.extractReport(ctx.runtimes[ctx.pluginConfig.runtime](step.effects[0].invocation).value)
                == Success(step.result.value)
    ensures !step.result.Failure? || !step.result.error.PersistenceFailed?
  {
    var name := ctx.pluginConfig.runtime;
    if name !in ctx.runtimes then
      RenovateStep([], Failure(UnknownRuntime(name)))
    else
      match ctx.platformEnvs(target)
      case Failure(f) => RenovateStep([], Failure(PlatformEnvsFailed(f)))
      case Success(platform) =>
        match ctx.cacheEnvs
        case Failure(f) => RenovateStep([], Failure(CacheEnvsFailed(f)))
        case Success(cache) =>
          var invocation := InvocationOf(id, ctx, platform, cache);
          var effects := [Invoke(name, invocation)];
          match ctx.runtimes[name](invocation)
          case Failure(f) => RenovateStep(effects, Failure(WrapperFailed(f)))
          case Success(stdout) =>
            match ctx.extractReport(stdout)
            case Failure(f) => RenovateStep(effects, Failure(ExtractionFailed(f)))
            case Success(report) => RenovateStep(effects, Success(report))
  }

  /** `run(id, target)`: never throws; every failure ends the trace as a log entry. */
  function Run(id: TaskId, target: TargetRepo, ctx: RunnerContext): (trace: seq<Effect>)
    ensures |trace| >= 2 && trace[0] == Info(StartMessage)
    // the run returns normally, with its outcome logged last
    ensures trace[|trace| - 1] == Info(FinishMessage) || trace[|trace| - 1].Error?
    ensures Renovate(id, target, ctx).result.Failure? ==>
              trace[|trace| - 1] == Error(FailureMessage, Renovate(id, target, ctx).result.error)
    // success is logged exactly when the report was extracted and stored
    ensures trace[|trace| - 1] == Info(FinishMessage) <==>
              && Renovate(id, target, ctx).result.Success?
              && ctx.addReport(ReportRecord(id, Renovate(id, target, ctx).result.value, target)) == Pass
    ensures Renovate(id, target, ctx).result.Success? ==>
              var record := ReportRecord(id, Renovate(id, target, ctx).result.value, target);
              ctx.addReport(record).Fail? ==>
                trace[|trace| - 1] == Error(FailureMessage, PersistenceFailed(ctx.addReport(record).error))
  {
    var step := Renovate(id, target, ctx);
    [Info(StartMessage)] + step.effects + Conclude(id, target, ctx, step.result)
  }

  /** `addReport` is called at most once per run, and exactly when `renovate`
      returned a report. */
  lemma RunStoresReportOnce(id: TaskId, target: TargetRepo, ctx: RunnerContext)
    ensures Count(Run(id, target, ctx), IsAddReport) <= 1
    ensures Count(Run(id, target, ctx), IsAddReport) == 1 <==> Renovate(id, target, ctx).result.Success?
  {
    var step := Renovate(id, target, ctx);
    var head := [Info(StartMessage)] + step.effects;
    var tail := Conclude(id, target, ctx, step.result);
    CountAppend([Info(StartMessage)], step.effects, IsAddReport);
    CountAppend(head, tail, IsAddReport);
  }

  /** The report stored is the one `renovate` returned, under the run's task id
      and target, and it is stored after the wrapper was invoked. */
  lemma RunStoresReturnedReport(id: TaskId, target: TargetRepo, ctx: RunnerContext, i: nat)
    requires i < |Run(id, target, ctx)| && Run(id, target, ctx)[i].AddReport?
    ensures Renovate(id, target, ctx).result.Success?
    ensures Run(id, target, ctx)[i].record == ReportRecord(id, Renovate(id, target, ctx).result.value, target)
    ensures 2 <= i && Run(id, target, ctx)[i - 1].Invoke?
  {
    var step := Renovate(id, target, ctx);
    var head := [Info(StartMessage)] + step.effects;
    assert Run(id, target, ctx) == head + Conclude(id, target, ctx, step.result);
    assert forall j :: 0 <= j < |head| ==> !head[j].AddReport?;
  }

  /** The wrapper is invoked at most once per run. */
  lemma RunInvokesAtMostOnce(id: TaskId, target: TargetRepo, ctx: RunnerContext)
    ensures Count(Run(id, target, ctx), IsInvoke) <= 1
    ensures Count(Run(id, target, ctx), IsInvoke) == 1 <==>
              ctx.pluginConfig.runtime in ctx.runtimes && ctx.platformEnvs(target).Success? && ctx.cacheEnvs.Success?
  {
  }

  /** What `run` does once `renovate` has returned or thrown. */
  function Conclude(id: TaskId, target: TargetRepo, ctx: RunnerContext, result: Result<RenovateReport, RunError>)
    : (tail: seq<Effect>)
    ensures 1 <= |tail| <= 2
    ensures forall i :: 0 <= i < |tail| ==> !tail[i].Invoke?
    ensures forall i :: 0 < i < |tail| ==> !tail[i].AddReport?
    ensures tail[0].AddReport? <==> result.Success?
    ensures result.Success? ==> tail[0] == AddReport(ReportRecord(id, result.value, target))
    ensures result.Failure? ==> tail == [Error(FailureMessage, result.error)]
    ensures tail[|tail| - 1] == Info(FinishMessage) || tail[|tail| - 1].Error?
    ensures tail[|tail| - 1] == Info(FinishMessage) <==>
              result.Success? && ctx.addReport(ReportRecord(id, result.value, target)) == Pass
    ensures result.Success? && ctx.addReport(ReportRecord(id, result.value, target)).Fail? ==>
              tail[|tail| - 1] ==
                Error(FailureMessage, PersistenceFailed(ctx.addReport(ReportRecord(id, result.value, target)).error))
  {
    match result
    case Failure(e) => [Error(FailureMessage, e)]
    case Success(report) =>
      var record := ReportRecord(id, report, target);
      match ctx.addReport(record)
      case Pass => [AddReport(record), Info(FinishMessage)]
      case Fail(f) => [AddReport(record), Error(FailureMessage, PersistenceFailed(f))]
  }

  /** An unknown runtime: the run logs its start and the failure, invokes nothing and stores nothing. */
  lemma UnknownRuntimeIsLoggedOnly(id: TaskId, target: TargetRepo, ctx: RunnerContext)
    requires ctx.pluginConfig.runtime !in ctx.runtimes
    ensures Run(id, target, ctx) ==
              [Info(StartMessage), Error(FailureMessage, UnknownRuntime(ctx.pluginConfig.runtime))]
  {
  }

  /** When every collaborator succeeds, the run invokes the wrapper once, stores
      the extracted report under its task id and target, and logs success. */
  lemma RunStoresExtractedReport(id: TaskId, target: TargetRepo, ctx: RunnerContext,
                                 platform: Environment.Env, cache: Environment.Env,
                                 out: Stdout, report: RenovateReport)
    requires ctx.pluginConfig.runtime in ctx.runtimes
    requires ctx.platformEnvs(target) == Success(platform)
    requires ctx.cacheEnvs == Success(cache)
    requires ctx.runtimes[ctx.pluginConfig.runtime](InvocationOf(id, ctx, platform, cache)) == Success(out)
    requires ctx.extractReport(out) == Success(report)
    requires ctx.addReport(ReportRecord(id, report, target)) == Pass
    ensures Run(id, target, ctx) ==
              [ Info(StartMessage),
                Invoke(ctx.pluginConfig.runtime, InvocationOf(id, ctx, platform, cache)),
                AddReport(ReportRecord(id, report, target)),
                Info(FinishMessage) ]
  {
    var invocation := InvocationOf(id, ctx, platform, cache);
    assert Renovate(id, target, ctx) ==
             RenovateStep([Invoke(ctx.pluginConfig.runtime, invocation)], Success(report));
  }

  /** A failing environment helper: the run logs its fault and invokes nothing. */
  lemma RunLogsEnvFault(id: TaskId, target: TargetRepo, ctx: RunnerContext)
    requires ctx.pluginConfig.runtime in ctx.runtimes
    ensures ctx.platformEnvs(target).Failure? ==>
              Run(id, target, ctx) ==
                [Info(StartMessage), Error(FailureMessage, PlatformEnvsFailed(ctx.platformEnvs(target).error))]
    ensures ctx.platformEnvs(target).Success? && ctx.cacheEnvs.Failure? ==>
              Run(id, target, ctx) ==
                [Info(StartMessage), Error(FailureMessage, CacheEnvsFailed(ctx.cacheEnvs.error))]
  {
  }

  /** A failing wrapper or extraction: the run logs its fault after the one invocation and stores nothing. */
  lemma RunLogsInvocationFault(id: TaskId, target: TargetRepo, ctx: RunnerContext,
                               platform: Environment.Env, cache: Environment.Env)
    requires ctx.pluginConfig.runtime in ctx.runtimes
    requires ctx.platformEnvs(target) == Success(platform)
    requires ctx.cacheEnvs == Success(cache)
    ensures var name := ctx.pluginConfig.runtime;
            var invocation := InvocationOf(id, ctx, platform, cache);
            var out := ctx.runtimes[name](invocation);
            out.Failure? ==>
              Run(id, target, ctx) ==
                [Info(StartMessage), Invoke(name, invocation), Error(FailureMessage, WrapperFailed(out.error))]
    ensures var name := ctx.pluginConfig.runtime;
            var invocation := InvocationOf(id, ctx, platform, cache);
            var out := ctx.runtimes[name](invocation);
            out.Success? && ctx.extractReport(out.value).Failure? ==>
              Run(id, target, ctx) ==
                [ Info(StartMessage), Invoke(name, invocation),
                  Error(FailureMessage, ExtractionFailed(ctx.extractReport(out.value).error)) ]
  {
    assert Renovate(id, target, ctx).effects ==
             [Invoke(ctx.pluginConfig.runtime, InvocationOf(id, ctx, platform, cache))];
  }

  /** A failing `addReport`: the run logs its fault after handing it the extracted report. */
  lemma RunLogsPersistenceFault(id: TaskId, target: TargetRepo, ctx: RunnerContext,
                                platform: Environment.Env, cache: Environment.Env,
                                out: Stdout, report: RenovateReport, fault: Fault)
    requires ctx.pluginConfig.runtime in ctx.runtimes
    requires ctx.platformEnvs(target) == Success(platform)
    requires ctx.cacheEnvs == Success(cache)
    requires ctx.runtimes[ctx.pluginConfig.runtime](InvocationOf(id, ctx, platform, cache)) == Success(out)
    requires ctx.extractReport(out) == Success(report)
    requires ctx.addReport(ReportRecord(id, report, target)) == Fail(fault)
    ensures Run(id, target, ctx) ==
              [ Info(StartMessage),
                Invoke(ctx.pluginConfig.runtime, InvocationOf(id, ctx, platform, cache)),
                AddReport(ReportRecord(id, report, target)),
                Error(FailureMessage, PersistenceFailed(fault)) ]
  {
    var invocation := InvocationOf(id, ctx, platform, cache);
    assert Renovate(id, target, ctx) ==
             RenovateStep([Invoke(ctx.pluginConfig.runtime, invocation)], Success(report));
  }
}
