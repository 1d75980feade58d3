# RenovateRunner orchestration model

A Dafny model of the decision logic of `RenovateRunner`, the class in the
Backstage Renovate backend plugin that runs Renovate against target
repositories. Three parts are modelled as pure functions over the outcomes of
the runner's collaborators:

- **Environment composition** (`Environment`): the environment of a Renovate
  process is four logging defaults (`LOG_FORMAT=json`, `LOG_LEVEL=debug`,
  `LOG_CONTEXT=<task id>`, `RENOVATE_REPORT_TYPE=logging`), overridden by the
  platform variables, overridden in turn by the cache variables. Object spread
  is modelled as `Overlay`, a fold of map unions in which the later layer wins,
  and checked against an independent reading, `LookupLast`: a key takes its
  value from the last layer that defines it.
- **Run pipeline** (`Runner`): `Renovate` resolves the configured runtime in the
  runtime registry (failing with `Unknown runtime type '<name>'` if it is
  absent), builds the invocation (environment, `config` defaulting to `{}` when absent or `null`,
  `runtime.<name>` defaulting to `null`), invokes the wrapper and extracts the
  report. `Run` logs the start, calls `Renovate`, stores the report under the
  run's task id and target, and turns every failure into a log entry, so it
  always returns normally. Both return the observable effects as a trace.
- **Trigger-or-schedule** (`Orchestrator`): `Schedule` threads the scheduler's
  job table (task id to registered task) through one call. A successful
  trigger registers nothing; a NotFound trigger registers exactly one task
  whose callback runs `run(id, targetRepo)`; any other trigger failure escapes
  and registers nothing. A throwing `getTaskID` or `getTargetRepo` escapes
  before the trigger, and a throwing `getScheduleDefinition` escapes from the
  NotFound branch; neither registers anything. Against a scheduler that reports NotFound exactly for
  unregistered ids, scheduling a target twice, or any sequence of targets,
  registers each new id exactly once.

Collaborators whose code is not part of this model are inputs: the runtime
wrappers (`RunnerContext.runtimes`), `getPlatformEnvs`, `getCacheEnvs`,
`extractReport` and `DatabaseHandler.addReport` are function-valued fields of
`Runner.RunnerContext`; `getTaskID` and `getTargetRepo` are the fields of
`Orchestrator.Identity`; `triggerTask` is a `Trigger` over the job table;
`getScheduleDefinition` is a `Result` argument of `Schedule`. Each of these
stands for any behaviour, including throwing; the model does not guess what
they do. `getRuntime` is the `runtime` field of `Runner.PluginConfig`, and the
two configuration reads are its other fields; those never throw in the model.

Modules: `Wrappers` (Option/Result/Outcome), `Seqs` (counting), `Types`
(configuration values, target repository, report), `Environment`, `Runner`,
`Orchestrator`.

## Model

| member | source | states |
|---|---|---|
| Environment.Overlay | plugins/renovate-backend/src/wrapper/index.ts:82-94 | a key is in the spread environment exactly when some layer defines it |
| Environment.OverlayIsLastWriterWins | plugins/renovate-backend/src/wrapper/index.ts:82-94 | every key of the spread environment reads as it does in the last layer that defines it, and a key no layer defines is absent |
| Environment.OverlayOfThree | plugins/renovate-backend/src/wrapper/index.ts:82-94 | in a three-layer spread a key takes the third layer's value if it has one, else the second's, else the first's, else is absent |
| Environment.ComposeEnv | plugins/renovate-backend/src/wrapper/index.ts:82-94 | the environment has exactly the keys of the logging defaults, platform and cache variables; a cache key takes the cache value, otherwise a platform key the platform value, otherwise the logging default; `LOG_FORMAT` is `json`, `LOG_LEVEL` is `debug`, `LOG_CONTEXT` is the task id and `RENOVATE_REPORT_TYPE` is `logging` unless a later layer overrides that key |
| Runner.Renovate | plugins/renovate-backend/src/wrapper/index.ts:71-114 | the run fails with an unknown-runtime error exactly when the configured runtime is not registered, and then invokes nothing; a failing `getPlatformEnvs` or `getCacheEnvs` fails it with that fault before any invocation; otherwise exactly one invocation, of the configured runtime, carrying the composed environment, `config` (or `{}` when it is absent or `null`) and `runtime.<name>` (or `null`); after it the result is the wrapper's fault, or the fault or report `extractReport` makes of its output; a report is returned exactly when every stage succeeded, and it is the extracted one |
| Runner.Run | plugins/renovate-backend/src/wrapper/index.ts:116-131 | the run always returns, its trace starting with the start message and ending with the success message or a logged error; any failure of `renovate` is logged as that error; success is logged exactly when a report was extracted and `addReport` passed; a failed `addReport` is logged as a persistence failure |
| Runner.Conclude | plugins/renovate-backend/src/wrapper/index.ts:120-130 | after `renovate`, the report is handed to `addReport` first, under the task id and target, only if one was returned; a thrown error is logged and nothing is stored |
| Runner.RunStoresReportOnce | plugins/renovate-backend/src/wrapper/index.ts:116-131 | `addReport` is called at most once per run, and exactly when `renovate` returned a report |
| Runner.RunStoresReturnedReport | plugins/renovate-backend/src/wrapper/index.ts:120-126 | the stored record carries `taskID = id`, exactly the report `renovate` returned and the same target, and is stored right after the wrapper invocation |
| Runner.RunInvokesAtMostOnce | plugins/renovate-backend/src/wrapper/index.ts:102-106 | a run invokes the wrapper at most once, and once exactly when the runtime is known and both environment helpers succeed |
| Runner.UnknownRuntimeIsLoggedOnly | plugins/renovate-backend/src/wrapper/index.ts:76-80 | with an unregistered runtime the whole run is the start message and the logged unknown-runtime error: no wrapper invoked, no report stored |
| Runner.RunStoresExtractedReport | plugins/renovate-backend/src/wrapper/index.ts:76-127 | when the runtime is known and the env helpers, the wrapper, `extractReport` and `addReport` all succeed, the run is exactly: start message, one invocation with the composed payload, `addReport` of `(id, extracted report, target)`, success message |
| Runner.RunLogsEnvFault | plugins/renovate-backend/src/wrapper/index.ts:89-93 | a throwing `getPlatformEnvs` or `getCacheEnvs` makes the run the start message followed by that fault logged; nothing is invoked or stored |
| Runner.RunLogsInvocationFault | plugins/renovate-backend/src/wrapper/index.ts:102-113 | a failing wrapper or `extractReport` makes the run the start message, the one invocation, and that fault logged; nothing is stored |
| Runner.RunLogsPersistenceFault | plugins/renovate-backend/src/wrapper/index.ts:121-129 | a failing `addReport` makes the run the start message, the invocation, the `addReport` call with the extracted report, and that fault logged as a persistence failure |
| Orchestrator.Schedule | plugins/renovate-backend/src/wrapper/index.ts:133-158 | a throwing `getTaskID` or `getTargetRepo` escapes before the trigger; a successful trigger leaves the job table unchanged and registers nothing; a task is registered exactly when the trigger reports NotFound and `getScheduleDefinition` succeeds, and then exactly one, under the triggered id, with callback `run(id, targetRepo)` and that definition, leaving other entries unchanged; a throwing `getScheduleDefinition` in the NotFound branch escapes and registers nothing; any other trigger failure escapes unchanged and registers nothing |
| Orchestrator.RegisteredCallbackRunsTarget | plugins/renovate-backend/src/wrapper/index.ts:149-153 | firing the registered task runs `run` with the triggered id and the target's repository |
| Orchestrator.ScheduleTwiceRegistersOnce | plugins/renovate-backend/src/wrapper/index.ts:141-157 | against a scheduler that reports NotFound exactly for unregistered ids, the second `schedule` of a target registers nothing and changes nothing, and the first registers only if the id was unregistered |
| Orchestrator.HonestScheduleAllRegistersEachOnce | plugins/renovate-backend/src/wrapper/index.ts:136-157 | against such a scheduler, scheduling any sequence of targets whose identities resolve, with a schedule definition at hand, never throws, leaves exactly the old ids plus the targets' ids registered, and registers each id once if it was new and never otherwise |
| Orchestrator.HonestScheduleAllStep | plugins/renovate-backend/src/wrapper/index.ts:136-157 | against such a scheduler, the first target of a batch registers its id exactly when the id is new, and the batch continues with the rest |

## Left out

- Promises and async suspension: every collaborator call is a synchronous function; the un-awaited `scheduleTask` is a synchronous update of the job table, and the race of two concurrent `schedule` calls for one id is not modelled.
- Logging beyond the effects trace: `logger.child` and its context fields, the debug messages of `schedule`, and the `isError(e) ? e : {}` shaping of the logged error are not modelled; a failure is one `Error` effect carrying its cause.
- `extractReport`, `getCacheEnvs`, `getPlatformEnvs`, `getTaskID`, `getTargetRepo`, `getScheduleDefinition`, the runtime wrappers, the scheduler's `triggerTask` and `DatabaseHandler`: their code is not part of this model, so they are inputs that may return anything or throw. The log-stream report extraction with its sentinel field and last-match rule lives in `extractReport` and is therefore not modelled.
- The NotFound test by error name is a tagged `TriggerOutcome`; an error that is not an `Error` instance falls under `OtherFailure`.
- Registration of an id that is already in the job table overwrites the entry; what the real scheduler does then is not modelled.
- `scheduleTask` always registers in the model: it is the update of the job table, not an input. A rejection of its un-awaited promise (for instance for an invalid schedule definition) is not modelled; in the source `schedule` then returns normally with nothing registered, so the two once-only registration lemmas assume registration succeeds.
- The `runtime.<name>` configuration path is a lookup by runtime name; a runtime name containing a dot, which the configuration reader would split into a deeper path, is not modelled. `getRuntime`, `getOptional('config')` and `getOptionalConfig` never throw in the model: they are plain fields of `PluginConfig`, because their code is not part of this model; a throw there would end inside `run`'s catch like the other failures of `renovate`.
- Error texts are tags: `UnknownRuntime(name)` stands for the thrown `Unknown runtime type '<name>'`, and the other errors carry the collaborator's fault; the text of the logged error object is not modelled.
- The `runtime.<name>` sub-configuration is a configuration object (`Runner.ConfigObject`, a map of values), so the wrapper receives an object or `None`, read as `null`; a non-object value at that path, which `getOptionalConfig` rejects by throwing, is not modelled.
- `getScheduleDefinition` is spread after `id` and `fn` in the registration object; the model assumes it carries neither key.
- `RenovateRunner.from` and the constructor: field wiring only.
- The report's real shape (`RenovateReport` of the common package) is not modelled; the report borrows the dependency fields of the generated client model and is otherwise opaque. Configuration numbers are integers.
