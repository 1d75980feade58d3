/** `schedule(target)`: fire the recurring job of the target's task if the
    scheduler knows it, register one if the scheduler reports it unknown, and
    let any other scheduler failure escape. The scheduler's job table is a map
    from task id to the registered task; its key set is the set of registered
    ids. Registration is a synchronous update of that table. */
module Orchestrator {
  import opened Wrappers
  import opened Types
  import opened Seqs
  import Runner

  /** What `schedule` accepts: a bare string, an annotated catalog entity, or a repository. */
  datatype ScheduleTarget =
    | FromString(s: string)
    | FromEntity(annotations: map<string, string>)
    | FromRepo(repo: TargetRepo)

  /** `getTaskID` and `getTargetRepo`, whose code lies outside the runner; either may throw. */
  datatype Identity = Identity(
    taskId: ScheduleTarget -> Result<TaskId, Fault>,
    targetRepo: ScheduleTarget -> Result<TargetRepo, Fault>)

  /** Both identity helpers succeed on `target`. */
  predicate Resolves(ident: Identity, target: ScheduleTarget)
  {
    ident.taskId(target).Success? && ident.targetRepo(target).Success?
  }

  /** Cadence settings from `getScheduleDefinition`, opaque to the runner. */
  datatype ScheduleDefinition = ScheduleDefinition(settings: map<string, Json>)

  /** The job's callback `() => this.run(id, targetRepo)`. */
  datatype Callback = RunTask(id: TaskId, target: TargetRepo)

  datatype ScheduledTask = ScheduledTask(id: TaskId, fn: Callback, definition: ScheduleDefinition)

  /** The scheduler's job table. */
  type Tasks = map<TaskId, ScheduledTask>

  /** How `triggerTask(id)` ends: it fires the job, or throws a NotFound error, or throws anything else. */
  datatype TriggerOutcome = Triggered | NotFound | OtherFailure(fault: Fault)

  /** The scheduler's `triggerTask`, as a function of its job table. */
  type Trigger = (Tasks, TaskId) -> TriggerOutcome

  /** A scheduler whose trigger reports NotFound exactly for unregistered ids. */
  function HonestTrigger(tasks: Tasks, id: TaskId): TriggerOutcome
  {
    if id in tasks then Triggered else NotFound
  }

  /** The job table after `schedule`, the task it registered, and whether it threw. */
  datatype Step = Step(tasks: Tasks, registered: Option<ScheduledTask>, outcome: Outcome<Fault>)

  /** What the callback of a registered task does when the scheduler fires it. */
  function Fire(task: ScheduledTask, ctx: Runner.RunnerContext): seq<Runner.Effect>
  {
    Runner.Run(task.fn.id, task.fn.target, ctx)
  }

  /** `schedule(target)`; `definition` is what `getScheduleDefinition` returns or throws. */
  function Schedule(tasks: Tasks, trigger: Trigger, ident: Identity, definition: Result<ScheduleDefinition, Fault>,
                    target: ScheduleTarget): (s: Step)
    // a throwing identity helper escapes before the trigger, registering nothing
    ensures ident.taskId(target).Failure? ==> s == Step(tasks, None, Fail(ident.taskId(target).error))
    ensures ident.taskId(target).Success? && ident.targetRepo(target).Failure? ==>
              s == Step(tasks, None, Fail(ident.targetRepo(target).error))
    // a successful trigger registers nothing and leaves the table unchanged
    ensures Resolves(ident, target) && trigger(tasks, ident.taskId(target).value) == Triggered ==>
              s == Step(tasks, None, Pass)
    // only a NotFound trigger registers, and then exactly one task
    ensures s.registered.Some? <==>
              Resolves(ident, target) && trigger(tasks, ident.taskId(target).value) == NotFound && definition.Success?
    ensures s.registered.Some? ==>
              var id := ident.taskId(target).value;
              && s.registered.value.id == id
              && s.registered.value.fn == RunTask(id, ident.targetRepo(target).value)
              && s.registered.value.definition == definition.value
              && s.tasks.Keys == tasks.Keys + {id}
              && s.tasks[id] == s.registered.value
              && (forall other :: other in tasks && other != id ==> s.tasks[other] == tasks[other])
              && s.outcome == Pass
    // a throwing `getScheduleDefinition` escapes from the NotFound branch, registering nothing
    ensures Resolves(ident, target) && trigger(tasks, ident.taskId(target).value) == NotFound && definition.Failure? ==>
              s == Step(tasks, None, Fail(definition.error))
    // any other trigger failure escapes unchanged and registers nothing
    ensures Resolves(ident, target) && trigger(tasks, ident.taskId(target).value).OtherFailure? ==>
              s == Step(tasks, None, Fail(trigger(tasks, ident.taskId(target).value).fault))
    // whatever escapes, the table is unchanged
    ensures s.outcome.Fail? ==> s.tasks == tasks && s.registered == None
  {
    match ident.taskId(target)
    case Failure(f) => Step(tasks, None, Fail(f))
    case Success(id) =>
      match ident.targetRepo(target)
      case Failure(f) => Step(tasks, None, Fail(f))
      case Success(targetRepo) =>
        match trigger(tasks, id)
        case Triggered => Step(tasks, None, Pass)
        case OtherFailure(f) => Step(tasks, None, Fail(f))
        case NotFound =>
          match definition
          case Failure(f) => Step(tasks, None, Fail(f))
          case Success(d) =>
            var task := ScheduledTask(id, RunTask(id, targetRepo), d);
            Step(tasks[id := task], Some(task), Pass)
  }

  /** The registered callback runs `run` with the triggered id and the target's repository. */
  lemma RegisteredCallbackRunsTarget(tasks: Tasks, trigger: Trigger, ident: Identity,
                                     definition: Result<ScheduleDefinition, Fault>,
                                     target: ScheduleTarget, ctx: Runner.RunnerContext)
    requires Resolves(ident, target) && definition.Success?
    requires trigger(tasks, ident.taskId(target).value) == NotFound
    ensures Schedule(tasks, trigger, ident, definition, target).registered.Some?
    ensures Fire(Schedule(tasks, trigger, ident, definition, target).registered.value, ctx) ==
              Runner.Run(ident.taskId(target).value, ident.targetRepo(target).value, ctx)
  {
  }

  /** Against a scheduler that reports NotFound exactly for unregistered ids,
      scheduling the same target twice registers at most once, and the second
      call changes nothing. */
  lemma ScheduleTwiceRegistersOnce(tasks: Tasks, ident: Identity, definition: Result<ScheduleDefinition, Fault>,
                                   target: ScheduleTarget)
    requires Resolves(ident, target) && definition.Success?
    ensures var first := Schedule(tasks, HonestTrigger, ident, definition, target);
            var second := Schedule(first.tasks, HonestTrigger, ident, definition, target);
            && second.registered == None
            && second.tasks == first.tasks
            && second.outcome == Pass
            && (first.registered.Some? <==> ident.taskId(target).value !in tasks)
  {
  }

  /** The job table, registrations and first escaping failure of `schedule`
      called on each target in turn. */
  datatype Batch = Batch(tasks: Tasks, registrations: seq<ScheduledTask>, outcome: Outcome<Fault>)

  function ScheduleAll(tasks: Tasks, trigger: Trigger, ident: Identity, definition: Result<ScheduleDefinition, Fault>,
                       targets: seq<ScheduleTarget>): (b: Batch)
    decreases |targets|
  {
    if |targets| == 0 then Batch(tasks, [], Pass)
    else
      var s := Schedule(tasks, trigger, ident, definition, targets[0]);
      var registered := if s.registered.Some? then [s.registered.value] else [];
      if s.outcome.Fail? then Batch(s.tasks, registered, s.outcome)
      else
        var rest := ScheduleAll(s.tasks, trigger, ident, definition, targets[1..]);
        Batch(rest.tasks, registered + rest.registrations, rest.outcome)
  }

  /** The task ids of those targets whose id resolves. */
  function Ids(ident: Identity, targets: seq<ScheduleTarget>): set<TaskId>
    decreases |targets|
  {
    if |targets| == 0 then {}
    else
      var first := match ident.taskId(targets[0]) case Success(id) => {id} case Failure(_) => {};
      first + Ids(ident, targets[1..])
  }

  function HasId(id: TaskId): ScheduledTask -> bool
  {
    (t: ScheduledTask) => t.id == id
  }

  /** One step of a batch against a scheduler that reports NotFound exactly
      for unregistered ids: the first target registers its id if it is new, and
      the batch continues with the rest. */
  lemma HonestScheduleAllStep(tasks: Tasks, ident: Identity, definition: Result<ScheduleDefinition, Fault>,
                              targets: seq<ScheduleTarget>)
    requires |targets| > 0 && definition.Success?
    requires forall i :: 0 <= i < |targets| ==> Resolves(ident, targets[i])
    ensures Resolves(ident, targets[0])
    ensures var first := ident.taskId(targets[0]).value;
            var s := Schedule(tasks, HonestTrigger, ident, definition, targets[0]);
            var registered := if s.registered.Some? then [s.registered.value] else [];
            var rest := ScheduleAll(s.tasks, HonestTrigger, ident, definition, targets[1..]);
            && s.tasks.Keys == tasks.Keys + {first}
            && (s.registered.Some? <==> first !in tasks)
            && (s.registered.Some? ==> s.registered.value.id == first)
            && ScheduleAll(tasks, HonestTrigger, ident, definition, targets) ==
                 Batch(rest.tasks, registered + rest.registrations, rest.outcome)
            && Ids(ident, targets) == {first} + Ids(ident, targets[1..])
    ensures forall i :: 0 <= i < |targets[1..]| ==> Resolves(ident, targets[1..][i])
  {
    forall i | 0 <= i < |targets[1..]| ensures Resolves(ident, targets[1..][i]) {
      assert targets[1..][i] == targets[i + 1];
    }
  }

  /** Against a scheduler that reports NotFound exactly for unregistered ids,
      scheduling any sequence of targets whose identities resolve, with a
      schedule definition at hand, never fails, registers every id not yet
      registered exactly once, and registers no id twice. */
  lemma {:induction false} HonestScheduleAllRegistersEachOnce(tasks: Tasks, ident: Identity,
                                                              definition: Result<ScheduleDefinition, Fault>,
                                                              targets: seq<ScheduleTarget>, id: TaskId)
    requires definition.Success?
    requires forall i :: 0 <= i < |targets| ==> Resolves(ident, targets[i])
    ensures ScheduleAll(tasks, HonestTrigger, ident, definition, targets).outcome == Pass
    ensures ScheduleAll(tasks, HonestTrigger, ident, definition, targets).tasks.Keys == tasks.Keys + Ids(ident, targets)
    ensures Count(ScheduleAll(tasks, HonestTrigger, ident, definition, targets).registrations, HasId(id)) ==
              if id !in tasks && id in Ids(ident, targets) then 1 else 0
    decreases |targets|
  {
    if |targets| > 0 {
      var first := ident.taskId(targets[0]).value;
      var s := Schedule(tasks, HonestTrigger, ident, definition, targets[0]);
      var registered := if s.registered.Some? then [s.registered.value] else [];
      var rest := ScheduleAll(s.tasks, HonestTrigger, ident, definition, targets[1..]);
      HonestScheduleAllStep(tasks, ident, definition, targets);
      HonestScheduleAllRegistersEachOnce(s.tasks, ident, definition, targets[1..], id);
      CountAppend(registered, rest.registrations, HasId(id));
      assert Count(registered, HasId(id)) == if id == first && id !in tasks then 1 else 0;
    }
  }
}
