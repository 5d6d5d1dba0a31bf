/**
 Provider generations, their leases, replacement and shutdown, as a transition system. One action is one
 await-free region of ProviderRuntimeManager; locks, tasks and calls in progress are part of the state.
 */
module GenerationModel {
  import opened Options

  type Settings = nat
  type RuntimeId = nat
  type TaskId = nat
  type LeaseId = nat
  type GenId = nat

  datatype Generation = Generation(
    settings: Settings,
    runtime: RuntimeId,
    active: nat,
    retired: bool,
    closed: bool,
    drained: bool,
    cleanupTask: Option<TaskId>,
    failures: nat)

  datatype Lease = Lease(generation: GenId, released: bool)

  datatype RefreshPhase = Spawned | Refreshing | Over

  datatype RefreshTask = RefreshTask(generation: GenId, phase: RefreshPhase, cancelled: bool)

  datatype CleanupPhase = Created | Cleaning | Succeeded | Broken

  datatype CleanupTask = CleanupTask(generation: GenId, phase: CleanupPhase)

  /** Who holds the replace lock, and where that call is suspended. */
  datatype Holder =
    | Free
    | Cancelling(settings: Settings, task: Option<TaskId>)
    | Retrying(settings: Settings, todo: set<RuntimeId>)
    | CleaningCandidate(runtime: RuntimeId)
    | ClosingPrevious
    | RefreshCancelling(task: Option<TaskId>)
    | RefreshRunning(generation: GenId)
    | CloseCancelling(task: Option<TaskId>)

  /** What close() is waiting for, per generation it closes. */
  datatype Wait = NotStarted | OnTask(failuresBefore: nat) | Result(ok: bool)

  datatype Closer =
    | NotClosing
    | WantsLock
    | InLock
    | Draining(generations: set<GenId>, seen: set<GenId>)
    | Gathering(waits: map<GenId, Wait>)
    | Unpublishing(ok: bool, todo: set<RuntimeId>)

  datatype Manager = Manager(
    current: GenId,
    nextId: GenId,
    generations: map<GenId, Generation>,
    retired: set<GenId>,
    unpublished: set<RuntimeId>,
    closing: bool,
    closed: bool,
    committed: Settings,
    leases: map<LeaseId, Lease>,
    refreshTask: Option<TaskId>,
    refreshes: map<TaskId, RefreshTask>,
    cleanups: map<TaskId, CleanupTask>,
    holder: Holder,
    closer: Closer)

  datatype CommitOutcome = FactoryFails | CommitFails | Commits

  datatype Action =
    | Acquire(lease: LeaseId)
    | Release(lease: LeaseId, task: TaskId)
    | StartRefresh(task: TaskId)
    | BeginRefresh(task: TaskId)
    | EndRefresh(task: TaskId, cleanup: TaskId)
    | DropRefresh(task: TaskId)
    | BeginCleanup(task: TaskId)
    | EndCleanup(task: TaskId, ok: bool)
    | ReplaceBegin(settings: Settings)
    | ReplaceRetry
    | RetryUnpublished(runtime: RuntimeId, ok: bool)
    | ReplaceCommit(outcome: CommitOutcome, runtime: RuntimeId, refresh: TaskId, cleanup: TaskId)
    | CandidateCleaned(ok: bool)
    | HolderLeaves
    | ListRefreshBegin
    | ListRefreshRun
    | ListRefreshEnd(cleanup: TaskId)
    | CloseBegin
    | CloseLock
    | CloseRetire
    | CloseSees(generation: GenId)
    | CloseGather
    | CloseTry(generation: GenId, cleanup: TaskId)
    | CloseResult(generation: GenId)
    | CloseGathered
    | CloseUnpublished(runtime: RuntimeId, ok: bool)
    | CloseEnd
    | CloseCancelled

  function NewGeneration(settings: Settings, runtime: RuntimeId): Generation {
    Generation(settings, runtime, 0, false, false, true, None, 0)
  }

  function Init(settings: Settings, runtime: RuntimeId): Manager {
    Manager(1, 2, map[1 := NewGeneration(settings, runtime)], {}, {}, false, false, settings, map[], None, map[], map[],
            Free, NotClosing)
  }

  function SetGeneration(m: Manager, g: GenId, x: Generation): Manager {
    m.(generations := m.generations[g := x])
  }

  function Increment(m: Manager, g: GenId): Manager
    requires g in m.generations
  {
    SetGeneration(m, g, m.generations[g].(active := m.generations[g].active + 1, drained := false))
  }

  /** _close_generation up to its first await: join the running cleanup, or create one for a drained generation. */
  function CloseGeneration(m: Manager, g: GenId, task: TaskId): Manager
    requires g in m.generations
  {
    var x := m.generations[g];
    if x.closed || x.active != 0 || x.cleanupTask.Some? then m
    else SetGeneration(m, g, x.(cleanupTask := Some(task))).(cleanups := m.cleanups[task := CleanupTask(g, Created)])
  }

  /** _release: give one hold back; the last hold of a retired generation starts its cleanup. */
  function ReleaseHold(m: Manager, g: GenId, task: TaskId): Manager
    requires g in m.generations
  {
    var x := m.generations[g];
    if x.active == 0 then m
    else if x.active != 1 then SetGeneration(m, g, x.(active := x.active - 1))
    else
      var m' := SetGeneration(m, g, x.(active := 0, drained := true));
      if x.retired && !m.closing then CloseGeneration(m', g, task) else m'
  }

  /** acquire(): refused once shutdown began. */
  function AcquireLease(m: Manager, l: LeaseId): Manager
    requires m.current in m.generations
  {
    if m.closing || m.closed then m
    else Increment(m, m.current).(leases := m.leases[l := Lease(m.current, false)])
  }

  function ReleaseLease(m: Manager, l: LeaseId, task: TaskId): Manager
    requires l in m.leases && m.leases[l].generation in m.generations
  {
    if m.leases[l].released then m
    else ReleaseHold(m.(leases := m.leases[l := m.leases[l].(released := true)]), m.leases[l].generation, task)
  }

  predicate RefreshOver(m: Manager, task: Option<TaskId>) {
    task.None? || (task.value in m.refreshes ==> m.refreshes[task.value].phase.Over?)
  }

  /** _cancel_refresh up to its await: forget the task, and cancel it unless it is done. */
  function CancelRefresh(m: Manager): Manager {
    if RefreshOver(m, m.refreshTask) || m.refreshTask.value !in m.refreshes then m.(refreshTask := None)
    else m.(refreshTask := None,
            refreshes := m.refreshes[m.refreshTask.value := m.refreshes[m.refreshTask.value].(cancelled := true)])
  }

  function AwaitedRefresh(m: Manager): Option<TaskId> {
    if RefreshOver(m, m.refreshTask) then None else m.refreshTask
  }

  function SpawnRefresh(m: Manager, task: TaskId): Manager {
    m.(refreshTask := Some(task), refreshes := m.refreshes[task := RefreshTask(m.current, Spawned, false)])
  }

  /** The new generation becomes current and the previous one retires, in one step with the committed settings. */
  function Publish(m: Manager, settings: Settings, runtime: RuntimeId): Manager
    requires m.current in m.generations
  {
    m.(nextId := m.nextId + 1, current := m.nextId, committed := settings,
       generations := m.generations[m.nextId := NewGeneration(settings, runtime)]
                                   [m.current := m.generations[m.current].(retired := true)],
       retired := m.retired + {m.current})
  }

  /** Publish, start the new generation's refresh, and start closing the previous one if nobody holds it. */
  function PublishAndClose(m: Manager, settings: Settings, runtime: RuntimeId, refresh: TaskId, cleanup: TaskId): Manager
    requires m.current in m.generations
  {
    var m' := SpawnRefresh(Publish(m, settings, runtime), refresh);
    if m.generations[m.current].active == 0
    then CloseGeneration(m', m.current, cleanup).(holder := ClosingPrevious)
    else m'.(holder := Free)
  }

  /** The commit region of replace(): from the runtime factory to the publication of the new generation. */
  function Commit(m: Manager, outcome: CommitOutcome, runtime: RuntimeId, refresh: TaskId, cleanup: TaskId): Manager
    requires m.holder.Retrying? && m.current in m.generations
  {
    match outcome
    case FactoryFails => m.(holder := Free)
    case CommitFails => m.(unpublished := m.unpublished + {runtime}, holder := CleaningCandidate(runtime))
    case Commits => PublishAndClose(m, m.holder.settings, runtime, refresh, cleanup)
  }

  /** close() inside the replace lock: retire the current generation and take the retired ones to close. */
  function RetireCurrent(m: Manager): Manager
    requires m.current in m.generations
  {
    var m1 := if m.generations[m.current].retired then m
              else SetGeneration(m, m.current, m.generations[m.current].(retired := true)).(retired := m.retired + {m.current});
    m1.(holder := Free, closer := Draining(m1.retired, {}))
  }

  function TryClose(m: Manager, g: GenId, task: TaskId): Manager
    requires m.closer.Gathering? && g in m.closer.waits && g in m.generations
  {
    var x := m.generations[g];
    var wait := if x.closed then Result(true) else if x.active != 0 then Result(false) else OnTask(x.failures);
    CloseGeneration(m, g, task).(closer := Gathering(m.closer.waits[g := wait]))
  }

  function CleanupSucceeds(m: Manager, g: GenId, task: TaskId): Manager
    requires g in m.generations
  {
    SetGeneration(m, g, m.generations[g].(closed := true))
      .(retired := m.retired - {g}, cleanups := m.cleanups[task := CleanupTask(g, Succeeded)])
  }

  function CleanupFails(m: Manager, g: GenId, task: TaskId): Manager
    requires g in m.generations
  {
    var x := m.generations[g];
    SetGeneration(m, g, x.(failures := x.failures + 1,
                           cleanupTask := if x.cleanupTask == Some(task) then None else x.cleanupTask))
      .(cleanups := m.cleanups[task := CleanupTask(g, Broken)])
  }

  /** The end of a cleanup task: a success closes the generation, a failure clears the way for a retry. */
  function FinishCleanup(m: Manager, task: TaskId, ok: bool): Manager
    requires task in m.cleanups && m.cleanups[task].generation in m.generations
  {
    if ok then CleanupSucceeds(m, m.cleanups[task].generation, task) else CleanupFails(m, m.cleanups[task].generation, task)
  }

  predicate FreshTask(m: Manager, task: TaskId) {
    task !in m.refreshes && task !in m.cleanups
  }

  predicate FreshRuntime(m: Manager, r: RuntimeId) {
    r !in m.unpublished && forall g | g in m.generations :: m.generations[g].runtime != r
  }

  predicate KnownGeneration(m: Manager, g: GenId) { g in m.generations }

  predicate Enabled(m: Manager, a: Action) {
    match a
    case Acquire(l) => l !in m.leases && m.current in m.generations
    case Release(l, t) => l in m.leases && KnownGeneration(m, m.leases[l].generation) && FreshTask(m, t)
    case StartRefresh(t) => FreshTask(m, t)
    case BeginRefresh(t) =>
      t in m.refreshes && m.refreshes[t].phase.Spawned? && !m.refreshes[t].cancelled &&
      KnownGeneration(m, m.refreshes[t].generation)
    case EndRefresh(t, c) =>
      t in m.refreshes && m.refreshes[t].phase.Refreshing? && KnownGeneration(m, m.refreshes[t].generation) &&
      FreshTask(m, c)
    case DropRefresh(t) => t in m.refreshes && m.refreshes[t].phase.Spawned? && m.refreshes[t].cancelled
    case BeginCleanup(t) => t in m.cleanups && m.cleanups[t].phase.Created?
    case EndCleanup(t, _) =>
      t in m.cleanups && m.cleanups[t].phase.Cleaning? && KnownGeneration(m, m.cleanups[t].generation)
    case ReplaceBegin(_) => m.holder.Free?
    case ReplaceRetry => m.holder.Cancelling? && RefreshOver(m, m.holder.task)
    case RetryUnpublished(r, _) => m.holder.Retrying? && r in m.holder.todo
    case ReplaceCommit(_, r, t, c) =>
      m.holder.Retrying? && m.holder.todo == {} && m.current in m.generations && FreshRuntime(m, r) &&
      FreshTask(m, t) && FreshTask(m, c) && t != c
    case CandidateCleaned(_) => m.holder.CleaningCandidate?
    case HolderLeaves =>
      m.holder.Cancelling? || m.holder.Retrying? || m.holder.CleaningCandidate? || m.holder.ClosingPrevious? ||
      m.holder.RefreshCancelling?
    case ListRefreshBegin => m.holder.Free?
    case ListRefreshRun =>
      m.holder.RefreshCancelling? && RefreshOver(m, m.holder.task) && m.current in m.generations
    case ListRefreshEnd(c) =>
      m.holder.RefreshRunning? && KnownGeneration(m, m.holder.generation) && FreshTask(m, c)
    case CloseBegin => m.closer.NotClosing?
    case CloseLock => m.closer.WantsLock? && m.holder.Free?
    case CloseRetire =>
      m.closer.InLock? && m.holder.CloseCancelling? && RefreshOver(m, m.holder.task) && m.current in m.generations
    case CloseSees(g) =>
      m.closer.Draining? && g in m.closer.generations && KnownGeneration(m, g) && m.generations[g].drained
    case CloseGather => m.closer.Draining? && m.closer.seen == m.closer.generations
    case CloseTry(g, c) =>
      m.closer.Gathering? && g in m.closer.waits && m.closer.waits[g].NotStarted? && KnownGeneration(m, g) && FreshTask(m, c)
    case CloseResult(g) =>
      m.closer.Gathering? && g in m.closer.waits && m.closer.waits[g].OnTask? && KnownGeneration(m, g) &&
      (m.generations[g].closed || m.generations[g].failures > m.closer.waits[g].failuresBefore)
    case CloseGathered => m.closer.Gathering? && forall g | g in m.closer.waits :: m.closer.waits[g].Result?
    case CloseUnpublished(r, _) => m.closer.Unpublishing? && r in m.closer.todo
    case CloseEnd => m.closer.Unpublishing? && m.closer.todo == {}
    case CloseCancelled => !m.closer.NotClosing?
  }

  /**
   start_model_list_refresh is not called between the moment a replacement cancels the current refresh and the
   moment it publishes: application startup calls it only before any replacement.
   */
  predicate Disciplined(m: Manager, a: Action) {
    a.StartRefresh? ==> !m.holder.Cancelling? && !m.holder.Retrying?
  }

  function Step(m: Manager, a: Action): Manager
    requires Enabled(m, a)
  {
    match a
    case Acquire(l) => AcquireLease(m, l)
    case Release(l, t) => ReleaseLease(m, l, t)
    case StartRefresh(t) =>
      if m.closing || m.closed || !RefreshOver(m, m.refreshTask) then m else SpawnRefresh(m, t)
    case BeginRefresh(t) =>
      var g := m.refreshes[t].generation;
      if m.generations[g].closed then m.(refreshes := m.refreshes[t := m.refreshes[t].(phase := Over)])
      else Increment(m, g).(refreshes := m.refreshes[t := m.refreshes[t].(phase := Refreshing)])
    case EndRefresh(t, c) =>
      ReleaseHold(m.(refreshes := m.refreshes[t := m.refreshes[t].(phase := Over)]), m.refreshes[t].generation, c)
    case DropRefresh(t) => m.(refreshes := m.refreshes[t := m.refreshes[t].(phase := Over)])
    case BeginCleanup(t) => m.(cleanups := m.cleanups[t := m.cleanups[t].(phase := Cleaning)])
    case EndCleanup(t, ok) => FinishCleanup(m, t, ok)
    case ReplaceBegin(settings) =>
      if m.closing || m.closed then m else CancelRefresh(m).(holder := Cancelling(settings, AwaitedRefresh(m)))
    case ReplaceRetry => m.(holder := Retrying(m.holder.settings, m.unpublished))
    case RetryUnpublished(r, ok) =>
      m.(holder := m.holder.(todo := m.holder.todo - {r}), unpublished := if ok then m.unpublished - {r} else m.unpublished)
    case ReplaceCommit(outcome, r, t, c) => Commit(m, outcome, r, t, c)
    case CandidateCleaned(ok) =>
      m.(holder := Free, unpublished := if ok then m.unpublished - {m.holder.runtime} else m.unpublished)
    case HolderLeaves => m.(holder := Free)
    case ListRefreshBegin =>
      if m.closing || m.closed then m else CancelRefresh(m).(holder := RefreshCancelling(AwaitedRefresh(m)))
    case ListRefreshRun =>
      if m.generations[m.current].closed then m.(holder := Free)
      else Increment(m, m.current).(holder := RefreshRunning(m.current))
    case ListRefreshEnd(c) => ReleaseHold(m.(holder := Free), m.holder.generation, c)
    case CloseBegin => if m.closed then m else m.(closer := WantsLock)
    case CloseLock =>
      CancelRefresh(m).(closing := true, holder := CloseCancelling(AwaitedRefresh(m)), closer := InLock)
    case CloseRetire => RetireCurrent(m)
    case CloseSees(g) => m.(closer := m.closer.(seen := m.closer.seen + {g}))
    case CloseGather => m.(closer := Gathering(map g | g in m.closer.generations :: NotStarted))
    case CloseTry(g, c) => TryClose(m, g, c)
    case CloseResult(g) =>
      m.(closer := Gathering(m.closer.waits[g := Result(m.generations[g].failures <= m.closer.waits[g].failuresBefore)]))
    case CloseGathered =>
      m.(closer := Unpublishing(forall g | g in m.closer.waits :: m.closer.waits[g] == Result(true), m.unpublished))
    case CloseUnpublished(r, ok) =>
      m.(closer := Unpublishing(m.closer.ok && ok, m.closer.todo - {r}),
         unpublished := if ok then m.unpublished - {r} else m.unpublished)
    case CloseEnd => m.(closer := NotClosing, closed := m.closed || m.closer.ok)
    case CloseCancelled => m.(closer := NotClosing, holder := if m.closer.InLock? then Free else m.holder)
  }

  predicate IsRun(m: Manager, actions: seq<Action>)
    decreases |actions|
  {
    actions == [] || (Enabled(m, actions[0]) && Disciplined(m, actions[0]) && IsRun(Step(m, actions[0]), actions[1..]))
  }

  function After(m: Manager, actions: seq<Action>): Manager
    requires IsRun(m, actions)
    decreases |actions|
  {
    if actions == [] then m else After(Step(m, actions[0]), actions[1..])
  }
}
