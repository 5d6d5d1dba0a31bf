/**
 The objects of the generation manager. Each method is one await-free region, proved to have exactly the effect of
 the matching function of GenerationModel; the asyncio tasks and the calls in progress are ghost fields.
 */
module Generations {
  import opened Options
  import opened GenerationModel

  class ProviderGeneration {
    const id: GenId
    const settings: Settings
    const runtime: RuntimeId
    var activeLeases: nat
    var retired: bool
    var closed: bool
    var drained: bool
    var cleanupTask: Option<TaskId>
    ghost var failures: nat

    ghost function View(): Generation
      reads this
    {
      Generation(settings, runtime, activeLeases, retired, closed, drained, cleanupTask, failures)
    }

    constructor (id: GenId, settings: Settings, runtime: RuntimeId)
      ensures this.id == id && View() == NewGeneration(settings, runtime)
    {
      this.id, this.settings, this.runtime := id, settings, runtime;
      activeLeases, retired, closed, drained, cleanupTask, failures := 0, false, false, true, None, 0;
    }

    method Hold()
      modifies `activeLeases, `drained
      ensures View() == old(View()).(active := old(View()).active + 1, drained := false)
    {
      activeLeases := activeLeases + 1;
      drained := false;
    }

    method Retire()
      modifies `retired
      ensures View() == old(View()).(retired := true)
    {
      retired := true;
    }

    method MarkClosed()
      modifies `closed
      ensures View() == old(View()).(closed := true)
    {
      closed := true;
    }

    method ForgetCleanup(task: TaskId)
      modifies `cleanupTask, `failures
      ensures View() == old(View()).(failures := old(View()).failures + 1,
                                     cleanupTask := if old(cleanupTask) == Some(task) then None else old(cleanupTask))
    {
      if cleanupTask == Some(task) {
        cleanupTask := None;
      }
      failures := failures + 1;
    }
  }

  class ProviderGenerationLease {
    const id: LeaseId
    const generation: ProviderGeneration
    var released: bool

    ghost function View(): Lease
      reads this
    {
      Lease(generation.id, released)
    }

    constructor (id: LeaseId, generation: ProviderGeneration)
      ensures this.id == id && this.generation == generation && !released
    {
      this.id, this.generation, released := id, generation, false;
    }
  }

  class ProviderRuntimeManager {
    var current: ProviderGeneration
    var nextGenerationId: GenId
    var retiredGenerations: map<GenId, ProviderGeneration>
    var unpublished: set<RuntimeId>
    var closing: bool
    var closed: bool
    var refreshTask: Option<TaskId>

    /** The settings on disk, every generation and lease ever made, the tasks, and the calls in progress. */
    ghost var committed: Settings
    ghost var generations: map<GenId, ProviderGeneration>
    ghost var leases: map<LeaseId, ProviderGenerationLease>
    ghost var refreshes: map<TaskId, RefreshTask>
    ghost var cleanups: map<TaskId, CleanupTask>
    ghost var holder: Holder
    ghost var closer: Closer

    ghost predicate Knows(g: ProviderGeneration)
      reads this
    {
      g.id in generations && generations[g.id] == g
    }

    ghost predicate Valid()
      reads this
    {
      && Knows(current)
      && (forall i | i in generations :: generations[i].id == i)
      && (forall i | i in retiredGenerations :: i in generations && retiredGenerations[i] == generations[i])
      && (forall l | l in leases :: leases[l].id == l && Knows(leases[l].generation))
    }

    ghost function GenerationsView(): map<GenId, Generation>
      reads this`generations, generations.Values
    {
      map i | i in generations :: generations[i].View()
    }

    ghost function LeasesView(): map<LeaseId, Lease>
      reads this`leases, leases.Values
    {
      map l | l in leases :: leases[l].View()
    }

    ghost function View(): Manager
      reads this, generations.Values, leases.Values
    {
      Manager(current.id, nextGenerationId, GenerationsView(), retiredGenerations.Keys, unpublished, closing, closed,
              committed, LeasesView(), refreshTask, refreshes, cleanups, holder, closer)
    }

    constructor (settings: Settings, runtime: RuntimeId)
      ensures Valid() && View() == Init(settings, runtime)
    {
      var first := new ProviderGeneration(1, settings, runtime);
      current, nextGenerationId := first, 2;
      retiredGenerations, unpublished, closing, closed, refreshTask := map[], {}, false, false, None;
      committed, generations, leases, refreshes, cleanups := settings, map[1 := first], map[], map[], map[];
      holder, closer := Free, NotClosing;
    }

    /** Changing one generation changes its entry of the view and no other. */
    twostate lemma OneGenerationChanged(g: ProviderGeneration)
      requires old(Valid()) && generations == old(generations) && Knows(g)
      requires forall i | i in generations && i != g.id :: unchanged(generations[i])
      ensures GenerationsView() == old(GenerationsView())[g.id := g.View()]
    {
    }

    twostate lemma LeasesUnchanged()
      requires leases == old(leases) && forall l | l in leases :: unchanged(leases[l])
      ensures LeasesView() == old(LeasesView())
    {
    }

    twostate lemma OneGenerationAdded(new g: ProviderGeneration)
      requires generations == old(generations)[g.id := g] && forall i | i in old(generations) :: unchanged(old(generations)[i])
      ensures GenerationsView() == old(GenerationsView())[g.id := g.View()]
    {
    }

    twostate lemma GenerationsUnchanged()
      requires generations == old(generations) && forall i | i in generations :: unchanged(generations[i])
      ensures GenerationsView() == old(GenerationsView())
    {
    }

    /** The suspended calls move on. */
    ghost method SetCalls(holder: Holder, closer: Closer)
      requires Valid()
      modifies `holder, `closer
      ensures Valid() && View() == old(View()).(holder := holder, closer := closer)
    {
      this.holder, this.closer := holder, closer;
      GenerationsUnchanged();
      LeasesUnchanged();
    }

    twostate lemma OneLeaseAdded(new lease: ProviderGenerationLease)
      requires leases == old(leases)[lease.id := lease] && forall l | l in old(leases) :: unchanged(old(leases)[l])
      ensures LeasesView() == old(LeasesView())[lease.id := lease.View()]
    {
    }

    twostate lemma OneLeaseChanged(lease: ProviderGenerationLease)
      requires old(Valid()) && leases == old(leases) && lease.id in leases && leases[lease.id] == lease
      requires forall l | l in leases && l != lease.id :: unchanged(leases[l])
      ensures LeasesView() == old(LeasesView())[lease.id := lease.View()]
    {
    }

    method HoldCurrent()
      requires Valid()
      modifies current
      ensures Valid() && View() == Increment(old(View()), current.id)
    {
      current.Hold();
      OneGenerationChanged(current);
      LeasesUnchanged();
    }

    method Acquire(id: LeaseId) returns (lease: ProviderGenerationLease?)
      requires Valid() && id !in leases
      modifies this, current
      ensures Valid() && View() == AcquireLease(old(View()), id)
      ensures lease == null <==> old(closing) || old(closed)
      ensures lease != null ==> fresh(lease) && lease.generation == current == old(current) && !lease.released
    {
      if closing || closed {
        return null;
      }
      HoldCurrent();
      lease := new ProviderGenerationLease(id, current);
      AddLease(lease);
    }

    method AddLease(lease: ProviderGenerationLease)
      requires Valid() && lease.id !in leases && Knows(lease.generation)
      modifies `leases
      ensures Valid() && View() == old(View()).(leases := old(LeasesView())[lease.id := lease.View()])
    {
      leases := leases[lease.id := lease];
      GenerationsUnchanged();
      OneLeaseAdded(lease);
    }

    /** release() of a lease: idempotent, and only the first call gives the hold back. */
    method ReleaseLease(lease: ProviderGenerationLease, task: TaskId)
      requires Valid() && lease.id in leases && leases[lease.id] == lease && FreshTask(View(), task)
      modifies this`cleanups, lease, lease.generation
      ensures Valid() && View() == GenerationModel.ReleaseLease(old(View()), lease.id, task)
    {
      if lease.released {
        return;
      }
      lease.released := true;
      OneLeaseChanged(lease);
      assert GenerationsView() == old(GenerationsView());
      ReleaseGeneration(lease.generation, task);
    }

    method ReleaseGeneration(g: ProviderGeneration, task: TaskId)
      requires Valid() && Knows(g)
      modifies this`cleanups, g
      ensures Valid() && View() == ReleaseHold(old(View()), g.id, task)
    {
      if g.activeLeases <= 0 {
        return;
      }
      g.activeLeases := g.activeLeases - 1;
      if g.activeLeases == 0 {
        g.drained := true;
      }
      OneGenerationChanged(g);
      LeasesUnchanged();
      if g.activeLeases == 0 && g.retired && !closing {
        var started := CloseGeneration(g, task);
      }
    }

    /** _close_generation up to its first await; `started` says that it created the cleanup task. */
    method CloseGeneration(g: ProviderGeneration, task: TaskId) returns (started: bool)
      requires Valid() && Knows(g)
      modifies this`cleanups, g`cleanupTask
      ensures Valid() && View() == GenerationModel.CloseGeneration(old(View()), g.id, task)
      ensures started ==> g.cleanupTask == Some(task) && g.activeLeases == 0 && !g.closed
    {
      started := !g.closed && g.activeLeases == 0 && g.cleanupTask.None?;
      if started {
        g.cleanupTask := Some(task);
        cleanups := cleanups[task := CleanupTask(g.id, Created)];
      }
      OneGenerationChanged(g);
      LeasesUnchanged();
    }

    /** The end of _run_generation_cleanup when the runtime's cleanup() returned. */
    method CleanupSucceeded(g: ProviderGeneration, task: TaskId)
      requires Valid() && Knows(g)
      modifies this`cleanups, this`retiredGenerations, g`closed
      ensures Valid() && View() == CleanupSucceeds(old(View()), g.id, task)
    {
      g.MarkClosed();
      retiredGenerations := retiredGenerations - {g.id};
      cleanups := cleanups[task := CleanupTask(g.id, Succeeded)];
      OneGenerationChanged(g);
      LeasesUnchanged();
      assert retiredGenerations.Keys == old(retiredGenerations).Keys - {g.id};
    }

    /** ... and when it raised. */
    method CleanupFailed(g: ProviderGeneration, task: TaskId)
      requires Valid() && Knows(g)
      modifies this`cleanups, g`cleanupTask, g`failures
      ensures Valid() && View() == CleanupFails(old(View()), g.id, task)
    {
      g.ForgetCleanup(task);
      cleanups := cleanups[task := CleanupTask(g.id, Broken)];
      OneGenerationChanged(g);
      LeasesUnchanged();
    }

    method StartRefreshTask(task: TaskId)
      requires Valid()
      modifies this`refreshTask, this`refreshes
      ensures Valid() && View() == SpawnRefresh(old(View()), task)
    {
      refreshTask := Some(task);
      refreshes := refreshes[task := RefreshTask(current.id, Spawned, false)];
      GenerationsUnchanged();
      LeasesUnchanged();
    }

    /** The commit region of replace(), once no unpublished runtime is left to retry. */
    method CommitReplacement(settings: Settings, outcome: CommitOutcome, runtime: RuntimeId, refresh: TaskId, cleanup: TaskId)
      returns (published: bool)
      requires Valid() && holder == Retrying(settings, {}) && nextGenerationId !in generations
      modifies this, current
      ensures Valid() && View() == Commit(old(View()), outcome, runtime, refresh, cleanup)
      ensures published <==> outcome.Commits?
    {
      match outcome {
        case FactoryFails =>
          SetCalls(Free, closer);
          published := false;
        case CommitFails =>
          unpublished := unpublished + {runtime};
          holder := CleaningCandidate(runtime);
          published := false;
        case Commits =>
          PublishAndClose(settings, runtime, refresh, cleanup);
          published := true;
      }
    }

    method PublishAndClose(settings: Settings, runtime: RuntimeId, refresh: TaskId, cleanup: TaskId)
      requires Valid() && nextGenerationId !in generations
      modifies this, current
      ensures Valid() && View() == GenerationModel.PublishAndClose(old(View()), settings, runtime, refresh, cleanup)
    {
      var previous := current;
      PublishGeneration(settings, runtime);
      StartRefreshTask(refresh);
      if previous.activeLeases == 0 {
        var started := CloseGeneration(previous, cleanup);
        SetCalls(ClosingPrevious, closer);
      } else {
        SetCalls(Free, closer);
      }
    }

    /** A generation retires into the map of those that still have to be closed. */
    method RetireGeneration(g: ProviderGeneration)
      requires Valid() && Knows(g)
      modifies this`retiredGenerations, g`retired
      ensures Valid() && g in retiredGenerations.Values && retiredGenerations.Keys == old(retiredGenerations.Keys) + {g.id}
      ensures View() == SetGeneration(old(View()), g.id, old(g.View()).(retired := true))
                          .(retired := old(View()).retired + {g.id})
    {
      g.Retire();
      retiredGenerations := retiredGenerations[g.id := g];
      OneGenerationChanged(g);
      LeasesUnchanged();
      assert retiredGenerations[g.id] == g;
      assert retiredGenerations.Keys == old(retiredGenerations.Keys) + {g.id};
    }

    method PublishGeneration(settings: Settings, runtime: RuntimeId)
      requires Valid() && nextGenerationId !in generations
      modifies this, current
      ensures Valid() && View() == Publish(old(View()), settings, runtime)
      ensures Knows(old(current)) && old(current).activeLeases == old(current.activeLeases) && fresh(current)
    {
      var previous := current;
      AddCandidate(settings, runtime);
      RetireGeneration(previous);
    }

    /** The new generation becomes current; the settings on disk are already its own. */
    method AddCandidate(settings: Settings, runtime: RuntimeId)
      requires Valid() && nextGenerationId !in generations
      modifies this
      ensures Valid() && fresh(current) && Knows(old(current))
      ensures var m := old(View());
              View() == m.(nextId := m.nextId + 1, current := m.nextId, committed := settings,
                           generations := m.generations[m.nextId := NewGeneration(settings, runtime)])
    {
      var candidate := new ProviderGeneration(nextGenerationId, settings, runtime);
      Adopt(candidate);
    }

    method Adopt(candidate: ProviderGeneration)
      requires Valid() && candidate.id == nextGenerationId && nextGenerationId !in generations
      modifies `nextGenerationId, `committed, `current, `generations
      ensures Valid() && current == candidate && Knows(old(current))
      ensures var m := old(View());
              View() == m.(nextId := m.nextId + 1, current := m.nextId, committed := candidate.settings,
                           generations := m.generations[m.nextId := candidate.View()])
    {
      AddGeneration(candidate);
      label Added:
      nextGenerationId, committed, current := nextGenerationId + 1, candidate.settings, candidate;
      GenerationsUnchanged@Added();
      LeasesUnchanged@Added();
    }

    ghost method AddGeneration(g: ProviderGeneration)
      requires Valid() && g.id !in generations
      modifies `generations
      ensures Valid() && generations == old(generations)[g.id := g]
      ensures View() == old(View()).(generations := old(GenerationsView())[g.id := g.View()])
    {
      generations := generations[g.id := g];
      OneGenerationAdded(g);
      LeasesUnchanged();
    }

    /** close() inside the replace lock. */
    method RetireCurrent() returns (retired: map<GenId, ProviderGeneration>)
      requires Valid()
      modifies this, current
      ensures Valid() && View() == GenerationModel.RetireCurrent(old(View()))
      ensures retired == retiredGenerations
    {
      if !current.retired {
        RetireGeneration(current);
      }
      retired := retiredGenerations;
      SetCalls(Free, Draining(retired.Keys, {}));
    }
  }
}
