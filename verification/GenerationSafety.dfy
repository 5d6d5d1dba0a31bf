/** What holds in every run of the generation manager. */
module GenerationSafety {
  import opened Options
  import opened GenerationModel
  import opened GenerationInvariant

  /** The hold count is exact, and `drained` is set exactly while nothing holds the generation. */
  lemma HoldCountIsExact(settings: Settings, runtime: RuntimeId, actions: seq<Action>, g: GenId)
    requires IsRun(Init(settings, runtime), actions)
    requires g in After(Init(settings, runtime), actions).generations
    ensures var m := After(Init(settings, runtime), actions);
            && m.generations[g].active == Holds(m, g)
            && (m.generations[g].drained <==> m.generations[g].active == 0)
            && (m.generations[g].closed ==> m.generations[g].active == 0)
  {
    InitInv(settings, runtime);
    RunKeepsInv(Init(settings, runtime), actions);
    var m := After(Init(settings, runtime), actions);
    assert GenerationOk(m, g, m.generations[g]);
  }

  /** No runtime is cleaned while a lease or a refresh holds it, nor while its generation can still be acquired. */
  lemma NeverCleanedWhileHeld(settings: Settings, runtime: RuntimeId, actions: seq<Action>, m: Manager, t: TaskId)
    requires IsRun(Init(settings, runtime), actions) && m == After(Init(settings, runtime), actions)
    requires t in m.cleanups && (Live(m.cleanups[t]) || m.cleanups[t].phase.Succeeded?)
    ensures var g := m.cleanups[t].generation;
            && (forall l | l in m.leases && m.leases[l].generation == g :: m.leases[l].released)
            && (forall r | r in m.refreshes && m.refreshes[r].generation == g :: !m.refreshes[r].phase.Refreshing?)
            && m.holder != RefreshRunning(g)
            && (g == m.current ==> m.closing)
  {
    InitInv(settings, runtime);
    RunKeepsInv(Init(settings, runtime), actions);
    var g := m.cleanups[t].generation;
    assert CleanupOk(m, t, m.cleanups[t]);
    assert GenerationOk(m, g, m.generations[g]);
    assert m.generations[g].active == Holds(m, g);
    forall l | l in m.leases && m.leases[l].generation == g ensures m.leases[l].released {
      assert !m.leases[l].released ==> l in HeldLeases(m.leases, g);
    }
    forall r | r in m.refreshes && m.refreshes[r].generation == g ensures !m.refreshes[r].phase.Refreshing? {
      assert m.refreshes[r].phase.Refreshing? ==> r in RunningRefreshes(m.refreshes, g);
    }
  }

  /** Cleanups of one generation never overlap, and no cleanup follows one that succeeded. */
  lemma CleanupsNeverOverlap(settings: Settings, runtime: RuntimeId, actions: seq<Action>, m: Manager, t: TaskId, t': TaskId)
    requires IsRun(Init(settings, runtime), actions) && m == After(Init(settings, runtime), actions)
    requires t in m.cleanups && t' in m.cleanups && m.cleanups[t].generation == m.cleanups[t'].generation
    requires !m.cleanups[t].phase.Broken? && !m.cleanups[t'].phase.Broken?
    ensures t == t'
  {
    InitInv(settings, runtime);
    RunKeepsInv(Init(settings, runtime), actions);
    assert CleanupOk(m, t, m.cleanups[t]) && CleanupOk(m, t', m.cleanups[t']);
  }

  /** A generation is closed exactly when one of its cleanups succeeded. */
  lemma ClosedIffCleaned(settings: Settings, runtime: RuntimeId, actions: seq<Action>, m: Manager, g: GenId)
    requires IsRun(Init(settings, runtime), actions) && m == After(Init(settings, runtime), actions)
    requires g in m.generations
    ensures m.generations[g].closed <==> exists t :: t in m.cleanups && m.cleanups[t] == CleanupTask(g, Succeeded)
  {
    InitInv(settings, runtime);
    RunKeepsInv(Init(settings, runtime), actions);
    assert GenerationOk(m, g, m.generations[g]);
    if m.generations[g].closed {
      assert m.generations[g].cleanupTask.value in m.cleanups;
    }
    if t :| t in m.cleanups && m.cleanups[t] == CleanupTask(g, Succeeded) {
      assert CleanupOk(m, t, m.cleanups[t]);
    }
  }

  /** The settings on disk are those of the current generation, and the retired map is exact. */
  lemma ManagerIsConsistent(settings: Settings, runtime: RuntimeId, actions: seq<Action>)
    requires IsRun(Init(settings, runtime), actions)
    ensures var m := After(Init(settings, runtime), actions);
            && m.current in m.generations && m.committed == m.generations[m.current].settings
            && m.retired == (set g | g in m.generations && m.generations[g].retired && !m.generations[g].closed)
            && (forall g | g in m.generations :: g < m.nextId)
            && (!m.closing ==> forall g | g in m.generations :: !m.generations[g].retired <==> g == m.current)
  {
    InitInv(settings, runtime);
    RunKeepsInv(Init(settings, runtime), actions);
    var m := After(Init(settings, runtime), actions);
    forall g | g in m.generations ensures GenerationOk(m, g, m.generations[g]) {
    }
    forall g ensures g in m.retired <==> g in m.generations && m.generations[g].retired && !m.generations[g].closed {
      if g in m.generations {
        assert GenerationOk(m, g, m.generations[g]);
      }
    }
  }

  /**
   Publication is the only step that touches the current generation, the next id or the committed settings. A
   replacement that fails leaves everything else as it was, too, but for the candidate of a failed commit.
   */
  lemma OnlyPublicationReplaces(m: Manager, a: Action)
    requires Inv(m) && Enabled(m, a)
    ensures var m' := Step(m, a);
            if a.ReplaceCommit? && a.outcome.Commits? then
              && m'.current == m.nextId && m.nextId !in m.generations && m'.nextId == m.nextId + 1
              && m'.committed == m'.generations[m'.current].settings == m.holder.settings
              && m'.generations[m'.current] == NewGeneration(m.holder.settings, a.runtime)
              && m'.generations[m.current].retired && m'.retired == m.retired + {m.current}
            else
              && m'.current == m.current && m'.nextId == m.nextId && m'.committed == m.committed
              && (a.ReplaceCommit? ==>
                    m'.(holder := m.holder) ==
                    m.(unpublished := m.unpublished + if a.outcome.CommitFails? then {a.runtime} else {}))
  {
    if a.ReplaceCommit? && a.outcome.Commits? {
      PublicationFacts(m, a.runtime, a.refresh, a.cleanup);
    } else if a.ReplaceCommit? {
      FailedCommitFacts(m, a);
    } else {
      OthersReplaceNothing(m, a);
    }
  }

  lemma FailedCommitFacts(m: Manager, a: Action)
    requires Enabled(m, a) && a.ReplaceCommit? && !a.outcome.Commits?
    ensures Step(m, a).(holder := m.holder) ==
            m.(unpublished := m.unpublished + if a.outcome.CommitFails? then {a.runtime} else {})
  {
  }

  lemma PublicationFacts(m: Manager, r: RuntimeId, t: TaskId, c: TaskId)
    requires Inv(m) && Enabled(m, ReplaceCommit(Commits, r, t, c))
    ensures var m' := Commit(m, Commits, r, t, c);
            && m'.current == m.nextId && m.nextId !in m.generations && m'.nextId == m.nextId + 1
            && m'.committed == m.holder.settings
            && m'.generations.Keys == m.generations.Keys + {m.nextId}
            && m'.generations[m.nextId] == NewGeneration(m.holder.settings, r)
            && m'.generations[m.current].retired && m'.retired == m.retired + {m.current}
  {
    assert m.nextId !in m.generations by {
      assert m.nextId in m.generations ==> GenerationOk(m, m.nextId, m.generations[m.nextId]);
    }
    CommitFacts(m, r, t, c);
  }

  lemma CommitFacts(m: Manager, r: RuntimeId, t: TaskId, c: TaskId)
    requires m.current in m.generations && m.nextId !in m.generations && Enabled(m, ReplaceCommit(Commits, r, t, c))
    ensures var m' := Commit(m, Commits, r, t, c);
            && m'.current == m.nextId && m'.nextId == m.nextId + 1 && m'.committed == m.holder.settings
            && m'.generations.Keys == m.generations.Keys + {m.nextId}
            && m'.generations[m.nextId] == NewGeneration(m.holder.settings, r)
            && m'.generations[m.current].retired && m'.retired == m.retired + {m.current}
  {
    PublishFacts(m, m.holder.settings, r);
    CloseTouchesOnlyItsGeneration(SpawnRefresh(Publish(m, m.holder.settings, r), t), m.current, c);
  }

  lemma PublishFacts(m: Manager, settings: Settings, r: RuntimeId)
    requires m.current in m.generations && m.nextId !in m.generations
    ensures var m' := Publish(m, settings, r);
            && m'.generations.Keys == m.generations.Keys + {m.nextId}
            && m'.generations[m.nextId] == NewGeneration(settings, r) && m'.generations[m.current].retired
  {
  }

  lemma CloseTouchesOnlyItsGeneration(m: Manager, g: GenId, c: TaskId)
    requires g in m.generations
    ensures var m' := CloseGeneration(m, g, c);
            && m'.(generations := m.generations, cleanups := m.cleanups) == m
            && m'.generations == m.generations[g := m'.generations[g]]
            && m'.generations[g].(cleanupTask := m.generations[g].cleanupTask) == m.generations[g]
  {
  }

  lemma OthersReplaceNothing(m: Manager, a: Action)
    requires Enabled(m, a) && !(a.ReplaceCommit? && a.outcome.Commits?)
    ensures var m' := Step(m, a); m'.current == m.current && m'.nextId == m.nextId && m'.committed == m.committed
  {
    if a.Release? || a.EndRefresh? || a.ListRefreshEnd? {
      ReleasesReplaceNothing(m, a);
    } else if a.CloseTry? {
      CloseGenerationEffect(m, a.generation, a.cleanup);
    } else if a.EndCleanup? {
      FinishEffect(m, a.task, a.ok);
    }
  }

  lemma ReleasesReplaceNothing(m: Manager, a: Action)
    requires Enabled(m, a) && (a.Release? || a.EndRefresh? || a.ListRefreshEnd?)
    ensures var m' := Step(m, a); m'.current == m.current && m'.nextId == m.nextId && m'.committed == m.committed
  {
    if a.ListRefreshEnd? {
      ReleaseEffect(m.(holder := Free), m.holder.generation, a.cleanup);
    } else if a.EndRefresh? {
      ReleaseEffect(m.(refreshes := m.refreshes[a.task := m.refreshes[a.task].(phase := Over)]),
                    m.refreshes[a.task].generation, a.cleanup);
    } else if !m.leases[a.lease].released {
      ReleaseEffect(m.(leases := m.leases[a.lease := m.leases[a.lease].(released := true)]),
                    m.leases[a.lease].generation, a.task);
    }
  }

  /** acquire() hands out a lease of the current generation, which it holds, exactly until shutdown begins. */
  lemma AcquireIff(settings: Settings, runtime: RuntimeId, actions: seq<Action>, m: Manager, l: LeaseId)
    requires IsRun(Init(settings, runtime), actions) && m == After(Init(settings, runtime), actions)
    requires Enabled(m, Acquire(l))
    ensures CloseLock in actions <==> l !in Step(m, Acquire(l)).leases
    ensures CloseLock !in actions ==>
              var m' := Step(m, Acquire(l));
              && m'.leases[l] == Lease(m.current, false)
              && m'.generations[m.current].active == m.generations[m.current].active + 1
  {
    InitInv(settings, runtime);
    RunKeepsInv(Init(settings, runtime), actions);
    ClosingIff(Init(settings, runtime), actions);
  }

  /** start_model_list_refresh starts a refresh of the current generation exactly if none is under way, until shutdown. */
  lemma RefreshStartsIff(settings: Settings, runtime: RuntimeId, actions: seq<Action>, m: Manager, t: TaskId)
    requires IsRun(Init(settings, runtime), actions) && m == After(Init(settings, runtime), actions)
    requires Enabled(m, StartRefresh(t))
    ensures t in Step(m, StartRefresh(t)).refreshes <==> CloseLock !in actions && RefreshOver(m, m.refreshTask)
    ensures t in Step(m, StartRefresh(t)).refreshes ==>
              Step(m, StartRefresh(t)).refreshes[t] == RefreshTask(m.current, Spawned, false)
  {
    InitInv(settings, runtime);
    RunKeepsInv(Init(settings, runtime), actions);
    ClosingIff(Init(settings, runtime), actions);
  }

  lemma {:induction false} ClosingIff(m: Manager, actions: seq<Action>)
    requires IsRun(m, actions)
    ensures After(m, actions).closing <==> m.closing || CloseLock in actions
    decreases |actions|
  {
    if actions != [] {
      var a := actions[0];
      if a.Release? || a.EndRefresh? || a.ListRefreshEnd? || a.ReplaceCommit? {
        HoldEndsKeepClosing(m, a);
      } else {
        ClosingStep(m, a);
      }
      ClosingIff(Step(m, a), actions[1..]);
    }
  }

  lemma ClosingStep(m: Manager, a: Action)
    requires Enabled(m, a) && !a.Release? && !a.EndRefresh? && !a.ListRefreshEnd? && !a.ReplaceCommit?
    ensures Step(m, a).closing <==> m.closing || a.CloseLock?
  {
    if a.CloseTry? {
      CloseTouchesOnlyItsGeneration(m, a.generation, a.cleanup);
    } else if !a.EndCleanup? && !a.CloseRetire? {
      QuietClosing(m, a);
    }
  }

  lemma QuietClosing(m: Manager, a: Action)
    requires Enabled(m, a) && !a.Release? && !a.EndRefresh? && !a.ListRefreshEnd? && !a.ReplaceCommit?
    requires !a.CloseTry? && !a.EndCleanup? && !a.CloseRetire?
    ensures Step(m, a).closing <==> m.closing || a.CloseLock?
  {
  }

  lemma HoldEndsKeepClosing(m: Manager, a: Action)
    requires Enabled(m, a) && (a.Release? || a.EndRefresh? || a.ListRefreshEnd? || a.ReplaceCommit?)
    ensures Step(m, a).closing == m.closing
  {
    if a.ReplaceCommit? && a.outcome.Commits? {
      CloseTouchesOnlyItsGeneration(SpawnRefresh(Publish(m, m.holder.settings, a.runtime), a.refresh), m.current, a.cleanup);
    }
  }

  /** The last hold of a retired generation, given back while nothing shuts down, starts its cleanup. */
  lemma LastReleaseStartsCleanup(m: Manager, l: LeaseId, t: TaskId)
    requires Inv(m) && Enabled(m, Release(l, t)) && !m.leases[l].released && !m.closing
    requires m.generations[m.leases[l].generation].retired && m.generations[m.leases[l].generation].active == 1
    ensures var m' := Step(m, Release(l, t));
            && m'.generations[m.leases[l].generation].cleanupTask == Some(t)
            && m'.cleanups[t] == CleanupTask(m.leases[l].generation, Created)
  {
    assert GenerationOk(m, m.leases[l].generation, m.generations[m.leases[l].generation]);
  }

  lemma ReleaseKeepsReleased(m: Manager, a: Action, l: LeaseId)
    requires Enabled(m, a) && (a.Release? || a.EndRefresh? || a.ListRefreshEnd?) && l in m.leases && m.leases[l].released
    ensures l in Step(m, a).leases && Step(m, a).leases[l] == m.leases[l]
  {
    if a.ListRefreshEnd? {
      ReleaseEffect(m.(holder := Free), m.holder.generation, a.cleanup);
    } else if a.EndRefresh? {
      ReleaseEffect(m.(refreshes := m.refreshes[a.task := m.refreshes[a.task].(phase := Over)]),
                    m.refreshes[a.task].generation, a.cleanup);
    } else if !m.leases[a.lease].released {
      ReleaseEffect(m.(leases := m.leases[a.lease := m.leases[a.lease].(released := true)]),
                    m.leases[a.lease].generation, a.task);
    }
  }

  lemma OthersKeepReleased(m: Manager, a: Action, l: LeaseId)
    requires Enabled(m, a) && !a.Release? && !a.EndRefresh? && !a.ListRefreshEnd? && l in m.leases
    ensures l in Step(m, a).leases && Step(m, a).leases[l] == m.leases[l]
  {
    if a.EndCleanup? {
      FinishEffect(m, a.task, a.ok);
    } else if a.CloseTry? {
      CloseGenerationEffect(m, a.generation, a.cleanup);
    } else if a.ReplaceCommit? {
      CommitKeepsLeases(m, a);
    }
  }

  lemma CommitKeepsLeases(m: Manager, a: Action)
    requires Enabled(m, a) && a.ReplaceCommit?
    ensures Step(m, a).leases == m.leases
  {
    if a.outcome.Commits? {
      CloseTouchesOnlyItsGeneration(SpawnRefresh(Publish(m, m.holder.settings, a.runtime), a.refresh), m.current, a.cleanup);
    }
  }

  /** A released lease stays released in every run, and releasing it again changes nothing: it gives its hold back once. */
  lemma {:induction false} ReleasedForGood(m: Manager, actions: seq<Action>, l: LeaseId, t: TaskId)
    requires IsRun(m, actions) && l in m.leases && m.leases[l].released
    ensures l in After(m, actions).leases && After(m, actions).leases[l] == m.leases[l]
    ensures Enabled(After(m, actions), Release(l, t)) ==> Step(After(m, actions), Release(l, t)) == After(m, actions)
    decreases |actions|
  {
    if actions != [] {
      var a := actions[0];
      if a.Release? || a.EndRefresh? || a.ListRefreshEnd? {
        ReleaseKeepsReleased(m, a, l);
      } else {
        OthersKeepReleased(m, a, l);
      }
      ReleasedForGood(Step(m, a), actions[1..], l, t);
    }
  }

  /** A close that succeeded left every published generation closed and unheld, and nothing unpublished. */
  lemma SuccessfulCloseIsComplete(settings: Settings, runtime: RuntimeId, actions: seq<Action>)
    requires IsRun(Init(settings, runtime), actions) && After(Init(settings, runtime), actions).closed
    ensures var m := After(Init(settings, runtime), actions);
            && AllClosed(m) && m.unpublished == {} && m.retired == {}
            && (forall l | l in m.leases :: m.leases[l].released)
            && (forall t | t in m.cleanups :: !Live(m.cleanups[t]))
  {
    InitInv(settings, runtime);
    RunKeepsInv(Init(settings, runtime), actions);
    var m := After(Init(settings, runtime), actions);
    forall g | g in m.generations ensures g !in m.retired {
      assert GenerationOk(m, g, m.generations[g]);
    }
    forall l | l in m.leases ensures m.leases[l].released {
      var g := m.leases[l].generation;
      assert GenerationOk(m, g, m.generations[g]);
      assert !m.leases[l].released ==> l in HeldLeases(m.leases, g);
    }
    forall t | t in m.cleanups ensures !Live(m.cleanups[t]) {
      assert CleanupOk(m, t, m.cleanups[t]);
      assert GenerationOk(m, m.cleanups[t].generation, m.generations[m.cleanups[t].generation]);
    }
  }

  lemma NoLateStart(m: Manager, t: TaskId)
    requires Shape(m) && m.closing && t in m.refreshes
    ensures !(m.refreshes[t].phase.Spawned? && !m.refreshes[t].cancelled)
  {
    assert RefreshOk(m, t, m.refreshes[t]);
  }

  lemma ReleasesOnlyDrain(m: Manager, a: Action, g: GenId)
    requires Enabled(m, a) && (a.Release? || a.EndRefresh?) && g in m.generations
    ensures Step(m, a).closing == m.closing && g in Step(m, a).generations
    ensures Step(m, a).generations[g].active <= m.generations[g].active
  {
    if a.EndRefresh? {
      ReleaseEffect(m.(refreshes := m.refreshes[a.task := m.refreshes[a.task].(phase := Over)]),
                    m.refreshes[a.task].generation, a.cleanup);
    } else if !m.leases[a.lease].released {
      ReleaseEffect(m.(leases := m.leases[a.lease := m.leases[a.lease].(released := true)]),
                    m.leases[a.lease].generation, a.task);
    }
  }

  /** Once shutdown began, no hold is ever added: what close() has seen drained stays drained. */
  lemma ShutdownOnlyDrains(m: Manager, a: Action, g: GenId)
    requires Inv(m) && Enabled(m, a) && Disciplined(m, a) && m.closing && g in m.generations
    ensures Step(m, a).closing && g in Step(m, a).generations
    ensures Step(m, a).generations[g].active <= m.generations[g].active
  {
    if a.BeginRefresh? {
      NoLateStart(m, a.task);
    } else if a.Release? || a.EndRefresh? {
      ReleasesOnlyDrain(m, a, g);
    } else if a.BeginCleanup? || a.EndCleanup? || a.CloseTry? || a.CloseRetire? {
      FlagsEffect(m, a);
    }
  }

  /** A retired generation that nobody holds is being cleaned, or its cleanup failed and waits for shutdown. */
  lemma NoGenerationForgotten(settings: Settings, runtime: RuntimeId, actions: seq<Action>, m: Manager, g: GenId)
    requires IsRun(Init(settings, runtime), actions) && m == After(Init(settings, runtime), actions)
    requires g in m.generations && !m.closing
    requires m.generations[g].retired && !m.generations[g].closed && m.generations[g].active == 0
    ensures g in m.retired
    ensures m.generations[g].failures > 0 || exists t :: t in m.cleanups && m.cleanups[t].generation == g && Live(m.cleanups[t])
  {
    InitInv(settings, runtime);
    RunKeepsInv(Init(settings, runtime), actions);
    assert GenerationOk(m, g, m.generations[g]);
  }
}
