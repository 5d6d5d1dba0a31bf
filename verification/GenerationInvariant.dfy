/** What every step of the generation manager keeps. */
module GenerationInvariant {
  import opened Options
  import opened GenerationModel

  ghost function HeldLeases(leases: map<LeaseId, Lease>, g: GenId): set<LeaseId> {
    set l | l in leases && leases[l] == Lease(g, false)
  }

  ghost function RunningRefreshes(refreshes: map<TaskId, RefreshTask>, g: GenId): set<TaskId> {
    set t | t in refreshes && refreshes[t].generation == g && refreshes[t].phase.Refreshing?
  }

  function ListRefresh(m: Manager, g: GenId): nat {
    if m.holder == RefreshRunning(g) then 1 else 0
  }

  /** Everything that keeps the runtime of generation `g` in use. */
  ghost function Holds(m: Manager, g: GenId): nat {
    |HeldLeases(m.leases, g)| + |RunningRefreshes(m.refreshes, g)| + ListRefresh(m, g)
  }

  predicate Live(c: CleanupTask) { c.phase.Created? || c.phase.Cleaning? }

  ghost predicate GenerationOk(m: Manager, g: GenId, x: Generation) {
    && g < m.nextId
    && (x.drained <==> x.active == 0)
    && (x.closed ==> x.retired && x.active == 0 && x.cleanupTask.Some?)
    && (x.cleanupTask.Some? ==>
          && x.retired && x.active == 0
          && x.cleanupTask.value in m.cleanups
          && m.cleanups[x.cleanupTask.value].generation == g
          && (if x.closed then m.cleanups[x.cleanupTask.value].phase.Succeeded? else Live(m.cleanups[x.cleanupTask.value])))
    && (g in m.retired <==> x.retired && !x.closed)
    && (g != m.current || m.closing || !x.retired)
    && (g != m.current ==> x.retired)
    && (!m.closing && x.retired && !x.closed && x.active == 0 ==> x.cleanupTask.Some? || x.failures > 0)
  }

  /** A cleanup task that still runs, or has succeeded, is the one its generation knows of. */
  ghost predicate CleanupOk(m: Manager, t: TaskId, c: CleanupTask) {
    && c.generation in m.generations
    && (Live(c) || c.phase.Succeeded? ==> m.generations[c.generation].cleanupTask == Some(t))
  }

  ghost predicate RefreshOk(m: Manager, t: TaskId, r: RefreshTask) {
    && r.generation in m.generations
    && (r.phase.Spawned? && !r.cancelled ==>
          r.generation == m.current && m.refreshTask == Some(t) && !m.generations[m.current].retired)
  }

  ghost predicate HolderOk(m: Manager) {
    && (m.refreshTask.Some? ==> m.refreshTask.value in m.refreshes)
    && (m.holder.Cancelling? && m.holder.task.Some? ==> m.holder.task.value in m.refreshes)
    && (m.holder.Cancelling? || m.holder.Retrying? ==> m.refreshTask.None?)
    && (m.closing ==> m.refreshTask.None? && (m.holder.Free? || m.holder.CloseCancelling?))
    && (m.holder.CloseCancelling? <==> m.closer.InLock?)
    && (m.holder.RefreshRunning? ==> m.holder.generation == m.current)
    && (m.holder.CleaningCandidate? ==> m.holder.runtime in m.unpublished)
  }

  ghost predicate AllRetired(m: Manager) { forall g | g in m.generations :: m.generations[g].retired }

  ghost predicate AllClosed(m: Manager) { forall g | g in m.generations :: m.generations[g].closed }

  ghost predicate CloserOk(m: Manager) {
    && (m.closed ==> m.closing && m.closer.NotClosing? && AllClosed(m) && m.unpublished == {})
    && match m.closer
       case NotClosing => true
       case WantsLock => true
       case InLock => m.closing
       case Draining(gens, seen) =>
         m.closing && AllRetired(m) && seen <= gens && forall g | g in m.generations :: g in gens || m.generations[g].closed
       case Gathering(waits) =>
         m.closing && AllRetired(m) &&
         forall g | g in m.generations ::
           if g in waits then waits[g] == Result(true) ==> m.generations[g].closed else m.generations[g].closed
       case Unpublishing(ok, todo) =>
         m.closing && AllRetired(m) && (ok ==> AllClosed(m) && m.unpublished == todo)
  }

  ghost predicate Counted(m: Manager) {
    && (forall g | g in m.generations :: m.generations[g].active == Holds(m, g))
    && (forall l | l in m.leases :: m.leases[l].generation in m.generations)
  }

  ghost predicate Shape(m: Manager) {
    && m.current in m.generations && m.generations[m.current].settings == m.committed
    && m.retired <= m.generations.Keys
    && (forall g | g in m.generations :: GenerationOk(m, g, m.generations[g]))
    && (forall t | t in m.cleanups :: CleanupOk(m, t, m.cleanups[t]))
    && (forall t | t in m.refreshes :: RefreshOk(m, t, m.refreshes[t]))
    && HolderOk(m) && CloserOk(m)
  }

  ghost predicate Inv(m: Manager) {
    Shape(m) && Counted(m)
  }

  lemma InitInv(settings: Settings, runtime: RuntimeId)
    ensures Inv(Init(settings, runtime))
  {
    var m := Init(settings, runtime);
    assert HeldLeases(m.leases, 1) == {} && RunningRefreshes(m.refreshes, 1) == {};
  }

  /** A new hold count, on a generation that nobody is cleaning and that cannot need cleaning. */
  lemma HoldChangeKeepsShape(m: Manager, g: GenId, active: nat)
    requires Shape(m) && g in m.generations && m.generations[g].cleanupTask.None?
    requires m.closing || !m.generations[g].retired || active > 0
    ensures Shape(SetGeneration(m, g, m.generations[g].(active := active, drained := active == 0)))
  {
  }

  lemma ShapeIgnoresLeases(m: Manager, leases: map<LeaseId, Lease>)
    requires Shape(m)
    ensures Shape(m.(leases := leases))
  {
  }

  lemma HeldAfterAcquire(leases: map<LeaseId, Lease>, l: LeaseId, to: GenId, g: GenId)
    requires l !in leases
    ensures |HeldLeases(leases[l := Lease(to, false)], g)| == |HeldLeases(leases, g)| + if g == to then 1 else 0
  {
    assert HeldLeases(leases[l := Lease(to, false)], g) == HeldLeases(leases, g) + if g == to then {l} else {};
  }

  lemma HeldAfterRelease(leases: map<LeaseId, Lease>, l: LeaseId, g: GenId)
    requires l in leases && !leases[l].released
    ensures |HeldLeases(leases[l := leases[l].(released := true)], g)| + (if g == leases[l].generation then 1 else 0) ==
            |HeldLeases(leases, g)|
  {
    assert HeldLeases(leases[l := leases[l].(released := true)], g) == HeldLeases(leases, g) - {l};
  }

  function Runs(r: RefreshTask, g: GenId): nat { if r.generation == g && r.phase.Refreshing? then 1 else 0 }

  lemma RunningAfter(refreshes: map<TaskId, RefreshTask>, t: TaskId, r: RefreshTask, g: GenId)
    ensures |RunningRefreshes(refreshes[t := r], g)| ==
            |RunningRefreshes(refreshes, g)| + Runs(r, g) - if t in refreshes then Runs(refreshes[t], g) else 0
  {
    assert RunningRefreshes(refreshes[t := r], g) ==
           if Runs(r, g) == 1 then RunningRefreshes(refreshes, g) + {t} else RunningRefreshes(refreshes, g) - {t};
  }

  lemma AcquireKeepsCount(m: Manager, l: LeaseId)
    requires Counted(m) && l !in m.leases && m.current in m.generations
    ensures Counted(Increment(m, m.current).(leases := m.leases[l := Lease(m.current, false)]))
  {
    var m' := Increment(m, m.current).(leases := m.leases[l := Lease(m.current, false)]);
    forall g | g in m'.generations ensures m'.generations[g].active == Holds(m', g) {
      HeldAfterAcquire(m.leases, l, m.current, g);
    }
  }

  lemma AcquireKeepsInv(m: Manager, l: LeaseId)
    requires Inv(m) && Enabled(m, Acquire(l))
    ensures Inv(Step(m, Acquire(l)))
  {
    if !(m.closing || m.closed) {
      AcquireKeepsShape(m, l);
      AcquireKeepsCount(m, l);
    }
  }

  lemma AcquireKeepsShape(m: Manager, l: LeaseId)
    requires Shape(m) && !m.closing && !m.closed
    ensures Shape(AcquireLease(m, l))
  {
    HoldChangeKeepsShape(m, m.current, m.generations[m.current].active + 1);
    ShapeIgnoresLeases(Increment(m, m.current), m.leases[l := Lease(m.current, false)]);
  }

  /** A change that leaves holds and hold counts alone keeps them equal. */
  lemma SameHolds(m: Manager, m': Manager)
    requires Counted(m) && m'.generations.Keys == m.generations.Keys && m'.leases == m.leases
    requires forall g | g in m.generations :: m'.generations[g].active == m.generations[g].active
    requires forall t | t in m.refreshes && m.refreshes[t].phase.Refreshing? ::
               t in m'.refreshes && m'.refreshes[t].phase.Refreshing? && m'.refreshes[t].generation == m.refreshes[t].generation
    requires forall t | t in m'.refreshes && m'.refreshes[t].phase.Refreshing? ::
               t in m.refreshes && m.refreshes[t].phase.Refreshing?
    requires m'.holder.RefreshRunning? || m.holder.RefreshRunning? ==> m'.holder == m.holder
    ensures Counted(m')
  {
    forall g | g in m'.generations ensures m'.generations[g].active == Holds(m', g) {
      assert RunningRefreshes(m'.refreshes, g) == RunningRefreshes(m.refreshes, g);
    }
  }

  /** Giving one hold back. */
  lemma ReleaseKeepsShape(m: Manager, g: GenId, t: TaskId)
    requires Shape(m) && g in m.generations && m.generations[g].active > 0 && FreshTask(m, t)
    ensures Shape(ReleaseHold(m, g, t))
  {
    var x := m.generations[g];
    assert x.cleanupTask.None? && !x.drained;
    if x.active == 1 && x.retired && !m.closing {
      LastReleaseKeepsShape(m, g, t);
    } else {
      HoldChangeKeepsShape(m, g, x.active - 1);
    }
  }

  /** The last hold of a retired generation, given back while nothing is shutting down. */
  lemma LastReleaseKeepsShape(m: Manager, g: GenId, t: TaskId)
    requires Shape(m) && g in m.generations && m.generations[g].active == 1 && FreshTask(m, t)
    requires m.generations[g].retired && !m.closing
    ensures Shape(ReleaseHold(m, g, t))
  {
    assert GenerationOk(m, g, m.generations[g]);
  }

  lemma BeginCleanupKeepsShape(m: Manager, t: TaskId)
    requires Shape(m) && Enabled(m, BeginCleanup(t))
    ensures Shape(Step(m, BeginCleanup(t)))
  {
  }

  lemma CleanupSucceedsKeepsShape(m: Manager, t: TaskId)
    requires Shape(m) && Enabled(m, EndCleanup(t, true))
    ensures Shape(FinishCleanup(m, t, true))
  {
    assert CleanupOk(m, t, m.cleanups[t]);
    assert GenerationOk(m, m.cleanups[t].generation, m.generations[m.cleanups[t].generation]);
  }

  lemma CleanupFailsKeepsShape(m: Manager, t: TaskId)
    requires Shape(m) && Enabled(m, EndCleanup(t, false))
    ensures Shape(FinishCleanup(m, t, false))
  {
    assert CleanupOk(m, t, m.cleanups[t]);
    assert GenerationOk(m, m.cleanups[t].generation, m.generations[m.cleanups[t].generation]);
  }

  lemma CloseGenerationKeepsShape(m: Manager, g: GenId, t: TaskId)
    requires Shape(m) && g in m.generations && m.generations[g].retired && FreshTask(m, t)
    ensures Shape(CloseGeneration(m, g, t))
  {
  }

  lemma CancelRefreshKeepsShape(m: Manager)
    requires Shape(m)
    ensures Shape(CancelRefresh(m))
    ensures forall t | t in CancelRefresh(m).refreshes ::
              var r := CancelRefresh(m).refreshes[t]; !(r.phase.Spawned? && !r.cancelled)
  {
  }

  // ---------------------------------------------------------------- counting

  lemma ReleaseEffect(m: Manager, g: GenId, c: TaskId)
    requires g in m.generations
    ensures var r := ReleaseHold(m, g, c);
            && r.leases == m.leases && r.refreshes == m.refreshes && r.holder == m.holder
            && r.current == m.current && r.nextId == m.nextId && r.committed == m.committed && r.closing == m.closing
            && r.generations.Keys == m.generations.Keys
            && forall h | h in m.generations ::
                 r.generations[h].active + (if h == g && m.generations[g].active > 0 then 1 else 0) == m.generations[h].active
  {
    if m.generations[g].active == 1 {
      CloseGenerationEffect(SetGeneration(m, g, m.generations[g].(active := 0, drained := true)), g, c);
    }
  }

  lemma ReleaseKeepsCount(m: Manager, l: LeaseId, t: TaskId)
    requires Counted(m) && l in m.leases && !m.leases[l].released
    ensures m.generations[m.leases[l].generation].active > 0
    ensures Counted(ReleaseHold(m.(leases := m.leases[l := m.leases[l].(released := true)]), m.leases[l].generation, t))
  {
    var to := m.leases[l].generation;
    HeldAfterRelease(m.leases, l, to);
    var m' := ReleaseHold(m.(leases := m.leases[l := m.leases[l].(released := true)]), to, t);
    forall g | g in m'.generations ensures m'.generations[g].active == Holds(m', g) {
      HeldAfterRelease(m.leases, l, g);
    }
  }

  lemma BeginRefreshKeepsCount(m: Manager, t: TaskId, g: GenId)
    requires Counted(m) && g in m.generations && t in m.refreshes && m.refreshes[t].generation == g
    requires !m.refreshes[t].phase.Refreshing?
    ensures Counted(Increment(m, g).(refreshes := m.refreshes[t := m.refreshes[t].(phase := Refreshing)]))
  {
    var m' := Increment(m, g).(refreshes := m.refreshes[t := m.refreshes[t].(phase := Refreshing)]);
    forall h | h in m'.generations ensures m'.generations[h].active == Holds(m', h) {
      RunningAfter(m.refreshes, t, m.refreshes[t].(phase := Refreshing), h);
    }
  }

  lemma EndRefreshKeepsCount(m: Manager, t: TaskId, c: TaskId)
    requires Counted(m) && t in m.refreshes && m.refreshes[t].phase.Refreshing? && m.refreshes[t].generation in m.generations
    ensures m.generations[m.refreshes[t].generation].active > 0
    ensures Counted(ReleaseHold(m.(refreshes := m.refreshes[t := m.refreshes[t].(phase := Over)]), m.refreshes[t].generation, c))
  {
    var g := m.refreshes[t].generation;
    assert t in RunningRefreshes(m.refreshes, g);
    ReleaseEffect(m.(refreshes := m.refreshes[t := m.refreshes[t].(phase := Over)]), g, c);
    var m' := ReleaseHold(m.(refreshes := m.refreshes[t := m.refreshes[t].(phase := Over)]), g, c);
    forall h | h in m'.generations ensures m'.generations[h].active == Holds(m', h) {
      RunningAfter(m.refreshes, t, m.refreshes[t].(phase := Over), h);
    }
  }

  lemma ListRefreshKeepsCount(m: Manager, g: GenId)
    requires Counted(m) && g in m.generations && !m.holder.RefreshRunning?
    ensures Counted(Increment(m, g).(holder := RefreshRunning(g)))
  {
  }

  lemma ListRefreshEndKeepsCount(m: Manager, c: TaskId)
    requires Counted(m) && m.holder.RefreshRunning? && m.holder.generation in m.generations
    ensures m.generations[m.holder.generation].active > 0
    ensures Counted(ReleaseHold(m.(holder := Free), m.holder.generation, c))
  {
    ReleaseEffect(m.(holder := Free), m.holder.generation, c);
  }

  // ---------------------------------------------------------------- steps

  lemma ReleaseKeepsInv(m: Manager, l: LeaseId, t: TaskId)
    requires Inv(m) && Enabled(m, Release(l, t))
    ensures Inv(Step(m, Release(l, t)))
  {
    if !m.leases[l].released {
      ReleaseKeepsCount(m, l, t);
      var m1 := m.(leases := m.leases[l := m.leases[l].(released := true)]);
      ShapeIgnoresLeases(m, m1.leases);
      ReleaseKeepsShape(m1, m.leases[l].generation, t);
    }
  }

  /** A refresh task moves on; only a task that may still start is constrained. */
  lemma RefreshMovesKeepsShape(m: Manager, t: TaskId, r: RefreshTask)
    requires Shape(m) && t in m.refreshes && r.generation == m.refreshes[t].generation
    requires !(r.phase.Spawned? && !r.cancelled)
    ensures Shape(m.(refreshes := m.refreshes[t := r]))
  {
  }

  /** A refresh that may still start belongs to the current, unretired, unclosed generation. */
  lemma MayStart(m: Manager, t: TaskId)
    requires Shape(m) && t in m.refreshes && m.refreshes[t].phase.Spawned? && !m.refreshes[t].cancelled
    ensures var g := m.refreshes[t].generation;
            g in m.generations && g == m.current && m.generations[g].cleanupTask.None? &&
            !m.generations[g].closed && !m.generations[g].retired
  {
    assert RefreshOk(m, t, m.refreshes[t]);
    assert GenerationOk(m, m.current, m.generations[m.current]);
  }

  lemma BeginRefreshKeepsInv(m: Manager, t: TaskId)
    requires Inv(m) && Enabled(m, BeginRefresh(t))
    ensures Inv(Step(m, BeginRefresh(t)))
  {
    var g := m.refreshes[t].generation;
    MayStart(m, t);
    BeginRefreshKeepsShape(m, t, g);
    BeginRefreshKeepsCount(m, t, g);
  }

  lemma BeginRefreshKeepsShape(m: Manager, t: TaskId, g: GenId)
    requires Shape(m) && t in m.refreshes && m.refreshes[t].generation == g && g in m.generations
    requires m.generations[g].cleanupTask.None? && !m.generations[g].retired
    ensures Shape(Increment(m, g).(refreshes := m.refreshes[t := m.refreshes[t].(phase := Refreshing)]))
  {
    var r := m.refreshes[t].(phase := Refreshing);
    HoldChangeKeepsShape(m, g, m.generations[g].active + 1);
    RefreshMovesKeepsShape(Increment(m, g), t, r);
  }

  lemma EndRefreshKeepsInv(m: Manager, t: TaskId, c: TaskId)
    requires Inv(m) && Enabled(m, EndRefresh(t, c))
    ensures Inv(Step(m, EndRefresh(t, c)))
  {
    var m1 := m.(refreshes := m.refreshes[t := m.refreshes[t].(phase := Over)]);
    EndRefreshKeepsCount(m, t, c);
    RefreshMovesKeepsShape(m, t, m.refreshes[t].(phase := Over));
    ReleaseKeepsShape(m1, m.refreshes[t].generation, c);
  }

  lemma DropRefreshKeepsInv(m: Manager, t: TaskId)
    requires Inv(m) && Enabled(m, DropRefresh(t))
    ensures Inv(Step(m, DropRefresh(t)))
  {
    RefreshMovesKeepsShape(m, t, m.refreshes[t].(phase := Over));
    SameHolds(m, Step(m, DropRefresh(t)));
  }

  lemma StartRefreshKeepsShape(m: Manager, t: TaskId)
    requires Shape(m) && Enabled(m, StartRefresh(t)) && Disciplined(m, StartRefresh(t))
    ensures Shape(Step(m, StartRefresh(t)))
  {
  }

  lemma StartRefreshKeepsInv(m: Manager, t: TaskId)
    requires Inv(m) && Enabled(m, StartRefresh(t)) && Disciplined(m, StartRefresh(t))
    ensures Inv(Step(m, StartRefresh(t)))
  {
    StartRefreshKeepsShape(m, t);
    QuietStepKeepsCount(m, StartRefresh(t));
  }

  lemma CleanupStepsKeepInv(m: Manager, a: Action)
    requires Inv(m) && Enabled(m, a) && (a.BeginCleanup? || a.EndCleanup?)
    ensures Inv(Step(m, a))
  {
    match a {
      case BeginCleanup(t) => BeginCleanupKeepsShape(m, t);
      case EndCleanup(t, ok) =>
        if ok {
          CleanupSucceedsKeepsShape(m, t);
        } else {
          CleanupFailsKeepsShape(m, t);
        }
    }
    QuietStepKeepsCount(m, a);
  }

  predicate Quiet(a: Action) {
    !(a.Acquire? || a.Release? || a.BeginRefresh? || a.EndRefresh? || a.ListRefreshRun? || a.ListRefreshEnd? ||
      a.ReplaceCommit?)
  }

  /** The steps that neither take nor give back a hold. */
  lemma QuietStepKeepsCount(m: Manager, a: Action)
    requires Counted(m) && HolderOk(m) && Enabled(m, a) && Quiet(a)
    ensures Counted(Step(m, a))
  {
    if a.StartRefresh? || a.DropRefresh? {
      SameHolds(m, Step(m, a));
    } else if a.CloseLock? || ((a.ReplaceBegin? || a.ListRefreshBegin?) && !m.closing && !m.closed) {
      CancelRefreshKeepsCount(m);
      HolderKeepsCount(CancelRefresh(m), Step(m, a));
    } else if a.BeginCleanup? || a.EndCleanup? || a.CloseTry? || a.CloseRetire? {
      OnlyFlagsChange(m, a);
    } else {
      HolderKeepsCount(m, Step(m, a));
    }
  }

  lemma CancelRefreshKeepsRunning(m: Manager, g: GenId)
    ensures RunningRefreshes(CancelRefresh(m).refreshes, g) == RunningRefreshes(m.refreshes, g)
  {
  }

  lemma CancelRefreshKeepsCount(m: Manager)
    requires Counted(m)
    ensures Counted(CancelRefresh(m))
  {
    var m' := CancelRefresh(m);
    forall g | g in m'.generations ensures m'.generations[g].active == Holds(m', g) {
      CancelRefreshKeepsRunning(m, g);
    }
  }

  lemma HolderKeepsCount(m: Manager, m': Manager)
    requires Counted(m) && m'.generations == m.generations && m'.leases == m.leases && m'.refreshes == m.refreshes
    requires m'.holder.RefreshRunning? || m.holder.RefreshRunning? ==> m'.holder == m.holder
    ensures Counted(m')
  {
  }

  ghost predicate SameActive(m: Manager, m': Manager) {
    && m'.current == m.current && m'.nextId == m.nextId && m'.committed == m.committed && m'.closing == m.closing
    && m'.generations.Keys == m.generations.Keys && m'.leases == m.leases && m'.refreshes == m.refreshes
    && (forall g | g in m.generations :: m'.generations[g].active == m.generations[g].active)
    && (m'.holder.RefreshRunning? || m.holder.RefreshRunning? ==> m'.holder == m.holder)
  }

  lemma SameActiveKeepsCount(m: Manager, m': Manager)
    requires Counted(m) && SameActive(m, m')
    ensures Counted(m')
  {
  }

  lemma CloseGenerationEffect(m: Manager, g: GenId, t: TaskId)
    requires g in m.generations
    ensures SameActive(m, CloseGeneration(m, g, t)) && CloseGeneration(m, g, t).holder == m.holder
  {
  }

  lemma FlagsEffect(m: Manager, a: Action)
    requires Enabled(m, a) && (a.BeginCleanup? || a.EndCleanup? || a.CloseTry? || a.CloseRetire?)
    ensures SameActive(m, Step(m, a))
  {
    match a {
      case CloseTry(g, t) => CloseGenerationEffect(m, g, t);
      case EndCleanup(t, ok) => FinishEffect(m, t, ok);
      case CloseRetire => RetireEffect(m);
      case BeginCleanup(t) =>
    }
  }

  lemma RetireEffect(m: Manager)
    requires m.current in m.generations
    ensures var m' := GenerationModel.RetireCurrent(m);
            m'.generations.Keys == m.generations.Keys &&
            forall g | g in m.generations :: m'.generations[g].active == m.generations[g].active
  {
  }

  lemma FinishEffect(m: Manager, t: TaskId, ok: bool)
    requires t in m.cleanups && m.cleanups[t].generation in m.generations
    ensures SameActive(m, FinishCleanup(m, t, ok))
  {
  }

  lemma OnlyFlagsChange(m: Manager, a: Action)
    requires Counted(m) && Enabled(m, a) && (a.BeginCleanup? || a.EndCleanup? || a.CloseTry? || a.CloseRetire?)
    ensures Counted(Step(m, a))
  {
    FlagsEffect(m, a);
    SameActiveKeepsCount(m, Step(m, a));
  }

  /** The holder of the lock moves on without touching anything but its own state and the unpublished runtimes. */
  lemma HolderMovesKeepsInv(m: Manager, holder: Holder, unpublished: set<RuntimeId>)
    requires Inv(m) && !m.holder.RefreshRunning? && !holder.RefreshRunning?
    requires HolderOk(m.(holder := holder, unpublished := unpublished))
    requires m.closing ==> unpublished == m.unpublished
    ensures Inv(m.(holder := holder, unpublished := unpublished))
  {
    SameHolds(m, m.(holder := holder, unpublished := unpublished));
  }

  lemma ListRefreshRunKeepsShape(m: Manager)
    requires Shape(m) && m.holder.RefreshCancelling?
    ensures m.current in m.generations && !m.generations[m.current].closed
    ensures Shape(Increment(m, m.current).(holder := RefreshRunning(m.current)))
  {
    NotClosedWhileLocked(m);
    HoldChangeKeepsShape(m, m.current, m.generations[m.current].active + 1);
    HolderKeepsShape(Increment(m, m.current), RefreshRunning(m.current));
  }

  lemma ListRefreshRunKeepsInv(m: Manager)
    requires Inv(m) && Enabled(m, ListRefreshRun)
    ensures Inv(Step(m, ListRefreshRun))
  {
    ListRefreshRunKeepsShape(m);
    ListRefreshKeepsCount(m, m.current);
  }

  lemma NotClosedWhileLocked(m: Manager)
    requires Shape(m) && !m.holder.Free? && !m.holder.CloseCancelling?
    ensures !m.closing && !m.generations[m.current].retired && !m.generations[m.current].closed
    ensures m.generations[m.current].cleanupTask.None?
  {
    assert GenerationOk(m, m.current, m.generations[m.current]);
  }

  lemma ListRefreshEndKeepsInv(m: Manager, c: TaskId)
    requires Inv(m) && Enabled(m, ListRefreshEnd(c))
    ensures Inv(Step(m, ListRefreshEnd(c)))
  {
    ListRefreshEndKeepsCount(m, c);
    HolderKeepsShape(m, Free);
    ReleaseKeepsShape(m.(holder := Free), m.holder.generation, c);
  }

  lemma HolderKeepsShape(m: Manager, holder: Holder)
    requires Shape(m) && HolderOk(m.(holder := holder))
    ensures Shape(m.(holder := holder))
  {
  }

  lemma CommitKeepsInv(m: Manager, outcome: CommitOutcome, r: RuntimeId, t: TaskId, c: TaskId)
    requires Inv(m) && Enabled(m, ReplaceCommit(outcome, r, t, c))
    ensures Inv(Commit(m, outcome, r, t, c))
  {
    match outcome {
      case FactoryFails => HolderMovesKeepsInv(m, Free, m.unpublished);
      case CommitFails => HolderMovesKeepsInv(m, CleaningCandidate(r), m.unpublished + {r});
      case Commits => PublishKeepsInv(m, r, t, c);
    }
  }

  lemma PublishKeepsInv(m: Manager, r: RuntimeId, t: TaskId, c: TaskId)
    requires Inv(m) && Enabled(m, ReplaceCommit(Commits, r, t, c))
    ensures Inv(Commit(m, Commits, r, t, c))
  {
    NotClosedWhileLocked(m);
    PublishKeepsShape(m, r, t, c);
    assert forall g | g in m.generations :: GenerationOk(m, g, m.generations[g]);
    assert forall x | x in m.refreshes :: RefreshOk(m, x, m.refreshes[x]);
    PublishKeepsCount(m, r, t, c);
  }

  lemma PublishKeepsCount(m: Manager, r: RuntimeId, t: TaskId, c: TaskId)
    requires Counted(m) && Enabled(m, ReplaceCommit(Commits, r, t, c))
    requires forall g | g in m.generations :: g < m.nextId
    requires forall x | x in m.refreshes :: m.refreshes[x].generation in m.generations
    ensures Counted(Commit(m, Commits, r, t, c))
  {
    var m' := Commit(m, Commits, r, t, c);
    PublishEffect(m, r, t, c);
    forall g | g in m'.generations ensures m'.generations[g].active == Holds(m', g) {
      RunningAfter(m.refreshes, t, RefreshTask(m.nextId, Spawned, false), g);
      if g == m.nextId {
        NothingHolds(m, g);
      }
    }
  }

  lemma PublishKeepsActive(m: Manager, settings: Settings, r: RuntimeId)
    requires m.current in m.generations && m.nextId !in m.generations
    ensures var p := Publish(m, settings, r);
            && p.generations.Keys == m.generations.Keys + {m.nextId} && p.generations[m.nextId].active == 0
            && (forall g | g in m.generations :: p.generations[g].active == m.generations[g].active)
  {
  }

  lemma PublishEffect(m: Manager, r: RuntimeId, t: TaskId, c: TaskId)
    requires Enabled(m, ReplaceCommit(Commits, r, t, c)) && m.nextId !in m.generations
    ensures var m' := Commit(m, Commits, r, t, c);
            && m'.generations.Keys == m.generations.Keys + {m.nextId} && m'.generations[m.nextId].active == 0
            && (forall g | g in m.generations :: m'.generations[g].active == m.generations[g].active)
            && m'.leases == m.leases && m'.refreshes == m.refreshes[t := RefreshTask(m.nextId, Spawned, false)]
            && !m'.holder.RefreshRunning?
  {
    PublishKeepsActive(m, m.holder.settings, r);
    CloseGenerationEffect(SpawnRefresh(Publish(m, m.holder.settings, r), t), m.current, c);
  }

  lemma NothingHolds(m: Manager, g: GenId)
    requires Counted(m) && g !in m.generations && forall x | x in m.refreshes :: m.refreshes[x].generation in m.generations
    ensures HeldLeases(m.leases, g) == {} && RunningRefreshes(m.refreshes, g) == {}
  {
  }

  lemma PublishKeepsShape(m: Manager, r: RuntimeId, t: TaskId, c: TaskId)
    requires Shape(m) && Enabled(m, ReplaceCommit(Commits, r, t, c))
    ensures Shape(Commit(m, Commits, r, t, c))
  {
    NotClosedWhileLocked(m);
    PublishedGenerations(m, r, t, c);
    PublishedTasks(m, r, t, c);
  }

  lemma PublishedTasks(m: Manager, r: RuntimeId, t: TaskId, c: TaskId)
    requires Shape(m) && Enabled(m, ReplaceCommit(Commits, r, t, c))
    requires !m.closing && !m.generations[m.current].retired && m.generations[m.current].cleanupTask.None?
    ensures var m' := Commit(m, Commits, r, t, c);
            && (forall x | x in m'.cleanups :: CleanupOk(m', x, m'.cleanups[x]))
            && (forall x | x in m'.refreshes :: RefreshOk(m', x, m'.refreshes[x]))
            && HolderOk(m') && CloserOk(m')
  {
    var m' := Commit(m, Commits, r, t, c);
    assert !(m.closer.Draining? || m.closer.Gathering? || m.closer.Unpublishing? || m.closer.InLock?);
    assert GenerationOk(m, m.current, m.generations[m.current]);
    forall x | x in m'.cleanups ensures CleanupOk(m', x, m'.cleanups[x]) {
      assert x in m.cleanups ==> CleanupOk(m, x, m.cleanups[x]);
    }
    forall x | x in m'.refreshes ensures RefreshOk(m', x, m'.refreshes[x]) {
      assert x in m.refreshes ==> RefreshOk(m, x, m.refreshes[x]);
    }
  }

  lemma PublishedGenerations(m: Manager, r: RuntimeId, t: TaskId, c: TaskId)
    requires Shape(m) && Enabled(m, ReplaceCommit(Commits, r, t, c))
    requires !m.closing && !m.generations[m.current].retired && m.generations[m.current].cleanupTask.None?
    ensures var m' := Commit(m, Commits, r, t, c);
            && m'.current in m'.generations && m'.generations[m'.current].settings == m'.committed
            && m'.retired <= m'.generations.Keys
            && forall g | g in m'.generations :: GenerationOk(m', g, m'.generations[g])
  {
    var m' := Commit(m, Commits, r, t, c);
    forall g | g in m'.generations ensures GenerationOk(m', g, m'.generations[g]) {
      if g in m.generations {
        assert GenerationOk(m, g, m.generations[g]);
      }
    }
  }

  lemma CancelKeepsHolderShape(m: Manager, a: Action)
    requires Shape(m) && Enabled(m, a) && (a.ReplaceBegin? || a.ListRefreshBegin?)
    ensures Shape(Step(m, a))
  {
    if !m.closing && !m.closed {
      CancelRefreshKeepsShape(m);
      HolderKeepsShape(CancelRefresh(m), Step(m, a).holder);
    }
  }

  lemma BeginCancelKeepsInv(m: Manager, a: Action)
    requires Inv(m) && Enabled(m, a) && (a.ReplaceBegin? || a.ListRefreshBegin? || a.CloseLock?)
    ensures Inv(Step(m, a))
  {
    QuietStepKeepsCount(m, a);
    if a.CloseLock? {
      CancelRefreshKeepsShape(m);
      CloseLockKeepsShape(CancelRefresh(m), AwaitedRefresh(m));
    } else {
      CancelKeepsHolderShape(m, a);
    }
  }

  lemma CloseLockKeepsShape(m: Manager, task: Option<TaskId>)
    requires Shape(m) && m.closer.WantsLock? && m.holder.Free? && m.refreshTask.None?
    requires forall t | t in m.refreshes :: !(m.refreshes[t].phase.Spawned? && !m.refreshes[t].cancelled)
    ensures Shape(m.(closing := true, holder := CloseCancelling(task), closer := InLock))
  {
    assert !m.closed;
  }

  lemma CloseRetireKeepsShape(m: Manager)
    requires Shape(m) && Enabled(m, CloseRetire)
    ensures Shape(RetireCurrent(m))
  {
    assert GenerationOk(m, m.current, m.generations[m.current]);
  }

  lemma CloseTryKeepsShape(m: Manager, g: GenId, t: TaskId)
    requires Shape(m) && Enabled(m, CloseTry(g, t))
    ensures Shape(TryClose(m, g, t))
  {
    CloseGenerationKeepsShape(m, g, t);
    CloserKeepsShape(CloseGeneration(m, g, t), TryClose(m, g, t).closer, m.unpublished);
  }

  lemma CloserKeepsShape(m: Manager, closer: Closer, unpublished: set<RuntimeId>)
    requires Shape(m) && HolderOk(m.(closer := closer, unpublished := unpublished))
    requires CloserOk(m.(closer := closer, unpublished := unpublished))
    ensures Shape(m.(closer := closer, unpublished := unpublished))
  {
  }

  predicate CloserMove(a: Action) {
    a.CloseBegin? || a.CloseSees? || a.CloseGather? || a.CloseResult? || a.CloseGathered? || a.CloseUnpublished?
  }

  lemma CloserMovesOk(m: Manager, a: Action)
    requires HolderOk(m) && CloserOk(m) && Enabled(m, a) && CloserMove(a)
    ensures HolderOk(Step(m, a)) && CloserOk(Step(m, a))
    ensures Step(m, a) == m.(closer := Step(m, a).closer, unpublished := Step(m, a).unpublished)
  {
  }

  lemma CloserMovesKeepInv(m: Manager, a: Action)
    requires Inv(m) && Enabled(m, a) && CloserMove(a)
    ensures Inv(Step(m, a))
  {
    QuietStepKeepsCount(m, a);
    CloserMovesOk(m, a);
    CloserKeepsShape(m, Step(m, a).closer, Step(m, a).unpublished);
  }

  lemma CloseEndKeepsShape(m: Manager, a: Action)
    requires Shape(m) && Enabled(m, a) && (a.CloseEnd? || a.CloseCancelled?)
    ensures Shape(Step(m, a))
  {
  }

  lemma CloseEndKeepsInv(m: Manager, a: Action)
    requires Inv(m) && Enabled(m, a) && (a.CloseEnd? || a.CloseCancelled?)
    ensures Inv(Step(m, a))
  {
    QuietStepKeepsCount(m, a);
    CloseEndKeepsShape(m, a);
  }

  lemma HolderStepsKeepInv(m: Manager, a: Action)
    requires Inv(m) && Enabled(m, a)
    requires a.ReplaceRetry? || a.RetryUnpublished? || a.CandidateCleaned? || a.HolderLeaves?
    ensures Inv(Step(m, a))
  {
    var m' := Step(m, a);
    assert !m.closing;
    HolderMovesKeepsInv(m, m'.holder, m'.unpublished);
  }

  predicate HoldStep(a: Action) {
    a.Acquire? || a.Release? || a.StartRefresh? || a.BeginRefresh? || a.EndRefresh? || a.DropRefresh? || a.BeginCleanup? ||
    a.EndCleanup?
  }

  lemma LeaseStepsKeepInv(m: Manager, a: Action)
    requires Inv(m) && Enabled(m, a) && (a.Acquire? || a.Release?)
    ensures Inv(Step(m, a))
  {
    if a.Acquire? {
      AcquireKeepsInv(m, a.lease);
    } else {
      ReleaseKeepsInv(m, a.lease, a.task);
    }
  }

  lemma RefreshStepsKeepInv(m: Manager, a: Action)
    requires Inv(m) && Enabled(m, a) && Disciplined(m, a)
    requires a.StartRefresh? || a.BeginRefresh? || a.EndRefresh? || a.DropRefresh?
    ensures Inv(Step(m, a))
  {
    if a.StartRefresh? {
      StartRefreshKeepsInv(m, a.task);
    } else if a.BeginRefresh? {
      BeginRefreshKeepsInv(m, a.task);
    } else if a.EndRefresh? {
      EndRefreshKeepsInv(m, a.task, a.cleanup);
    } else {
      DropRefreshKeepsInv(m, a.task);
    }
  }

  lemma HoldStepsKeepInv(m: Manager, a: Action)
    requires Inv(m) && Enabled(m, a) && Disciplined(m, a) && HoldStep(a)
    ensures Inv(Step(m, a))
  {
    if a.Acquire? || a.Release? {
      LeaseStepsKeepInv(m, a);
    } else if a.BeginCleanup? || a.EndCleanup? {
      CleanupStepsKeepInv(m, a);
    } else {
      RefreshStepsKeepInv(m, a);
    }
  }

  predicate LockStep(a: Action) {
    a.ReplaceBegin? || a.ListRefreshBegin? || a.ReplaceCommit? || a.ListRefreshRun? || a.ListRefreshEnd? ||
    a.ReplaceRetry? || a.RetryUnpublished? || a.CandidateCleaned? || a.HolderLeaves?
  }

  lemma LockStepsKeepInv(m: Manager, a: Action)
    requires Inv(m) && Enabled(m, a) && LockStep(a)
    ensures Inv(Step(m, a))
  {
    if a.ReplaceBegin? || a.ListRefreshBegin? {
      BeginCancelKeepsInv(m, a);
    } else if a.ListRefreshRun? || a.ListRefreshEnd? {
      ListRefreshStepsKeepInv(m, a);
    } else if a.ReplaceCommit? {
      CommitKeepsInv(m, a.outcome, a.runtime, a.refresh, a.cleanup);
    } else {
      HolderStepsKeepInv(m, a);
    }
  }

  lemma ListRefreshStepsKeepInv(m: Manager, a: Action)
    requires Inv(m) && Enabled(m, a) && (a.ListRefreshRun? || a.ListRefreshEnd?)
    ensures Inv(Step(m, a))
  {
    if a.ListRefreshRun? {
      ListRefreshRunKeepsInv(m);
    } else {
      ListRefreshEndKeepsInv(m, a.cleanup);
    }
  }

  lemma CloseGenerationsKeepInv(m: Manager, a: Action)
    requires Inv(m) && Enabled(m, a) && (a.CloseRetire? || a.CloseTry?)
    ensures Inv(Step(m, a))
  {
    QuietStepKeepsCount(m, a);
    if a.CloseRetire? {
      CloseRetireKeepsShape(m);
    } else {
      CloseTryKeepsShape(m, a.generation, a.cleanup);
    }
  }

  lemma CloseStepsKeepInv(m: Manager, a: Action)
    requires Inv(m) && Enabled(m, a) && !HoldStep(a) && !LockStep(a)
    ensures Inv(Step(m, a))
  {
    if a.CloseLock? {
      BeginCancelKeepsInv(m, a);
    } else if a.CloseRetire? || a.CloseTry? {
      CloseGenerationsKeepInv(m, a);
    } else if a.CloseEnd? || a.CloseCancelled? {
      CloseEndKeepsInv(m, a);
    } else {
      CloserMovesKeepInv(m, a);
    }
  }

  /** Every step of every interleaving keeps the invariant. */
  lemma StepKeepsInv(m: Manager, a: Action)
    requires Inv(m) && Enabled(m, a) && Disciplined(m, a)
    ensures Inv(Step(m, a))
  {
    if HoldStep(a) {
      HoldStepsKeepInv(m, a);
    } else if LockStep(a) {
      LockStepsKeepInv(m, a);
    } else {
      CloseStepsKeepInv(m, a);
    }
  }

  lemma {:induction false} RunKeepsInv(m: Manager, actions: seq<Action>)
    requires Inv(m) && IsRun(m, actions)
    ensures Inv(After(m, actions))
    decreases |actions|
  {
    if actions != [] {
      StepKeepsInv(m, actions[0]);
      RunKeepsInv(Step(m, actions[0]), actions[1..]);
    }
  }
}
