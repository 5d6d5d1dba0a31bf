/** Why start_model_list_refresh has to stay out of a running replacement. */
module GenerationDiscipline {
  import opened Options
  import opened GenerationModel
  import opened GenerationInvariant

  /** A runtime is being cleaned although its generation is held. */
  ghost predicate CleanedWhileHeld(m: Manager, g: GenId) {
    g in m.generations && m.generations[g].active > 0 &&
    exists t :: t in m.cleanups && m.cleanups[t] == CleanupTask(g, Cleaning)
  }

  /** Some run from here cleans a runtime that is held. */
  ghost predicate Breaks(m: Manager) {
    exists actions, g :: IsRun(m, actions) && CleanedWhileHeld(After(m, actions), g)
  }

  lemma BreaksBefore(m: Manager, a: Action)
    requires Enabled(m, a) && Disciplined(m, a) && Breaks(Step(m, a))
    ensures Breaks(m)
  {
    var m' := Step(m, a);
    var actions, g :| IsRun(m', actions) && CleanedWhileHeld(After(m', actions), g);
    var all := [a] + actions;
    assert all[0] == a && all[1..] == actions;
    assert IsRun(m, all) && After(m, all) == After(m', actions);
  }

  lemma SafeNeverBreaks(m: Manager)
    requires Inv(m)
    ensures !Breaks(m)
  {
    if actions, g :| IsRun(m, actions) && CleanedWhileHeld(After(m, actions), g) {
      RunKeepsInv(m, actions);
    }
  }

  lemma AboveAll(ids: set<nat>) returns (n: nat)
    ensures forall i | i in ids :: i < n
  {
    n := 0;
    var left := ids;
    while left != {}
      invariant forall i | i in ids :: i in left || i < n
      decreases left
    {
      var i :| i in left;
      n, left := if i < n then n else i + 1, left - {i};
    }
  }

  lemma NewTask(m: Manager, other: TaskId) returns (t: TaskId)
    ensures FreshTask(m, t) && t > other
  {
    t := AboveAll(m.refreshes.Keys + m.cleanups.Keys + {other});
    assert t !in m.refreshes.Keys + m.cleanups.Keys;
    assert other in m.refreshes.Keys + m.cleanups.Keys + {other};
  }

  lemma NewRuntime(m: Manager) returns (r: RuntimeId)
    ensures FreshRuntime(m, r)
  {
    var known := set g | g in m.generations :: m.generations[g].runtime;
    r := AboveAll(m.unpublished + known);
    forall g | g in m.generations ensures m.generations[g].runtime != r {
      assert m.generations[g].runtime in known;
    }
  }

  /** The three steps of that run, from the state in which the late refresh has been spawned. */
  lemma LateRefreshOverlaps(m: Manager, r: RuntimeId, late: TaskId, next: TaskId, cleanup: TaskId)
    requires m.current in m.generations && m.nextId !in m.generations && late in m.refreshes
    requires m.refreshes[late] == RefreshTask(m.current, Spawned, false)
    requires m.generations[m.current].active == 0 && m.generations[m.current].cleanupTask.None?
    requires !m.generations[m.current].closed
    requires Enabled(m, ReplaceCommit(Commits, r, next, cleanup)) && late != next
    ensures var m2 := Step(m, ReplaceCommit(Commits, r, next, cleanup));
            && Enabled(m2, BeginCleanup(cleanup)) && Enabled(Step(m2, BeginCleanup(cleanup)), BeginRefresh(late))
            && CleanedWhileHeld(Step(Step(m2, BeginCleanup(cleanup)), BeginRefresh(late)), m.current)
  {
    var m2 := Step(m, ReplaceCommit(Commits, r, next, cleanup));
    assert m2.cleanups[cleanup] == CleanupTask(m.current, Created);
    assert m2.refreshes[late] == m.refreshes[late];
    assert m2.generations[m.current].active == 0 && !m2.generations[m.current].closed;
    var m4 := Step(Step(m2, BeginCleanup(cleanup)), BeginRefresh(late));
    assert cleanup in m4.cleanups && m4.cleanups[cleanup] == CleanupTask(m.current, Cleaning);
  }

  /** Publication with nobody on the current generation: its cleanup starts, and then the late refresh. */
  lemma IdleBreaks(m: Manager, late: TaskId)
    requires Inv(m) && m.holder.Retrying? && m.holder.todo == {} && m.generations[m.current].active == 0
    requires FreshTask(m, late)
    ensures Breaks(SpawnRefresh(m, late))
  {
    var r := NewRuntime(m);
    var next := NewTask(m, late);
    var cleanup := NewTask(m, next);
    var a1, a2, a3 := ReplaceCommit(Commits, r, next, cleanup), BeginCleanup(cleanup), BeginRefresh(late);
    var m1 := SpawnRefresh(m, late);
    NotClosedWhileLocked(m);
    assert m.nextId in m.generations ==> GenerationOk(m, m.nextId, m.generations[m.nextId]);
    LateRefreshOverlaps(m1, r, late, next, cleanup);
    var m2 := Step(m1, a1);
    var m3 := Step(m2, a2);
    var m4 := Step(m3, a3);
    assert IsRun(m4, []) && After(m4, []) == m4;
    BreaksBefore(m3, a3);
    BreaksBefore(m2, a2);
    BreaksBefore(m1, a1);
  }

  lemma CloseCommutes(m: Manager, late: TaskId, g: GenId, c: TaskId)
    requires g in m.generations
    ensures CloseGeneration(SpawnRefresh(m, late), g, c) == SpawnRefresh(CloseGeneration(m, g, c), late)
  {
  }

  /** The late call and the end of a hold do not depend on each other. */
  lemma HoldEndsCommute(m: Manager, late: TaskId, g: GenId, c: TaskId)
    requires g in m.generations
    ensures ReleaseHold(SpawnRefresh(m, late), g, c) == SpawnRefresh(ReleaseHold(m, g, c), late)
  {
    var x := m.generations[g];
    if x.active > 0 {
      var m' := SetGeneration(m, g, x.(active := x.active - 1, drained := x.active == 1));
      CloseCommutes(m', late, g, c);
      assert SpawnRefresh(m', late) ==
             SetGeneration(SpawnRefresh(m, late), g, x.(active := x.active - 1, drained := x.active == 1));
    }
  }

  lemma LeaseEndCommutes(m: Manager, late: TaskId, l: LeaseId, c: TaskId)
    requires l in m.leases && m.leases[l].generation in m.generations
    ensures ReleaseLease(SpawnRefresh(m, late), l, c) == SpawnRefresh(ReleaseLease(m, l, c), late)
  {
    if !m.leases[l].released {
      var m' := m.(leases := m.leases[l := m.leases[l].(released := true)]);
      HoldEndsCommute(m', late, m.leases[l].generation, c);
      assert SpawnRefresh(m, late).(leases := m'.leases) == SpawnRefresh(m', late);
    }
  }

  lemma RefreshEndCommutes(m: Manager, late: TaskId, t: TaskId, c: TaskId)
    requires Enabled(m, EndRefresh(t, c)) && FreshTask(m, late) && c != late
    ensures Enabled(SpawnRefresh(m, late), EndRefresh(t, c))
    ensures var m' := Step(m, EndRefresh(t, c));
            && Step(SpawnRefresh(m, late), EndRefresh(t, c)) == SpawnRefresh(m', late)
            && m'.holder == m.holder && RefreshOver(m', Some(t)) && FreshTask(m', late)
  {
    var m' := m.(refreshes := m.refreshes[t := m.refreshes[t].(phase := Over)]);
    HoldEndsCommute(m', late, m.refreshes[t].generation, c);
    HoldEndTasks(m', m.refreshes[t].generation, c);
    assert SpawnRefresh(m', late).refreshes == SpawnRefresh(m, late).refreshes[t := m.refreshes[t].(phase := Over)];
  }

  lemma HoldEndTasks(m: Manager, g: GenId, c: TaskId)
    requires g in m.generations
    ensures var m' := ReleaseHold(m, g, c);
            m'.refreshes == m.refreshes && m'.holder == m.holder && m'.cleanups.Keys <= m.cleanups.Keys + {c}
  {
  }

  lemma LeaseEnds(m: Manager, late: TaskId, l: LeaseId, c: TaskId)
    requires Inv(m) && l in HeldLeases(m.leases, m.current) && FreshTask(m, late) && FreshTask(m, c) && c != late
    ensures HoldEnded(m, late, Release(l, c))
  {
    var m' := m.(leases := m.leases[l := m.leases[l].(released := true)]);
    LeaseEndCommutes(m, late, l, c);
    ReleaseEffect(m', m.current, c);
    HoldEndTasks(m', m.current, c);
    assert m.generations[m.current].active == Holds(m, m.current) > 0;
    StepKeepsInv(m, Release(l, c));
  }

  lemma RefreshEnds(m: Manager, late: TaskId, t: TaskId, c: TaskId)
    requires Inv(m) && t in RunningRefreshes(m.refreshes, m.current)
    requires FreshTask(m, late) && FreshTask(m, c) && c != late
    ensures HoldEnded(m, late, EndRefresh(t, c))
  {
    RefreshEndCommutes(m, late, t, c);
    ReleaseEffect(m.(refreshes := m.refreshes[t := m.refreshes[t].(phase := Over)]), m.current, c);
    assert m.generations[m.current].active == Holds(m, m.current) > 0;
    EndRefreshKeepsInv(m, t, c);
  }

  /** The step gives back a hold of the current generation, with or without the late refresh around. */
  ghost predicate HoldEnded(m: Manager, late: TaskId, a: Action)
    requires m.current in m.generations
  {
    && Enabled(m, a) && Disciplined(m, a) && Enabled(SpawnRefresh(m, late), a)
    && Step(SpawnRefresh(m, late), a) == SpawnRefresh(Step(m, a), late)
    && Inv(Step(m, a)) && Step(m, a).holder == m.holder && Step(m, a).current == m.current
    && FreshTask(Step(m, a), late)
    && Step(m, a).generations[m.current].active < m.generations[m.current].active
  }

  /** While somebody still holds the current generation, one of the holds can end first. */
  lemma {:induction false} HeldBreaks(m: Manager, late: TaskId)
    requires Inv(m) && m.holder.Retrying? && m.holder.todo == {} && FreshTask(m, late)
    ensures Breaks(SpawnRefresh(m, late))
    decreases m.generations[m.current].active
  {
    if m.generations[m.current].active == 0 {
      IdleBreaks(m, late);
    } else {
      var a := SomeHoldEnds(m, late);
      HeldBreaks(Step(m, a), late);
      BreaksBefore(SpawnRefresh(m, late), a);
    }
  }

  lemma SomeHoldEnds(m: Manager, late: TaskId) returns (a: Action)
    requires Inv(m) && m.holder.Retrying? && m.generations[m.current].active > 0 && FreshTask(m, late)
    ensures HoldEnded(m, late, a)
  {
    var c := NewTask(m, late);
    assert m.generations[m.current].active == Holds(m, m.current);
    if l :| l in HeldLeases(m.leases, m.current) {
      LeaseEnds(m, late, l, c);
      a := Release(l, c);
    } else {
      assert HeldLeases(m.leases, m.current) == {};
      var t :| t in RunningRefreshes(m.refreshes, m.current);
      RefreshEnds(m, late, t, c);
      a := EndRefresh(t, c);
    }
  }

  /** The retries of unpublished cleanups come first. */
  lemma {:induction false} RetryingBreaks(m: Manager, late: TaskId)
    requires Inv(m) && m.holder.Retrying? && FreshTask(m, late)
    ensures Breaks(SpawnRefresh(m, late))
    decreases |m.holder.todo|
  {
    if m.holder.todo == {} {
      HeldBreaks(m, late);
    } else {
      var r :| r in m.holder.todo;
      var a := RetryUnpublished(r, false);
      StepKeepsInv(m, a);
      RetryingBreaks(Step(m, a), late);
      BreaksBefore(SpawnRefresh(m, late), a);
    }
  }

  /** The cancelled refresh is over. */
  lemma CancelledBreaks(m: Manager, late: TaskId)
    requires Inv(m) && m.holder.Cancelling? && RefreshOver(m, m.holder.task) && FreshTask(m, late)
    ensures Breaks(SpawnRefresh(m, late))
  {
    StepKeepsInv(m, ReplaceRetry);
    RetryingBreaks(Step(m, ReplaceRetry), late);
    BreaksBefore(SpawnRefresh(m, late), ReplaceRetry);
  }

  lemma DropCommutes(m: Manager, late: TaskId, t: TaskId)
    requires Enabled(m, DropRefresh(t)) && FreshTask(m, late)
    ensures Enabled(SpawnRefresh(m, late), DropRefresh(t))
    ensures var m' := Step(m, DropRefresh(t));
            && Step(SpawnRefresh(m, late), DropRefresh(t)) == SpawnRefresh(m', late)
            && m'.holder == m.holder && RefreshOver(m', Some(t)) && FreshTask(m', late)
  {
  }

  lemma DroppedBreaks(m: Manager, late: TaskId, t: TaskId)
    requires Inv(m) && m.holder.Cancelling? && m.holder.task == Some(t) && FreshTask(m, late)
    requires t in m.refreshes && m.refreshes[t].phase.Spawned? && m.refreshes[t].cancelled
    ensures Breaks(SpawnRefresh(m, late))
  {
    DropRefreshKeepsInv(m, t);
    DropCommutes(m, late, t);
    CancelledBreaks(Step(m, DropRefresh(t)), late);
    BreaksBefore(SpawnRefresh(m, late), DropRefresh(t));
  }

  lemma RefreshedBreaks(m: Manager, late: TaskId, t: TaskId)
    requires Inv(m) && m.holder.Cancelling? && m.holder.task == Some(t) && FreshTask(m, late)
    requires t in m.refreshes && m.refreshes[t].phase.Refreshing?
    ensures Breaks(SpawnRefresh(m, late))
  {
    var c := NewTask(m, late);
    RefreshEndCommutes(m, late, t, c);
    EndRefreshKeepsInv(m, t, c);
    CancelledBreaks(Step(m, EndRefresh(t, c)), late);
    BreaksBefore(SpawnRefresh(m, late), EndRefresh(t, c));
  }

  lemma CancellingBreaks(m: Manager, late: TaskId)
    requires Inv(m) && m.holder.Cancelling? && FreshTask(m, late)
    ensures Breaks(SpawnRefresh(m, late))
  {
    if RefreshOver(m, m.holder.task) {
      CancelledBreaks(m, late);
    } else {
      var t := m.holder.task.value;
      assert RefreshOk(m, t, m.refreshes[t]);
      if m.refreshes[t].phase.Spawned? {
        DroppedBreaks(m, late, t);
      } else {
        RefreshedBreaks(m, late, t);
      }
    }
  }

  /**
   The discipline on start_model_list_refresh is exactly what lease safety needs: a call that respects it is safe, and
   after any other some disciplined run cleans a runtime that is held.
   */
  lemma DisciplineIsExact(m: Manager, late: TaskId)
    requires Inv(m) && FreshTask(m, late)
    ensures Disciplined(m, StartRefresh(late)) <==> !Breaks(Step(m, StartRefresh(late)))
  {
    if Disciplined(m, StartRefresh(late)) {
      StepKeepsInv(m, StartRefresh(late));
      SafeNeverBreaks(Step(m, StartRefresh(late)));
    } else {
      NotClosedWhileLocked(m);
      if m.holder.Cancelling? {
        CancellingBreaks(m, late);
      } else {
        RetryingBreaks(m, late);
      }
    }
  }

  /** Such states are reachable: the first replacement of a fresh manager gets there. */
  lemma UndisciplinedStateIsReachable(settings: Settings, runtime: RuntimeId, next: Settings)
    ensures var actions := [ReplaceBegin(next), ReplaceRetry];
            && IsRun(Init(settings, runtime), actions)
            && After(Init(settings, runtime), actions).holder == Retrying(next, {})
            && After(Init(settings, runtime), actions).generations == Init(settings, runtime).generations
  {
    var m0 := Init(settings, runtime);
    var a1, a2 := ReplaceBegin(next), ReplaceRetry;
    var m1 := Step(m0, a1);
    var m2 := Step(m1, a2);
    assert [a1, a2][1..] == [a2] && [a2][1..] == [];
    assert IsRun(m2, []) && After(m2, []) == m2;
    assert IsRun(m1, [a2]) && After(m1, [a2]) == m2;
  }
}
