/** When close() succeeds, and that it can. */
module GenerationShutdown {
  import opened Options
  import opened GenerationModel
  import opened GenerationInvariant
  import opened GenerationSafety
  import opened GenerationDiscipline

  // ---------------------------------------------------------------- cleanups, from the events of a run

  /** Task `t` is the cleanup of generation `g`. */
  predicate Cleans(m: Manager, t: TaskId, g: GenId) {
    t in m.cleanups && m.cleanups[t].generation == g
  }

  predicate HasSucceeded(m: Manager, t: TaskId) {
    t in m.cleanups && m.cleanups[t].phase.Succeeded?
  }

  ghost predicate CleanupFollows(m: Manager, a: Action, m': Manager, t: TaskId) {
    && (HasSucceeded(m', t) <==> HasSucceeded(m, t) || a == EndCleanup(t, true))
    && (t in m.cleanups ==> t in m'.cleanups && m'.cleanups[t].generation == m.cleanups[t].generation)
  }

  lemma CreationKeepsCleanups(m: Manager, g: GenId, c: TaskId, t: TaskId)
    requires g in m.generations && c !in m.cleanups
    ensures var m' := CloseGeneration(m, g, c);
            && (HasSucceeded(m', t) <==> HasSucceeded(m, t))
            && (t in m.cleanups ==> t in m'.cleanups && m'.cleanups[t] == m.cleanups[t])
  {
  }

  lemma ReleaseKeepsCleanups(m: Manager, g: GenId, c: TaskId, t: TaskId)
    requires g in m.generations && c !in m.cleanups
    ensures var m' := ReleaseHold(m, g, c);
            && (HasSucceeded(m', t) <==> HasSucceeded(m, t))
            && (t in m.cleanups ==> t in m'.cleanups && m'.cleanups[t] == m.cleanups[t])
  {
    var x := m.generations[g];
    if x.active == 1 {
      CreationKeepsCleanups(SetGeneration(m, g, x.(active := 0, drained := true)), g, c, t);
    }
  }

  lemma CommitKeepsCleanups(m: Manager, a: Action, t: TaskId)
    requires Enabled(m, a) && a.ReplaceCommit?
    ensures CleanupFollows(m, a, Step(m, a), t)
  {
    if a.outcome.Commits? {
      CreationKeepsCleanups(SpawnRefresh(Publish(m, m.holder.settings, a.runtime), a.refresh), m.current, a.cleanup, t);
    }
  }

  lemma StepKeepsCleanups(m: Manager, a: Action, t: TaskId)
    requires Enabled(m, a)
    ensures CleanupFollows(m, a, Step(m, a), t)
  {
    match a {
      case Release(l, c) =>
        if !m.leases[l].released {
          ReleaseKeepsCleanups(m.(leases := m.leases[l := m.leases[l].(released := true)]), m.leases[l].generation, c, t);
        }
      case EndRefresh(r, c) =>
        ReleaseKeepsCleanups(m.(refreshes := m.refreshes[r := m.refreshes[r].(phase := Over)]),
                             m.refreshes[r].generation, c, t);
      case ListRefreshEnd(c) => ReleaseKeepsCleanups(m.(holder := Free), m.holder.generation, c, t);
      case CloseTry(g, c) => CreationKeepsCleanups(m, g, c, t);
      case ReplaceCommit(_, _, _, _) => CommitKeepsCleanups(m, a, t);
      case _ => OthersKeepCleanups(m, a, t);
    }
  }

  lemma OthersKeepCleanups(m: Manager, a: Action, t: TaskId)
    requires Enabled(m, a) && !a.Release? && !a.EndRefresh? && !a.ListRefreshEnd? && !a.CloseTry? && !a.ReplaceCommit?
    ensures CleanupFollows(m, a, Step(m, a), t)
  {
  }

  lemma {:induction false} CleanupsFromEvents(m: Manager, actions: seq<Action>, t: TaskId)
    requires IsRun(m, actions)
    ensures HasSucceeded(After(m, actions), t) <==> HasSucceeded(m, t) || EndCleanup(t, true) in actions
    ensures t in m.cleanups ==>
              t in After(m, actions).cleanups && After(m, actions).cleanups[t].generation == m.cleanups[t].generation
    decreases |actions|
  {
    if actions != [] {
      StepKeepsCleanups(m, actions[0], t);
      CleanupsFromEvents(Step(m, actions[0]), actions[1..], t);
    }
  }

  /** An unpublished runtime has been cleaned up by this step. */
  predicate CleansUnpublished(m: Manager, a: Action, r: RuntimeId)
    requires Enabled(m, a)
  {
    a == RetryUnpublished(r, true) || a == CloseUnpublished(r, true) || (a == CandidateCleaned(true) && m.holder.runtime == r)
  }

  /** A runtime that was never published is remembered exactly from its failed commit until it has been cleaned up. */
  lemma UnpublishedIff(m: Manager, a: Action, r: RuntimeId)
    requires Enabled(m, a)
    ensures r in Step(m, a).unpublished <==>
            || (a.ReplaceCommit? && a.outcome.CommitFails? && a.runtime == r)
            || (r in m.unpublished && !CleansUnpublished(m, a, r))
  {
    if a.Release? || a.EndRefresh? || a.ListRefreshEnd? {
      HoldEndKeepsUnpublished(m, a);
    } else if a.ReplaceCommit? {
      CommitUnpublished(m, a);
    } else {
      OthersUnpublished(m, a, r);
    }
  }

  lemma CommitUnpublished(m: Manager, a: Action)
    requires Enabled(m, a) && a.ReplaceCommit?
    ensures Step(m, a).unpublished == m.unpublished + if a.outcome.CommitFails? then {a.runtime} else {}
  {
    if a.outcome.Commits? {
      CloseTouchesOnlyItsGeneration(SpawnRefresh(Publish(m, m.holder.settings, a.runtime), a.refresh), m.current, a.cleanup);
    }
  }

  lemma OthersUnpublished(m: Manager, a: Action, r: RuntimeId)
    requires Enabled(m, a) && !a.Release? && !a.EndRefresh? && !a.ListRefreshEnd? && !a.ReplaceCommit?
    ensures r in Step(m, a).unpublished <==> r in m.unpublished && !CleansUnpublished(m, a, r)
  {
    if !a.CandidateCleaned? && !a.RetryUnpublished? && !a.CloseUnpublished? {
      QuietUnpublished(m, a);
    }
  }

  lemma QuietUnpublished(m: Manager, a: Action)
    requires Enabled(m, a) && !a.Release? && !a.EndRefresh? && !a.ListRefreshEnd? && !a.ReplaceCommit?
    requires !a.CandidateCleaned? && !a.RetryUnpublished? && !a.CloseUnpublished?
    ensures Step(m, a).unpublished == m.unpublished
  {
    if ClosersOwn(a) {
      CloserKeepsUnpublished(m, a);
    }
  }

  lemma CloserKeepsUnpublished(m: Manager, a: Action)
    requires Enabled(m, a) && ClosersOwn(a) && !a.CloseUnpublished?
    ensures Step(m, a).unpublished == m.unpublished
  {
  }

  lemma HoldEndKeepsUnpublished(m: Manager, a: Action)
    requires Enabled(m, a) && (a.Release? || a.EndRefresh? || a.ListRefreshEnd?)
    ensures Step(m, a).unpublished == m.unpublished
  {
  }

  lemma RetryingStep(m: Manager, a: Action)
    requires Inv(m) && m.holder.Retrying? && Enabled(m, a) && !a.HolderLeaves? && !a.ReplaceCommit?
    ensures Step(m, a).holder.Retrying?
    ensures Step(m, a).holder.todo == m.holder.todo - if a.RetryUnpublished? then {a.runtime} else {}
  {
    if a.Release? || a.EndRefresh? {
      HoldEndKeepsHolder(m, a);
    }
  }

  lemma HoldEndKeepsHolder(m: Manager, a: Action)
    requires Enabled(m, a) && (a.Release? || a.EndRefresh?)
    ensures Step(m, a).holder == m.holder
  {
  }

  lemma {:induction false} EachIsRetried(m: Manager, during: seq<Action>, r: RuntimeId)
    requires Inv(m) && m.holder.Retrying? && IsRun(m, during)
    requires forall a | a in during :: !a.HolderLeaves? && !a.ReplaceCommit?
    ensures After(m, during).holder.Retrying?
    ensures r in m.holder.todo && r !in After(m, during).holder.todo ==>
              RetryUnpublished(r, true) in during || RetryUnpublished(r, false) in during
    decreases |during|
  {
    if during != [] {
      var a := during[0];
      assert a in during;
      RetryingStep(m, a);
      StepKeepsInv(m, a);
      EachIsRetried(Step(m, a), during[1..], r);
    }
  }

  /** A replacement comes to its commit only after it has tried to clean up every runtime that had not been published. */
  lemma ReplaceRetriesUnpublished(settings: Settings, runtime: RuntimeId, before: seq<Action>, during: seq<Action>,
                                  commit: Action, r: RuntimeId)
    requires IsRun(Init(settings, runtime), before) && Enabled(After(Init(settings, runtime), before), ReplaceRetry)
    requires IsRun(Step(After(Init(settings, runtime), before), ReplaceRetry), during)
    requires forall a | a in during :: !a.HolderLeaves? && !a.ReplaceCommit?
    requires commit.ReplaceCommit?
    requires Enabled(After(Step(After(Init(settings, runtime), before), ReplaceRetry), during), commit)
    requires r in After(Init(settings, runtime), before).unpublished
    ensures RetryUnpublished(r, true) in during || RetryUnpublished(r, false) in during
  {
    var m := After(Init(settings, runtime), before);
    InitInv(settings, runtime);
    RunKeepsInv(Init(settings, runtime), before);
    StepKeepsInv(m, ReplaceRetry);
    EachIsRetried(Step(m, ReplaceRetry), during, r);
  }

  /** An explicit refresh holds the current generation while it runs. */
  lemma ListRefreshHolds(settings: Settings, runtime: RuntimeId, actions: seq<Action>, m: Manager)
    requires IsRun(Init(settings, runtime), actions) && m == After(Init(settings, runtime), actions)
    requires Enabled(m, ListRefreshRun)
    ensures Step(m, ListRefreshRun).holder == RefreshRunning(m.current)
    ensures Step(m, ListRefreshRun).generations[m.current].active == m.generations[m.current].active + 1
  {
    InitInv(settings, runtime);
    RunKeepsInv(Init(settings, runtime), actions);
    NotClosedWhileLocked(m);
  }

  // ---------------------------------------------------------------- one close, up to its end

  /** Nothing cleans the generation, and while the manager closes only another close will. */
  predicate Blocked(x: Generation) { !x.closed && x.cleanupTask.None? }

  predicate WaitOk(x: Generation, w: Wait) {
    match w
    case NotStarted => true
    case OnTask(before) => x.failures >= before && (if x.failures > before then Blocked(x) else x.cleanupTask.Some?)
    case Result(ok) => if ok then x.closed else Blocked(x)
  }

  /** What the close in progress has come to; `failed`: it failed to clean up an unpublished runtime. */
  ghost predicate CloseOk(m: Manager, failed: bool) {
    match m.closer
    case Draining(gens, _) => gens <= m.generations.Keys && !failed
    case Gathering(waits) => (forall g | g in waits :: g in m.generations && WaitOk(m.generations[g], waits[g])) && !failed
    case Unpublishing(ok, _) =>
      (ok <==> AllClosed(m) && !failed) && (AllClosed(m) || exists g :: g in m.generations && Blocked(m.generations[g]))
    case NotClosing => true
    case _ => !failed
  }

  function FailedBy(a: Action): bool { a.CloseUnpublished? && !a.ok }

  predicate ClosersOwn(a: Action) {
    a.CloseBegin? || a.CloseLock? || a.CloseRetire? || a.CloseSees? || a.CloseGather? || a.CloseTry? || a.CloseResult? ||
    a.CloseGathered? || a.CloseUnpublished? || a.CloseEnd? || a.CloseCancelled?
  }

  /** What may happen to a generation that a close waits for: holds end, and its cleanup may succeed or fail. */
  predicate Moves(x: Generation, x': Generation) {
    && (x.closed ==> x'.closed) && (Blocked(x) ==> Blocked(x'))
    && x'.failures >= x.failures && (if x'.failures > x.failures then Blocked(x') else x.cleanupTask.Some? ==> x'.cleanupTask.Some?)
  }

  lemma ClosingReleaseMoves(m: Manager, g: GenId, c: TaskId, h: GenId)
    requires m.closing && g in m.generations && h in m.generations
    ensures var m' := ReleaseHold(m, g, c);
            m'.closer == m.closer && m'.generations.Keys == m.generations.Keys && Moves(m.generations[h], m'.generations[h])
  {
  }

  lemma CleanupEndMoves(m: Manager, t: TaskId, ok: bool, h: GenId)
    requires Shape(m) && Enabled(m, EndCleanup(t, ok)) && h in m.generations
    ensures var m' := FinishCleanup(m, t, ok);
            m'.closer == m.closer && m'.generations.Keys == m.generations.Keys && Moves(m.generations[h], m'.generations[h])
  {
    assert CleanupOk(m, t, m.cleanups[t]);
    assert GenerationOk(m, m.cleanups[t].generation, m.generations[m.cleanups[t].generation]);
  }

  lemma BackgroundMoves(m: Manager, a: Action, h: GenId)
    requires Shape(m) && Enabled(m, a) && !ClosersOwn(a) && m.closing && h in m.generations
    ensures var m' := Step(m, a);
            m'.closer == m.closer && m'.generations.Keys == m.generations.Keys && Moves(m.generations[h], m'.generations[h])
  {
    match a {
      case Release(l, c) =>
        if !m.leases[l].released {
          ClosingReleaseMoves(m.(leases := m.leases[l := m.leases[l].(released := true)]), m.leases[l].generation, c, h);
        }
      case EndRefresh(r, c) =>
        ClosingReleaseMoves(m.(refreshes := m.refreshes[r := m.refreshes[r].(phase := Over)]),
                            m.refreshes[r].generation, c, h);
      case EndCleanup(t, ok) => CleanupEndMoves(m, t, ok, h);
      case _ => QuietMoves(m, a, h);
    }
  }

  lemma QuietMoves(m: Manager, a: Action, h: GenId)
    requires Shape(m) && Enabled(m, a) && !ClosersOwn(a) && m.closing && h in m.generations
    requires !a.Release? && !a.EndRefresh? && !a.EndCleanup?
    ensures var m' := Step(m, a);
            m'.closer == m.closer && m'.generations.Keys == m.generations.Keys && Moves(m.generations[h], m'.generations[h])
  {
  }

  lemma MovesKeepCloseOk(m: Manager, m': Manager, failed: bool)
    requires CloseOk(m, failed) && m'.closer == m.closer && m'.generations.Keys == m.generations.Keys
    requires forall g | g in m.generations :: Moves(m.generations[g], m'.generations[g])
    ensures CloseOk(m', failed)
  {
    if m.closer.Unpublishing? {
      if g :| g in m.generations && Blocked(m.generations[g]) {
        assert Blocked(m'.generations[g]) && g in m'.generations;
      } else {
        assert AllClosed(m);
      }
    }
  }

  lemma BackgroundKeepsCloseOk(m: Manager, a: Action, failed: bool)
    requires Shape(m) && Enabled(m, a) && !ClosersOwn(a) && CloseOk(m, failed)
    ensures CloseOk(Step(m, a), failed)
  {
    if m.closing {
      forall g | g in m.generations ensures Moves(m.generations[g], Step(m, a).generations[g]) {
        BackgroundMoves(m, a, g);
      }
      BackgroundMoves(m, a, m.current);
      MovesKeepCloseOk(m, Step(m, a), failed);
    } else {
      CloserStaysOutside(m, a);
    }
  }

  lemma CloserStaysOutside(m: Manager, a: Action)
    requires Enabled(m, a) && !ClosersOwn(a)
    ensures Step(m, a).closer == m.closer
  {
    match a {
      case Release(_, _) => HoldEndKeepsCloser(m, a);
      case EndRefresh(_, _) => HoldEndKeepsCloser(m, a);
      case ListRefreshEnd(_) => HoldEndKeepsCloser(m, a);
      case ReplaceCommit(_, _, _, _) => CommitKeepsCloser(m, a);
      case _ => OthersKeepCloser(m, a);
    }
  }

  lemma HoldEndKeepsCloser(m: Manager, a: Action)
    requires Enabled(m, a) && (a.Release? || a.EndRefresh? || a.ListRefreshEnd?)
    ensures Step(m, a).closer == m.closer
  {
  }

  lemma CommitKeepsCloser(m: Manager, a: Action)
    requires Enabled(m, a) && a.ReplaceCommit?
    ensures Step(m, a).closer == m.closer
  {
    if a.outcome.Commits? {
      CloseTouchesOnlyItsGeneration(SpawnRefresh(Publish(m, m.holder.settings, a.runtime), a.refresh), m.current, a.cleanup);
    }
  }

  lemma OthersKeepCloser(m: Manager, a: Action)
    requires Enabled(m, a) && !ClosersOwn(a) && !a.Release? && !a.EndRefresh? && !a.ListRefreshEnd? && !a.ReplaceCommit?
    ensures Step(m, a).closer == m.closer
  {
  }

  lemma TryKeepsCloseOk(m: Manager, g: GenId, c: TaskId, failed: bool)
    requires Shape(m) && Enabled(m, CloseTry(g, c)) && CloseOk(m, failed)
    ensures CloseOk(Step(m, CloseTry(g, c)), failed)
  {
    assert GenerationOk(m, g, m.generations[g]);
  }

  lemma GatheredKeepsCloseOk(m: Manager, failed: bool)
    requires Shape(m) && Enabled(m, CloseGathered) && CloseOk(m, failed)
    ensures CloseOk(Step(m, CloseGathered), failed)
  {
    var waits := m.closer.waits;
    if g :| g in waits && waits[g] == Result(false) {
      assert g in m.generations && Blocked(m.generations[g]) && waits[g] != Result(true);
    } else {
      forall g | g in waits ensures waits[g] == Result(true) {
        assert waits[g].Result?;
      }
      assert AllClosed(m);
    }
  }

  lemma GatheringKeepsCloseOk(m: Manager, a: Action, failed: bool)
    requires Shape(m) && Enabled(m, a) && (a.CloseTry? || a.CloseGathered? || a.CloseResult?) && CloseOk(m, failed)
    ensures CloseOk(Step(m, a), failed)
  {
    match a {
      case CloseTry(g, c) => TryKeepsCloseOk(m, g, c, failed);
      case CloseGathered => GatheredKeepsCloseOk(m, failed);
      case CloseResult(g) => ResultKeepsCloseOk(m, g, failed);
    }
  }

  lemma OwnStepKeepsCloseOk(m: Manager, a: Action, failed: bool)
    requires Shape(m) && Enabled(m, a) && ClosersOwn(a) && !a.CloseBegin? && CloseOk(m, failed)
    ensures CloseOk(Step(m, a), failed || FailedBy(a))
  {
    if a.CloseTry? || a.CloseGathered? || a.CloseResult? {
      GatheringKeepsCloseOk(m, a, failed);
    } else if a.CloseRetire? {
      RetireKeepsCloseOk(m, failed);
    } else if a.CloseUnpublished? {
      RetriesKeepCloseOk(m, a.runtime, a.ok, failed);
    } else {
      PlainStepKeepsCloseOk(m, a, failed);
    }
  }

  lemma RetriesKeepCloseOk(m: Manager, r: RuntimeId, ok: bool, failed: bool)
    requires Shape(m) && Enabled(m, CloseUnpublished(r, ok)) && CloseOk(m, failed)
    ensures CloseOk(Step(m, CloseUnpublished(r, ok)), failed || !ok)
  {
  }

  lemma RetireKeepsCloseOk(m: Manager, failed: bool)
    requires Shape(m) && Enabled(m, CloseRetire) && CloseOk(m, failed)
    ensures CloseOk(Step(m, CloseRetire), failed)
  {
  }

  lemma ResultKeepsCloseOk(m: Manager, g: GenId, failed: bool)
    requires Shape(m) && Enabled(m, CloseResult(g)) && CloseOk(m, failed)
    ensures CloseOk(Step(m, CloseResult(g)), failed)
  {
  }

  lemma PlainStepKeepsCloseOk(m: Manager, a: Action, failed: bool)
    requires Shape(m) && Enabled(m, a) && CloseOk(m, failed)
    requires a.CloseLock? || a.CloseSees? || a.CloseGather? || a.CloseEnd? || a.CloseCancelled?
    ensures CloseOk(Step(m, a), failed)
  {
  }

  /** The end of a close, from what it has come to. */
  lemma EndDecides(m: Manager, failed: bool)
    requires Inv(m) && CloseOk(m, failed) && Enabled(m, CloseEnd)
    ensures Step(m, CloseEnd).closed <==> AllClosed(m) && !failed
  {
  }

  lemma {:induction false} CloseKeepsOk(m: Manager, actions: seq<Action>, failed: bool)
    requires Inv(m) && CloseOk(m, failed) && IsRun(m, actions) && CloseBegin !in actions
    ensures Inv(After(m, actions))
    ensures CloseOk(After(m, actions), failed || exists a :: a in actions && FailedBy(a))
    decreases |actions|
  {
    if actions != [] {
      var a := actions[0];
      assert a in actions;
      if ClosersOwn(a) {
        OwnStepKeepsCloseOk(m, a, failed);
      } else {
        BackgroundKeepsCloseOk(m, a, failed);
      }
      StepKeepsInv(m, a);
      CloseKeepsOk(Step(m, a), actions[1..], failed || FailedBy(a));
      assert forall b :: b in actions <==> b == a || b in actions[1..];
    }
  }

  /** In the course of a run, a cleanup of generation `g` has succeeded. */
  ghost predicate CleanedUp(m: Manager, actions: seq<Action>, g: GenId) {
    exists t :: EndCleanup(t, true) in actions && Cleans(m, t, g)
  }

  /**
   close() succeeds exactly if by its end every generation there is has been cleaned up, before or during the close, and
   the close itself did not fail to clean up an unpublished runtime.
   */
  lemma CloseSucceedsIff(settings: Settings, runtime: RuntimeId, before: seq<Action>, during: seq<Action>, m: Manager)
    requires IsRun(Init(settings, runtime), before) && Enabled(After(Init(settings, runtime), before), CloseBegin)
    requires !After(Init(settings, runtime), before).closed
    requires IsRun(Step(After(Init(settings, runtime), before), CloseBegin), during) && CloseBegin !in during
    requires m == After(Step(After(Init(settings, runtime), before), CloseBegin), during) && Enabled(m, CloseEnd)
    ensures Step(m, CloseEnd).closed <==>
            && (forall g | g in m.generations :: CleanedUp(m, before + during, g))
            && (forall a | a in during && a.CloseUnpublished? :: a.ok)
  {
    CloseComesTo(settings, runtime, before, during, m);
    EndDecides(m, exists a :: a in during && FailedBy(a));
    AllClosedIffCleanedUp(settings, runtime, before, during, m);
    NobodyFailed(during);
  }

  lemma NobodyFailed(actions: seq<Action>)
    ensures (forall a | a in actions && a.CloseUnpublished? :: a.ok) <==> !exists a :: a in actions && FailedBy(a)
  {
    if a :| a in actions && a.CloseUnpublished? && !a.ok {
      assert FailedBy(a);
    }
  }

  lemma AllClosedIffCleanedUp(settings: Settings, runtime: RuntimeId, before: seq<Action>, during: seq<Action>, m: Manager)
    requires IsRun(Init(settings, runtime), before) && Enabled(After(Init(settings, runtime), before), CloseBegin)
    requires IsRun(Step(After(Init(settings, runtime), before), CloseBegin), during)
    requires m == After(Step(After(Init(settings, runtime), before), CloseBegin), during) && Inv(m)
    ensures AllClosed(m) <==> forall g | g in m.generations :: CleanedUp(m, before + during, g)
  {
    forall g | g in m.generations ensures m.generations[g].closed <==> CleanedUp(m, before + during, g) {
      ClosedIffCleanedUp(settings, runtime, before, during, m, g);
    }
  }

  lemma CloseComesTo(settings: Settings, runtime: RuntimeId, before: seq<Action>, during: seq<Action>, m: Manager)
    requires IsRun(Init(settings, runtime), before) && Enabled(After(Init(settings, runtime), before), CloseBegin)
    requires !After(Init(settings, runtime), before).closed
    requires IsRun(Step(After(Init(settings, runtime), before), CloseBegin), during) && CloseBegin !in during
    requires m == After(Step(After(Init(settings, runtime), before), CloseBegin), during)
    ensures Inv(m) && CloseOk(m, exists a :: a in during && FailedBy(a))
  {
    var m0 := After(Init(settings, runtime), before);
    InitInv(settings, runtime);
    RunKeepsInv(Init(settings, runtime), before);
    StepKeepsInv(m0, CloseBegin);
    CloseKeepsOk(Step(m0, CloseBegin), during, false);
  }

  lemma ClosedIffCleanedUp(settings: Settings, runtime: RuntimeId, before: seq<Action>, during: seq<Action>, m: Manager,
                           g: GenId)
    requires IsRun(Init(settings, runtime), before) && Enabled(After(Init(settings, runtime), before), CloseBegin)
    requires IsRun(Step(After(Init(settings, runtime), before), CloseBegin), during)
    requires m == After(Step(After(Init(settings, runtime), before), CloseBegin), during) && Inv(m) && g in m.generations
    ensures m.generations[g].closed <==> CleanedUp(m, before + during, g)
  {
    var m0 := After(Init(settings, runtime), before);
    assert GenerationOk(m, g, m.generations[g]);
    if m.generations[g].closed {
      var t := m.generations[g].cleanupTask.value;
      CleanupsFromEvents(Init(settings, runtime), before, t);
      CleanupsFromEvents(Step(m0, CloseBegin), during, t);
      assert EndCleanup(t, true) in before + during && Cleans(m, t, g);
    }
    if t :| EndCleanup(t, true) in before + during && Cleans(m, t, g) {
      CleanupsFromEvents(Init(settings, runtime), before, t);
      CleanupsFromEvents(Step(m0, CloseBegin), during, t);
      assert CleanupOk(m, t, m.cleanups[t]);
    }
  }

  // ---------------------------------------------------------------- a close that succeeds

  /** From here some run closes the manager. */
  ghost predicate CanClose(m: Manager) {
    exists actions :: IsRun(m, actions) && After(m, actions).closed
  }

  lemma CanCloseBefore(m: Manager, a: Action)
    requires Enabled(m, a) && Disciplined(m, a) && CanClose(Step(m, a))
    ensures CanClose(m)
  {
    var m' := Step(m, a);
    var actions :| IsRun(m', actions) && After(m', actions).closed;
    var all := [a] + actions;
    assert all[0] == a && all[1..] == actions;
    assert IsRun(m, all) && After(m, all) == After(m', actions);
  }

  lemma ClosedCanClose(m: Manager)
    requires m.closed
    ensures CanClose(m)
  {
    assert IsRun(m, []) && After(m, []) == m;
  }

  lemma {:induction false} UnpublishingCanClose(m: Manager)
    requires Inv(m) && m.closer.Unpublishing? && m.closer.ok
    ensures CanClose(m)
    decreases |m.closer.todo|
  {
    if m.closer.todo == {} {
      ClosedCanClose(Step(m, CloseEnd));
      CanCloseBefore(m, CloseEnd);
    } else {
      var r :| r in m.closer.todo;
      StepKeepsInv(m, CloseUnpublished(r, true));
      UnpublishingCanClose(Step(m, CloseUnpublished(r, true)));
      CanCloseBefore(m, CloseUnpublished(r, true));
    }
  }

  /** Nothing has gone wrong so far in closing the generations. */
  predicate Hopeful(x: Generation, w: Wait) {
    x.active == 0 && WaitOk(x, w) && w != Result(false) && (w.OnTask? ==> x.failures == w.failuresBefore)
  }

  predicate AllHopeful(m: Manager) {
    m.closer.Gathering? &&
    forall g | g in m.closer.waits :: g in m.generations && Hopeful(m.generations[g], m.closer.waits[g])
  }

  ghost predicate GatherHopeful(m: Manager) {
    Inv(m) && AllHopeful(m)
  }

  ghost function Pending(m: Manager): set<GenId>
    requires m.closer.Gathering?
  {
    set g | g in m.closer.waits && !m.closer.waits[g].Result?
  }

  lemma {:induction false} GatheringCanClose(m: Manager)
    requires GatherHopeful(m)
    ensures CanClose(m)
    decreases |Pending(m)|, 4
  {
    if Pending(m) == {} {
      forall g | g in m.closer.waits ensures m.closer.waits[g] == Result(true) {
        assert g !in Pending(m);
      }
      StepKeepsInv(m, CloseGathered);
      UnpublishingCanClose(Step(m, CloseGathered));
      CanCloseBefore(m, CloseGathered);
    } else {
      var g :| g in Pending(m);
      if m.closer.waits[g].OnTask? {
        AwaitedCanClose(m, g);
      } else {
        TriedCanClose(m, g);
      }
    }
  }

  lemma {:induction false} TriedCanClose(m: Manager, g: GenId)
    requires GatherHopeful(m) && g in m.closer.waits && m.closer.waits[g].NotStarted?
    ensures CanClose(m)
    decreases |Pending(m)|, 3
  {
    var c := NewTask(m, 0);
    var m' := Step(m, CloseTry(g, c));
    StepKeepsInv(m, CloseTry(g, c));
    TryStaysHopeful(m, g, c);
    if m'.closer.waits[g].Result? {
      FewerPending(m, m', g);
      GatheringCanClose(m');
    } else {
      SamePending(m, m', g);
      AwaitedCanClose(m', g);
    }
    CanCloseBefore(m, CloseTry(g, c));
  }

  /** A first try finds the generation closed, or a cleanup to wait for. */
  lemma TryStaysHopeful(m: Manager, g: GenId, c: TaskId)
    requires AllHopeful(m) && g in m.closer.waits && m.closer.waits[g].NotStarted?
    ensures var m' := TryClose(m, g, c);
            && AllHopeful(m') && g in m'.closer.waits
            && (m'.closer.waits[g].OnTask? || m'.closer.waits[g] == Result(true))
            && m'.closer.waits == m.closer.waits[g := m'.closer.waits[g]]
  {
    CloseTouchesOnlyItsGeneration(m, g, c);
  }

  lemma SamePending(m: Manager, m': Manager, g: GenId)
    requires m.closer.Gathering? && m'.closer.Gathering? && g in Pending(m) && g in m'.closer.waits
    requires m'.closer.waits == m.closer.waits[g := m'.closer.waits[g]] && !m'.closer.waits[g].Result?
    ensures Pending(m') == Pending(m)
  {
  }

  lemma FewerPending(m: Manager, m': Manager, g: GenId)
    requires m.closer.Gathering? && m'.closer.Gathering? && g in Pending(m) && g in m'.closer.waits
    requires m'.closer.waits == m.closer.waits[g := m'.closer.waits[g]] && m'.closer.waits[g].Result?
    ensures |Pending(m')| < |Pending(m)|
  {
    assert Pending(m') == Pending(m) - {g};
  }

  lemma {:induction false} AwaitedCanClose(m: Manager, g: GenId)
    requires GatherHopeful(m) && g in m.closer.waits && m.closer.waits[g].OnTask?
    ensures CanClose(m)
    decreases |Pending(m)|, 2
  {
    assert GenerationOk(m, g, m.generations[g]);
    if m.generations[g].closed {
      DoneCanClose(m, g);
    } else {
      var t := m.generations[g].cleanupTask.value;
      if m.cleanups[t].phase.Created? {
        var m' := Step(m, BeginCleanup(t));
        StepKeepsInv(m, BeginCleanup(t));
        CleaningCanClose(m', g, t);
        CanCloseBefore(m, BeginCleanup(t));
      } else {
        CleaningCanClose(m, g, t);
      }
    }
  }

  lemma {:induction false} CleaningCanClose(m: Manager, g: GenId, t: TaskId)
    requires GatherHopeful(m) && g in m.closer.waits && m.closer.waits[g].OnTask?
    requires t in m.cleanups && m.cleanups[t] == CleanupTask(g, Cleaning)
    ensures CanClose(m)
    decreases |Pending(m)|, 1
  {
    var m' := Step(m, EndCleanup(t, true));
    StepKeepsInv(m, EndCleanup(t, true));
    assert CleanupOk(m, t, m.cleanups[t]);
    CleanupStaysHopeful(m, g, t);
    DoneCanClose(m', g);
    CanCloseBefore(m, EndCleanup(t, true));
  }

  lemma CleanupStaysHopeful(m: Manager, g: GenId, t: TaskId)
    requires AllHopeful(m) && g in m.closer.waits && m.closer.waits[g].OnTask?
    requires t in m.cleanups && m.cleanups[t] == CleanupTask(g, Cleaning)
    ensures var m' := CleanupSucceeds(m, g, t); AllHopeful(m') && m'.closer == m.closer && m'.generations[g].closed
  {
  }

  lemma {:induction false} DoneCanClose(m: Manager, g: GenId)
    requires GatherHopeful(m) && g in m.closer.waits && m.closer.waits[g].OnTask? && m.generations[g].closed
    ensures CanClose(m)
    decreases |Pending(m)|, 0
  {
    var m' := Step(m, CloseResult(g));
    StepKeepsInv(m, CloseResult(g));
    ResultStaysHopeful(m, g);
    FewerPending(m, m', g);
    GatheringCanClose(m');
    CanCloseBefore(m, CloseResult(g));
  }

  lemma ResultStaysHopeful(m: Manager, g: GenId)
    requires AllHopeful(m) && g in m.closer.waits && m.closer.waits[g].OnTask? && m.generations[g].closed
    ensures Enabled(m, CloseResult(g))
    ensures var m' := Step(m, CloseResult(g));
            AllHopeful(m') && m'.closer.waits == m.closer.waits[g := Result(true)]
  {
  }

  /** Everything close() waits for has drained. */
  lemma {:induction false} DrainedCanClose(m: Manager)
    requires Inv(m) && m.closer.Draining? && m.closer.generations <= m.generations.Keys
    requires forall g | g in m.generations :: m.generations[g].active == 0
    ensures CanClose(m)
    decreases |m.closer.generations - m.closer.seen|
  {
    if m.closer.generations == m.closer.seen {
      StepKeepsInv(m, CloseGather);
      GatherStartsHopeful(m);
      GatheringCanClose(Step(m, CloseGather));
      CanCloseBefore(m, CloseGather);
    } else {
      var g :| g in m.closer.generations && g !in m.closer.seen;
      assert GenerationOk(m, g, m.generations[g]);
      StepKeepsInv(m, CloseSees(g));
      OneLessToSee(m, g);
      DrainedCanClose(Step(m, CloseSees(g)));
      CanCloseBefore(m, CloseSees(g));
    }
  }

  lemma GatherStartsHopeful(m: Manager)
    requires Enabled(m, CloseGather) && m.closer.generations <= m.generations.Keys
    requires forall g | g in m.generations :: m.generations[g].active == 0
    ensures AllHopeful(Step(m, CloseGather))
  {
  }

  lemma OneLessToSee(m: Manager, g: GenId)
    requires Enabled(m, CloseSees(g)) && g !in m.closer.seen
    ensures var m' := Step(m, CloseSees(g));
            && m'.closer.Draining? && m'.closer.generations == m.closer.generations && m'.generations == m.generations
            && |m'.closer.generations - m'.closer.seen| < |m.closer.generations - m.closer.seen|
  {
    var m' := Step(m, CloseSees(g));
    assert m'.closer.generations - m'.closer.seen == (m.closer.generations - m.closer.seen) - {g};
  }

  ghost function Unreleased(m: Manager): set<LeaseId> {
    set l | l in m.leases && !m.leases[l].released
  }

  ghost function Refreshing(m: Manager): set<TaskId> {
    set t | t in m.refreshes && m.refreshes[t].phase.Refreshing?
  }

  lemma NothingHeld(m: Manager)
    requires Inv(m) && m.closing && Unreleased(m) == {} && Refreshing(m) == {}
    ensures forall g | g in m.generations :: m.generations[g].active == 0
  {
    forall g | g in m.generations ensures m.generations[g].active == 0 {
      assert HeldLeases(m.leases, g) == {} by {
        assert forall l | l in HeldLeases(m.leases, g) :: l in Unreleased(m);
      }
      assert RunningRefreshes(m.refreshes, g) == {} by {
        assert forall t | t in RunningRefreshes(m.refreshes, g) :: t in Refreshing(m);
      }
      assert m.generations[g].active == Holds(m, g);
    }
  }

  lemma {:induction false} HeldCanClose(m: Manager)
    requires Inv(m) && m.closer.Draining? && m.closer.generations <= m.generations.Keys
    ensures CanClose(m)
    decreases |Unreleased(m)| + |Refreshing(m)|
  {
    if l :| l in Unreleased(m) {
      var c := NewTask(m, 0);
      LeaseCanEnd(m, l, c);
      HeldCanClose(Step(m, Release(l, c)));
      CanCloseBefore(m, Release(l, c));
    } else if t :| t in Refreshing(m) {
      var c := NewTask(m, 0);
      RefreshCanEnd(m, t, c);
      HeldCanClose(Step(m, EndRefresh(t, c)));
      CanCloseBefore(m, EndRefresh(t, c));
    } else {
      assert Unreleased(m) == {} && Refreshing(m) == {};
      NothingHeld(m);
      DrainedCanClose(m);
    }
  }

  ghost predicate Lighter(m: Manager, m': Manager) {
    && m'.closer == m.closer && m'.generations.Keys == m.generations.Keys
    && |Unreleased(m')| + |Refreshing(m')| < |Unreleased(m)| + |Refreshing(m)|
  }

  lemma LeaseCanEnd(m: Manager, l: LeaseId, c: TaskId)
    requires Inv(m) && l in Unreleased(m) && FreshTask(m, c)
    ensures Enabled(m, Release(l, c)) && Lighter(m, Step(m, Release(l, c))) && Inv(Step(m, Release(l, c)))
  {
    LeaseEndIsLighter(m, l, c);
    HoldEndKeepsCloser(m, Release(l, c));
    StepKeepsInv(m, Release(l, c));
  }

  lemma LeaseEndIsLighter(m: Manager, l: LeaseId, c: TaskId)
    requires l in Unreleased(m) && Enabled(m, Release(l, c))
    ensures Lighter(m, Step(m, Release(l, c)).(closer := m.closer))
  {
    var m' := Step(m, Release(l, c));
    ReleaseEffect(m.(leases := m.leases[l := m.leases[l].(released := true)]), m.leases[l].generation, c);
    assert Unreleased(m') == Unreleased(m) - {l};
    assert Refreshing(m') == Refreshing(m);
  }

  lemma RefreshCanEnd(m: Manager, t: TaskId, c: TaskId)
    requires Inv(m) && t in Refreshing(m) && FreshTask(m, c)
    ensures Enabled(m, EndRefresh(t, c)) && Lighter(m, Step(m, EndRefresh(t, c))) && Inv(Step(m, EndRefresh(t, c)))
  {
    assert RefreshOk(m, t, m.refreshes[t]);
    RefreshEndIsLighter(m, t, c);
    HoldEndKeepsCloser(m, EndRefresh(t, c));
    EndRefreshKeepsInv(m, t, c);
  }

  lemma RefreshEndIsLighter(m: Manager, t: TaskId, c: TaskId)
    requires t in Refreshing(m) && Enabled(m, EndRefresh(t, c))
    ensures Lighter(m, Step(m, EndRefresh(t, c)).(closer := m.closer))
  {
    var m' := Step(m, EndRefresh(t, c));
    ReleaseEffect(m.(refreshes := m.refreshes[t := m.refreshes[t].(phase := Over)]), m.refreshes[t].generation, c);
    assert Unreleased(m') == Unreleased(m);
    assert Refreshing(m') == Refreshing(m) - {t};
  }

  lemma CancelledCanClose(m: Manager)
    requires Inv(m) && m.closer.InLock? && RefreshOver(m, m.holder.task)
    ensures CanClose(m)
  {
    StepKeepsInv(m, CloseRetire);
    HeldCanClose(Step(m, CloseRetire));
    CanCloseBefore(m, CloseRetire);
  }

  lemma LockedCanClose(m: Manager)
    requires Inv(m) && m.closer.InLock?
    ensures CanClose(m)
  {
    if RefreshOver(m, m.holder.task) {
      CancelledCanClose(m);
    } else {
      var t := m.holder.task.value;
      assert RefreshOk(m, t, m.refreshes[t]);
      if m.refreshes[t].phase.Spawned? {
        DropRefreshKeepsInv(m, t);
        CancelledCanClose(Step(m, DropRefresh(t)));
        CanCloseBefore(m, DropRefresh(t));
      } else {
        var c := NewTask(m, 0);
        EndRefreshKeepsInv(m, t, c);
        HoldEndKeepsCloser(m, EndRefresh(t, c));
        HoldEndTasks(m.(refreshes := m.refreshes[t := m.refreshes[t].(phase := Over)]), m.refreshes[t].generation, c);
        CancelledCanClose(Step(m, EndRefresh(t, c)));
        CanCloseBefore(m, EndRefresh(t, c));
      }
    }
  }

  lemma WaitingCanClose(m: Manager)
    requires Inv(m) && m.closer.WantsLock? && m.holder.Free?
    ensures CanClose(m)
  {
    StepKeepsInv(m, CloseLock);
    LockedCanClose(Step(m, CloseLock));
    CanCloseBefore(m, CloseLock);
  }

  lemma BusyCanClose(m: Manager)
    requires Inv(m) && m.closer.WantsLock?
    ensures CanClose(m)
  {
    if m.holder.Free? {
      WaitingCanClose(m);
    } else if m.holder.RefreshRunning? {
      var c := NewTask(m, 0);
      StepKeepsInv(m, ListRefreshEnd(c));
      HoldEndKeepsCloser(m, ListRefreshEnd(c));
      HoldEndTasks(m.(holder := Free), m.holder.generation, c);
      WaitingCanClose(Step(m, ListRefreshEnd(c)));
      CanCloseBefore(m, ListRefreshEnd(c));
    } else {
      StepKeepsInv(m, HolderLeaves);
      WaitingCanClose(Step(m, HolderLeaves));
      CanCloseBefore(m, HolderLeaves);
    }
  }

  lemma OpenCanClose(m: Manager)
    requires Inv(m) && m.closer.NotClosing?
    ensures CanClose(m)
  {
    if m.closed {
      ClosedCanClose(m);
    } else {
      StepKeepsInv(m, CloseBegin);
      BusyCanClose(Step(m, CloseBegin));
      CanCloseBefore(m, CloseBegin);
    }
  }

  /** Shutdown is never out of reach: from every reachable state some run ends in a close that succeeds. */
  lemma ShutdownCanSucceed(settings: Settings, runtime: RuntimeId, actions: seq<Action>)
    requires IsRun(Init(settings, runtime), actions)
    ensures CanClose(After(Init(settings, runtime), actions))
  {
    var m := After(Init(settings, runtime), actions);
    InitInv(settings, runtime);
    RunKeepsInv(Init(settings, runtime), actions);
    if m.closer.NotClosing? {
      OpenCanClose(m);
    } else {
      StepKeepsInv(m, CloseCancelled);
      OpenCanClose(Step(m, CloseCancelled));
      CanCloseBefore(m, CloseCancelled);
    }
  }
}
