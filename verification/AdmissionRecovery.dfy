/** Recoveries that end for everybody at once, and the one way in which a recovery never ends. */
module AdmissionRecovery {
  import opened Options
  import opened AdmissionModel
  import opened AdmissionInvariant
  import opened AdmissionSafety

  // ---------------------------------------------------------------- who waits, and who leads

  /** Whoever is suspended in the wait for an episode is registered with it, or has failed with it. */
  ghost predicate WaitOk(s: System, e: Id, x: Execution) {
    x.pc.Waiting? ==>
      && x.pc.episode < s.nextGeneration
      && (s.episode.Some? && s.episode.value.generation == x.pc.episode ==>
            if s.episode.value.terminalUntil.Some? then x.state.Failed? else e in s.episode.value.waiters)
  }

  ghost predicate WaitsOk(s: System) {
    forall e | e in s.executions :: WaitOk(s, e, s.executions[e])
  }

  /** A leader whose probe is not out sleeps, gives up the lead, or has used some but not all of its attempts. */
  ghost predicate LeadOk(s: System) {
    s.episode.Some? && s.episode.value.leader.Some? && !s.episode.value.probeActive &&
    s.episode.value.leader.value in s.executions ==>
      var x := s.executions[s.episode.value.leader.value];
      && (x.pc.Idle? || x.pc.AtLock? || x.pc.Sleeping? || x.pc.DroppingLead?)
      && (x.pc.AtLock? ==> x.state.Active?)
      && (x.pc.Idle? || x.pc.AtLock? ==> 1 <= x.started < s.config.maxAttempts)
  }

  lemma WaitsOkFail(s: System, ev: Event)
    requires Inv(s) && WaitsOk(s) && Enabled(s, ev) && ev.action.Fail?
    ensures WaitsOk(Step(s, ev))
  {
    assert ProbeOk(s, ev.who, s.executions[ev.who]);
  }

  lemma WaitsOkGate(s: System, e: Id, now: real)
    requires Inv(s) && WaitsOk(s) && e in s.executions && s.executions[e].pc.AtLock?
    ensures WaitsOk(Gate(s, e, now))
  {
  }

  lemma WaitsOkCorrect(s: System, e: Id, error: Error, now: real)
    requires Inv(s) && WaitsOk(s) && e in s.executions && s.executions[e].pc.Idle? && s.executions[e].attempt.Some?
    ensures WaitsOk(CorrectAttempt(s, e, error, now))
  {
  }

  lemma WaitsOkCancel(s: System, e: Id)
    requires Inv(s) && WaitsOk(s) && e in s.executions && Cancellable(s.executions[e].pc)
    ensures WaitsOk(CancelCall(s, e))
  {
  }

  lemma WaitsOkStep(s: System, ev: Event)
    requires Inv(s) && WaitsOk(s) && Enabled(s, ev)
    ensures WaitsOk(Step(s, ev))
  {
    match ev.action {
      case Fail(_, _, _, _, _) => WaitsOkFail(s, ev);
      case EnterGate => WaitsOkGate(s, ev.who, ev.at);
      case Correct(error) => WaitsOkCorrect(s, ev.who, error, ev.at);
      case Cancel => WaitsOkCancel(s, ev.who);
      case _ => WaitsOkOther(s, ev);
    }
  }

  /** The other regions neither open an episode nor register anybody with one. */
  lemma RegisterStays(s: System, ev: Event)
    requires Enabled(s, ev)
    requires !ev.action.Fail? && !ev.action.EnterGate? && !ev.action.Correct? && !ev.action.Cancel?
    ensures var s' := Step(s, ev);
            && s'.nextGeneration == s.nextGeneration
            && (s'.episode.Some? ==> s.episode.Some? && s'.episode.value.generation == s.episode.value.generation &&
                                     s'.episode.value.waiters == s.episode.value.waiters &&
                                     s'.episode.value.terminalUntil == s.episode.value.terminalUntil)
  {
  }

  lemma WaitsOkOther(s: System, ev: Event)
    requires Inv(s) && WaitsOk(s) && Enabled(s, ev)
    requires !ev.action.Fail? && !ev.action.EnterGate? && !ev.action.Correct? && !ev.action.Cancel?
    ensures WaitsOk(Step(s, ev))
  {
    RegisterStays(s, ev);
    var s' := Step(s, ev);
    forall i | i in s'.executions ensures WaitOk(s', i, s'.executions[i]) {
      if i == ev.who && s'.executions[i].pc.Waiting? {
        NobodyElseWaits(s, ev);
      }
    }
  }

  lemma NobodyElseWaits(s: System, ev: Event)
    requires Enabled(s, ev) && !ev.action.EnterGate? && !ev.action.Fail? && Step(s, ev).executions[ev.who].pc.Waiting?
    ensures ev.who in s.executions && Step(s, ev).executions[ev.who].pc == s.executions[ev.who].pc
    ensures Step(s, ev).executions[ev.who].state == s.executions[ev.who].state
  {
  }

  lemma LeadOkRetry(s: System, ev: Event)
    requires Inv(s) && LeadOk(s) && Enabled(s, ev) && ev.action.Fail? && ev.action.retryable
    requires Unresolved(s.executions[ev.who]) && CanAttempt(s.config, s.executions[ev.who])
    ensures LeadOk(Step(s, ev))
  {
  }

  lemma LeadOkFail(s: System, ev: Event)
    requires Inv(s) && LeadOk(s) && Enabled(s, ev) && ev.action.Fail?
    ensures LeadOk(Step(s, ev))
  {
    assert ProbeOk(s, ev.who, s.executions[ev.who]);
    if Unresolved(s.executions[ev.who]) && ev.action.retryable && CanAttempt(s.config, s.executions[ev.who]) {
      LeadOkRetry(s, ev);
    }
  }

  lemma LeadOkGate(s: System, e: Id, now: real)
    requires Inv(s) && LeadOk(s) && e in s.executions && s.executions[e].pc.AtLock?
    ensures LeadOk(Gate(s, e, now))
  {
  }

  lemma LeadOkCorrect(s: System, e: Id, error: Error, now: real)
    requires Inv(s) && LeadOk(s) && e in s.executions && s.executions[e].pc.Idle? && s.executions[e].attempt.Some?
    ensures LeadOk(CorrectAttempt(s, e, error, now))
  {
  }

  /** The other regions leave it to whoever leads already, unless nobody does. */
  lemma LeadStays(s: System, ev: Event)
    requires Inv(s) && Enabled(s, ev)
    requires !ev.action.Fail? && !ev.action.EnterGate? && !ev.action.Correct?
    ensures var s' := Step(s, ev);
            s'.episode.Some? && s'.episode.value.leader.Some? && !s'.episode.value.probeActive ==>
              s.episode.Some? && s'.episode.value.leader == s.episode.value.leader && !s.episode.value.probeActive
  {
  }

  lemma LeadOkOther(s: System, ev: Event)
    requires Inv(s) && LeadOk(s) && Enabled(s, ev)
    requires !ev.action.Fail? && !ev.action.EnterGate? && !ev.action.Correct?
    ensures LeadOk(Step(s, ev))
  {
    LeadStays(s, ev);
    if !ev.action.Start? {
      assert ProbeOk(s, ev.who, s.executions[ev.who]) && SleeperOk(s, ev.who, s.executions[ev.who].pc);
    }
  }

  lemma LeadOkStep(s: System, ev: Event)
    requires Inv(s) && LeadOk(s) && Enabled(s, ev)
    ensures LeadOk(Step(s, ev))
  {
    if ev.action.Fail? {
      LeadOkFail(s, ev);
    } else if ev.action.EnterGate? {
      LeadOkGate(s, ev.who, ev.at);
    } else if ev.action.Correct? {
      LeadOkCorrect(s, ev.who, ev.action.error, ev.at);
    } else {
      LeadOkOther(s, ev);
    }
  }

  ghost predicate Recovers(s: System) {
    Inv(s) && WaitsOk(s) && LeadOk(s)
  }

  lemma {:induction false} RunRecovers(s: System, evs: seq<Event>)
    requires Recovers(s) && IsRun(s, evs)
    ensures Recovers(After(s, evs))
    decreases |evs|
  {
    if evs != [] {
      StepKeepsInv(s, evs[0]);
      WaitsOkStep(s, evs[0]);
      LeadOkStep(s, evs[0]);
      RunRecovers(Step(s, evs[0]), evs[1..]);
    }
  }

  lemma ReachableRecovers(c: Config, evs: seq<Event>)
    requires ValidConfig(c) && IsRun(Init(c), evs)
    ensures Recovers(After(Init(c), evs))
  {
    InitInv(c);
    RunRecovers(Init(c), evs);
  }

  // ---------------------------------------------------------------- shared exhaustion

  /** `e` is suspended in the wait for the current episode. */
  predicate WaitsForRecovery(s: System, e: Id) {
    e in s.executions && s.executions[e].pc.Waiting? && s.episode.Some? &&
    s.episode.value.generation == s.executions[e].pc.episode
  }

  /** Whoever waits for the current episode is registered with it while it is open, and has failed once it is terminal. */
  lemma WaitingIsRegistered(c: Config, evs: seq<Event>, s: System, e: Id)
    requires ValidConfig(c) && IsRun(Init(c), evs) && s == After(Init(c), evs) && WaitsForRecovery(s, e)
    ensures if s.episode.value.terminalUntil.Some? then s.executions[e].state.Failed? else e in s.episode.value.waiters
  {
    ReachableRecovers(c, evs);
    assert WaitOk(s, e, s.executions[e]);
  }

  /** A retryable failure that spends the budget, outside any recovery or as its probe. */
  predicate Exhausts(s: System, ev: Event) {
    && Enabled(s, ev) && ev.action.Fail? && ev.action.retryable && Unresolved(s.executions[ev.who])
    && !CanAttempt(s.config, s.executions[ev.who])
    && (s.episode.None? || s.executions[ev.who].attempt.value.permit.Probe?)
  }

  /** Exhaustion closes the provider to everybody for the whole delay, and touches nobody it does not concern. */
  lemma ExhaustionTurnsTerminal(c: Config, evs: seq<Event>, s: System, ev: Event)
    requires ValidConfig(c) && IsRun(Init(c), evs) && s == After(Init(c), evs) && Exhausts(s, ev)
    ensures var s', delay := Step(s, ev),
                             RetryDelay(s.config, s.executions[ev.who].started, ev.action.draw, ev.action.retryAfter);
            && ClosedUntil(s', if s.episode.Some? then s.episode.value.generation else s.nextGeneration,
                           ev.action.later + delay)
            && s'.episode.value.terminalUntil.Some? && s'.episode.value.lastError == ev.action.error
            && !s'.executions[ev.who].state.Active?
            && (forall i | i in s.executions && i != ev.who && (s.episode.Some? ==> i !in s.episode.value.waiters) ::
                  s'.executions[i] == s.executions[i])
  {
    InitInv(c);
    RunKeepsInv(Init(c), evs);
    assert ProbeOk(s, ev.who, s.executions[ev.who]);
  }

  lemma RegisteredFail(s: System, ev: Event, e: Id)
    requires Inv(s) && Exhausts(s, ev) && s.episode.Some? && e in s.episode.value.waiters
    ensures var x' := Step(s, ev).executions[e];
            if s.executions[e].state.Active? then x'.state.Failed? && x'.lastFailure == Some(ev.action.error)
            else SameOutcome(s.executions[e], x')
    ensures Step(s, ev).executions[e].started == s.executions[e].started
  {
    assert ProbeOk(s, ev.who, s.executions[ev.who]);
  }

  /**
   Whoever waits when the probe has spent its budget, or is back from a failed attempt of its own, fails with the
   probe's error, and in no later run does it claim another attempt.
   */
  lemma ExhaustionIsShared(c: Config, evs: seq<Event>, s: System, ev: Event, more: seq<Event>, e: Id)
    requires ValidConfig(c) && IsRun(Init(c), evs) && s == After(Init(c), evs)
    requires Exhausts(s, ev) && s.episode.Some? && (WaitsForRecovery(s, e) || e in s.episode.value.waiters)
    requires IsRun(Step(s, ev), more)
    ensures e in s.executions && e in After(Step(s, ev), more).executions
    ensures var x, x' := s.executions[e], After(Step(s, ev), more).executions[e];
            && x'.started == x.started
            && (WaitsForRecovery(s, e) ==> x'.state.Failed?)
            && (if x.state.Active? then x'.state.Failed? && x'.lastFailure == Some(ev.action.error) else SameOutcome(x, x'))
  {
    ReachableRecovers(c, evs);
    assert WaitsForRecovery(s, e) ==> WaitOk(s, e, s.executions[e]);
    assert ProbeOk(s, ev.who, s.executions[ev.who]);
    RegisteredFail(s, ev, e);
    FinishedForever(Step(s, ev), more, e);
  }

  // ---------------------------------------------------------------- when recovery goes on

  /** The leader has finished between two attempts: nothing will make it come back for its probe. */
  ghost predicate Stuck(s: System) {
    && s.episode.Some? && s.episode.value.terminalUntil.None? && !s.episode.value.probeActive
    && s.episode.value.leader.Some? && s.episode.value.leader.value in s.executions
    && var x := s.executions[s.episode.value.leader.value]; !x.state.Active? && x.pc.Idle?
  }

  lemma StuckFail(s: System, ev: Event)
    requires Inv(s) && Enabled(s, ev) && Stuck(s) && ev.action.Fail?
    ensures Stuck(Step(s, ev))
  {
    assert ProbeOk(s, ev.who, s.executions[ev.who]);
  }

  lemma StuckStep(s: System, ev: Event)
    requires Inv(s) && Enabled(s, ev) && Stuck(s)
    ensures Stuck(Step(s, ev))
    ensures forall i :: Started(Step(s, ev), i) == Started(s, i)
  {
    if !ev.action.Start? {
      assert SleeperOk(s, ev.who, s.executions[ev.who].pc) && ProbeOk(s, ev.who, s.executions[ev.who]);
      assert !HoldsProbe(s.executions[ev.who]);
    }
    if ev.action.Fail? {
      StuckFail(s, ev);
    } else if ev.action.Resume? {
      assert !IsCurrent(s, ev.who, s.executions[ev.who].pc.permit);
    }
    OnlyResumeClaims(s, ev);
  }

  /** Once stuck, recovery stays stuck, and nobody claims an attempt any more. */
  lemma {:induction false} FinishedLeaderBlocksEveryone(s: System, evs: seq<Event>)
    requires Inv(s) && IsRun(s, evs) && Stuck(s)
    ensures Stuck(After(s, evs))
    ensures forall i :: Started(After(s, evs), i) == Started(s, i)
    decreases |evs|
  {
    if evs != [] {
      StuckStep(s, evs[0]);
      StepKeepsInv(s, evs[0]);
      FinishedLeaderBlocksEveryone(Step(s, evs[0]), evs[1..]);
    }
  }

  lemma FailDoesNotGetStuck(s: System, ev: Event)
    requires Recovers(s) && Enabled(s, ev) && !Stuck(s) && ev.action.Fail?
    ensures !Stuck(Step(s, ev))
  {
    assert ProbeOk(s, ev.who, s.executions[ev.who]);
  }

  lemma GateDoesNotGetStuck(s: System, e: Id, now: real)
    requires Recovers(s) && e in s.executions && s.executions[e].pc.AtLock? && !Stuck(s)
    ensures !Stuck(Gate(s, e, now))
  {
  }

  lemma CorrectDoesNotGetStuck(s: System, e: Id, error: Error, now: real)
    requires Recovers(s) && e in s.executions && s.executions[e].pc.Idle? && s.executions[e].attempt.Some? && !Stuck(s)
    ensures !Stuck(CorrectAttempt(s, e, error, now))
  {
  }

  lemma OthersDoNotGetStuck(s: System, ev: Event)
    requires Recovers(s) && Enabled(s, ev) && !Stuck(s)
    requires !ev.action.Fail? && !ev.action.EnterGate? && !ev.action.Correct? && !ev.action.Finish?
    ensures !Stuck(Step(s, ev))
  {
    LeadStays(s, ev);
    if !ev.action.Start? {
      assert ProbeOk(s, ev.who, s.executions[ev.who]) && SleeperOk(s, ev.who, s.executions[ev.who].pc);
    }
  }

  /** That happens only when the owner of the leader marks it finished while no probe is out. */
  lemma OnlyFinishingGetsStuck(c: Config, evs: seq<Event>, s: System, ev: Event)
    requires ValidConfig(c) && IsRun(Init(c), evs) && s == After(Init(c), evs) && Enabled(s, ev) && !Stuck(s)
    ensures Stuck(Step(s, ev)) <==>
            && ev.action.Finish? && !ev.action.outcome.Active?
            && s.episode.Some? && s.episode.value.leader == Some(ev.who) && !s.episode.value.probeActive
  {
    ReachableRecovers(c, evs);
    match ev.action {
      case Fail(_, _, _, _, _) => FailDoesNotGetStuck(s, ev);
      case EnterGate => GateDoesNotGetStuck(s, ev.who, ev.at);
      case Correct(error) => CorrectDoesNotGetStuck(s, ev.who, error, ev.at);
      case Finish(_, _) =>
      case _ => OthersDoNotGetStuck(s, ev);
    }
  }

  /** From here some run claims an attempt for somebody. */
  ghost predicate GoesOn(s: System) {
    exists evs, i :: IsRun(s, evs) && Started(After(s, evs), i) > Started(s, i)
  }

  lemma GoesOnBefore(s: System, ev: Event)
    requires Inv(s) && Enabled(s, ev) && GoesOn(Step(s, ev))
    ensures GoesOn(s)
  {
    var s' := Step(s, ev);
    var evs, i :| IsRun(s', evs) && Started(After(s', evs), i) > Started(s', i);
    OrdinalStep(s, ev, i);
    var all := [ev] + evs;
    assert all[0] == ev && all[1..] == evs;
    assert IsRun(s, all) && Started(After(s, all), i) > Started(s, i);
  }

  /** `e` has been admitted and needs a slot. */
  ghost predicate NeedsSlot(s: System, e: Id) {
    && Inv(s) && e in s.executions && s.executions[e].pc.Queued? && s.executions[e].state.Active?
    && IsCurrent(s, e, s.executions[e].pc.permit)
  }

  lemma GrantedGoesOn(s: System, e: Id)
    requires Inv(s) && e in s.executions && s.executions[e].pc.Granted? && s.executions[e].state.Active?
    requires IsCurrent(s, e, s.executions[e].pc.permit)
    ensures GoesOn(s)
  {
    var ev := Event(e, Resume, s.clock);
    assert Started(Step(s, ev), e) > Started(s, e);
    assert IsRun(s, [ev]) && After(s, [ev]) == Step(s, ev);
  }

  lemma FreeSlotGoesOn(s: System, e: Id)
    requires NeedsSlot(s, e) && s.free > 0
    ensures GoesOn(s)
  {
    var ev := Event(e, Grant, s.clock);
    StepKeepsInv(s, ev);
    GrantedGoesOn(Step(s, ev), e);
    GoesOnBefore(s, ev);
  }

  lemma ClosingFreesSlot(s: System, e: Id, o: Id)
    requires NeedsSlot(s, e) && o in s.executions && o != e && s.executions[o].pc.Closing?
    ensures GoesOn(s)
  {
    var ev := Event(o, FinishClose, s.clock);
    StepKeepsInv(s, ev);
    FreeSlotGoesOn(Step(s, ev), e);
    GoesOnBefore(s, ev);
  }

  lemma OpenAttemptFreesSlot(s: System, e: Id, o: Id)
    requires NeedsSlot(s, e) && o in s.executions && o != e && s.executions[o].pc.Idle? && s.executions[o].attempt.Some?
    ensures GoesOn(s)
  {
    var ev := Event(o, Close, s.clock);
    StepKeepsInv(s, ev);
    if s.executions[o].attempt.value.resolved {
      FreeSlotGoesOn(Step(s, ev), e);
    } else {
      ClosingFreesSlot(Step(s, ev), e, o);
    }
    GoesOnBefore(s, ev);
  }

  lemma GrantFreesSlot(s: System, e: Id, o: Id)
    requires NeedsSlot(s, e) && o in s.executions && o != e && s.executions[o].pc.Granted?
    ensures GoesOn(s)
  {
    if s.executions[o].state.Active? && IsCurrent(s, o, s.executions[o].pc.permit) {
      GrantedGoesOn(s, o);
    } else {
      var ev := Event(o, Resume, s.clock);
      StepKeepsInv(s, ev);
      FreeSlotGoesOn(Step(s, ev), e);
      GoesOnBefore(s, ev);
    }
  }

  /** Whoever needs a slot can get one: some holder of a slot can give it back. */
  lemma NeedsSlotGoesOn(s: System, e: Id)
    requires NeedsSlot(s, e)
    ensures GoesOn(s)
  {
    if s.free > 0 {
      FreeSlotGoesOn(s, e);
    } else {
      assert Occupiers(s) != {};
      var o :| o in Occupiers(s);
      assert ExecutionOk(s.config, s.executions[o]);
      if s.executions[o].pc.Granted? {
        GrantFreesSlot(s, e, o);
      } else if s.executions[o].pc.Idle? {
        OpenAttemptFreesSlot(s, e, o);
      } else {
        ClosingFreesSlot(s, e, o);
      }
    }
  }

  lemma AdmittingGoesOn(s: System, e: Id)
    requires Inv(s) && e in s.executions && s.executions[e].pc.Admitting? && s.executions[e].state.Active?
    requires IsCurrent(s, e, s.executions[e].pc.permit)
    ensures GoesOn(s)
  {
    var ev := Event(e, Admit, s.clock);
    StepKeepsInv(s, ev);
    NeedsSlotGoesOn(Step(s, ev), e);
    GoesOnBefore(s, ev);
  }

  /** No probe is out, and nobody but `e`, if anybody, leads. */
  ghost predicate LeadIsFor(s: System, e: Id) {
    s.episode.Some? ==> !s.episode.value.probeActive && (s.episode.value.leader.None? || s.episode.value.leader == Some(e))
  }

  /** The moment from which the gate lets its leader through. */
  function Due(s: System): real {
    if s.episode.None? then s.clock
    else if s.episode.value.terminalUntil.Some? then Max(s.clock, s.episode.value.terminalUntil.value)
    else Max(s.clock, s.episode.value.readyAt)
  }

  lemma AtLockGoesOn(s: System, e: Id)
    requires Inv(s) && e in s.executions && s.executions[e].pc.AtLock? && s.executions[e].state.Active? && LeadIsFor(s, e)
    ensures GoesOn(s)
  {
    var ev := Event(e, EnterGate, Due(s));
    StepKeepsInv(s, ev);
    AdmittingGoesOn(Step(s, ev), e);
    GoesOnBefore(s, ev);
  }

  lemma OpenGoesOn(s: System, e: Id)
    requires Inv(s) && e in s.executions && s.executions[e].pc.Idle? && LeadIsFor(s, e)
    requires CanAttempt(s.config, s.executions[e]) && s.executions[e].attempt.None?
    ensures GoesOn(s)
  {
    var ev := Event(e, Open, s.clock);
    StepKeepsInv(s, ev);
    AtLockGoesOn(Step(s, ev), e);
    GoesOnBefore(s, ev);
  }

  lemma SomeNewId(m: map<Id, Execution>) returns (e: Id)
    ensures e !in m
  {
    var ids := m.Keys;
    e := 0;
    while ids != {}
      invariant forall i | i in m :: i in ids || i < e
      decreases ids
    {
      var i :| i in ids;
      e, ids := if i < e then e else i + 1, ids - {i};
    }
  }

  /** With nobody leading, a newcomer can take the lead. */
  lemma VacantLeadGoesOn(s: System)
    requires Inv(s) && (s.episode.Some? ==> s.episode.value.leader.None?)
    ensures GoesOn(s)
  {
    var e := SomeNewId(s.executions);
    var ev := Event(e, Start, s.clock);
    StepKeepsInv(s, ev);
    OpenGoesOn(Step(s, ev), e);
    GoesOnBefore(s, ev);
  }

  lemma IdleLeaderGoesOn(s: System, e: Id)
    requires Recovers(s) && s.episode.Some? && s.episode.value.leader == Some(e) && !s.episode.value.probeActive
    requires s.episode.value.terminalUntil.None? && s.executions[e].pc.Idle? && s.executions[e].state.Active?
    ensures GoesOn(s)
  {
    if s.executions[e].attempt.None? {
      OpenGoesOn(s, e);
    } else {
      var ev := Event(e, Close, s.clock);
      assert ProbeOk(s, e, s.executions[e]);
      StepKeepsInv(s, ev);
      OpenGoesOn(Step(s, ev), e);
      GoesOnBefore(s, ev);
    }
  }

  lemma QuitterGoesOn(s: System, e: Id)
    requires Inv(s) && e in s.executions && s.executions[e].pc.DroppingLead?
    ensures GoesOn(s)
  {
    var ev := Event(e, DropLead, s.clock);
    assert SleeperOk(s, e, s.executions[e].pc);
    StepKeepsInv(s, ev);
    VacantLeadGoesOn(Step(s, ev));
    GoesOnBefore(s, ev);
  }

  lemma SleeperGoesOn(s: System, e: Id)
    requires Inv(s) && e in s.executions && s.executions[e].pc.Sleeping?
    ensures GoesOn(s)
  {
    var ev := Event(e, Cancel, s.clock);
    StepKeepsInv(s, ev);
    QuitterGoesOn(Step(s, ev), e);
    GoesOnBefore(s, ev);
  }

  lemma OrphanGoesOn(s: System, e: Id, g: nat)
    requires Inv(s) && e in s.executions && g in s.executions[e].orphans
    ensures GoesOn(s)
  {
    var ev := Event(e, RunOrphan(g), s.clock);
    assert ProbeOk(s, e, s.executions[e]);
    StepKeepsInv(s, ev);
    VacantLeadGoesOn(Step(s, ev));
    GoesOnBefore(s, ev);
  }

  lemma ProbingGoesOn(s: System, e: Id)
    requires Inv(s) && e in s.executions && AttemptProbe(s.executions[e]).Some?
    ensures GoesOn(s)
  {
    var ev := Event(e, Accept, s.clock);
    assert ProbeOk(s, e, s.executions[e]);
    StepKeepsInv(s, ev);
    VacantLeadGoesOn(Step(s, ev));
    GoesOnBefore(s, ev);
  }

  lemma GivingUpGoesOn(s: System, e: Id)
    requires Inv(s) && e in s.executions && CallProbe(s.executions[e]).Some? && s.executions[e].pc.GivingUp?
    ensures GoesOn(s)
  {
    var ev := Event(e, GiveUp, s.clock);
    assert ProbeOk(s, e, s.executions[e]);
    StepKeepsInv(s, ev);
    VacantLeadGoesOn(Step(s, ev));
    GoesOnBefore(s, ev);
  }

  lemma PermitGoesOn(s: System, e: Id)
    requires Inv(s) && e in s.executions && CallProbe(s.executions[e]).Some?
    ensures GoesOn(s)
  {
    if s.executions[e].pc.GivingUp? {
      GivingUpGoesOn(s, e);
    } else {
      var ev := Event(e, Cancel, s.clock);
      StepKeepsInv(s, ev);
      GivingUpGoesOn(Step(s, ev), e);
      GoesOnBefore(s, ev);
    }
  }

  /**
   In every reachable state some run goes on to claim another attempt, unless the leader has finished between two
   attempts; then no run does.
   */
  lemma GoesOnUnlessStuck(c: Config, evs: seq<Event>, s: System)
    requires ValidConfig(c) && IsRun(Init(c), evs) && s == After(Init(c), evs)
    ensures GoesOn(s) <==> !Stuck(s)
  {
    ReachableRecovers(c, evs);
    if Stuck(s) {
      if more, i :| IsRun(s, more) && Started(After(s, more), i) > Started(s, i) {
        FinishedLeaderBlocksEveryone(s, more);
      }
    } else if s.episode.None? || s.episode.value.leader.None? {
      VacantLeadGoesOn(s);
    } else {
      LedRecoveryGoesOn(s, s.episode.value.leader.value);
    }
  }

  lemma LedRecoveryGoesOn(s: System, e: Id)
    requires Recovers(s) && s.episode.Some? && s.episode.value.leader == Some(e) && !Stuck(s)
    ensures GoesOn(s)
  {
    var x := s.executions[e];
    if s.episode.value.probeActive {
      if CallProbe(x).Some? {
        PermitGoesOn(s, e);
      } else if AttemptProbe(x).Some? {
        ProbingGoesOn(s, e);
      } else {
        var g :| g in x.orphans;
        OrphanGoesOn(s, e, g);
      }
    } else {
      match x.pc {
        case Idle => IdleLeaderGoesOn(s, e);
        case AtLock => AtLockGoesOn(s, e);
        case Sleeping(_, _) => SleeperGoesOn(s, e);
        case DroppingLead(_) => QuitterGoesOn(s, e);
      }
    }
  }

  ghost predicate GetsStuck(s: System) {
    exists evs :: IsRun(s, evs) && Stuck(After(s, evs))
  }

  lemma GetsStuckBefore(s: System, ev: Event)
    requires Enabled(s, ev) && GetsStuck(Step(s, ev))
    ensures GetsStuck(s)
  {
    var s' := Step(s, ev);
    var evs :| IsRun(s', evs) && Stuck(After(s', evs));
    var all := [ev] + evs;
    assert all[0] == ev && all[1..] == evs;
    assert IsRun(s, all) && After(s, all) == After(s', evs);
  }

  /** One execution, and no recovery yet. */
  function Alone(c: Config, x: Execution, free: nat): System {
    System(c, None, 1, free, map[0 := x], 0.0)
  }

  function Lone(pc: Pc): Execution {
    NewExecution().(pc := pc)
  }

  /** A first attempt fails, may be retried, and its owner gives up. */
  lemma QuittingGetsStuck(c: Config, x: Execution, free: nat)
    requires c.maxAttempts > 1 && 0.0 <= c.jitter
    requires x == Lone(Idle).(started := 1, activeClaim := Some(1), attempt := Some(Attempt(Normal, 1, false, false, false)))
    ensures GetsStuck(Alone(c, x, free))
  {
    var s := Alone(c, x, free);
    var failing, finishing := Event(0, Fail(0, true, 0.0, None, 0.0), 0.0), Event(0, Finish(Abandoned, 0), 0.0);
    var s' := Step(s, failing);
    assert s'.episode.Some? && s'.executions[0].state.Active? && s'.executions[0].pc.Idle?;
    var s'' := Step(s', finishing);
    assert Stuck(s'') && IsRun(s'', []);
    GetsStuckBefore(s', finishing);
    GetsStuckBefore(s, failing);
  }

  lemma ClaimingGetsStuck(c: Config)
    requires ValidConfig(c) && c.maxAttempts > 1
    ensures GetsStuck(Alone(c, Lone(Admitting(Normal)), c.maxConcurrency))
  {
    var s, ev := Alone(c, Lone(Admitting(Normal)), c.maxConcurrency), Event(0, Admit, 0.0);
    var s', ev' := Alone(c, Lone(Queued(Normal)), c.maxConcurrency), Event(0, Grant, 0.0);
    var s'', ev'' := Alone(c, Lone(Granted(Normal)), c.maxConcurrency - 1), Event(0, Resume, 0.0);
    assert Step(s, ev) == s' && Step(s', ev') == s'';
    var x := Step(s'', ev'').executions[0];
    assert Step(s'', ev'') == Alone(c, x, c.maxConcurrency - 1);
    QuittingGetsStuck(c, x, c.maxConcurrency - 1);
    GetsStuckBefore(s'', ev'');
    GetsStuckBefore(s', ev');
    GetsStuckBefore(s, ev);
  }

  lemma StartingGetsStuck(c: Config)
    requires ValidConfig(c) && c.maxAttempts > 1
    ensures GetsStuck(Init(c))
  {
    var s, ev := Alone(c, Lone(Idle), c.maxConcurrency), Event(0, Open, 0.0);
    var s', ev' := Alone(c, Lone(AtLock), c.maxConcurrency), Event(0, EnterGate, 0.0);
    assert Step(Init(c), Event(0, Start, 0.0)) == s && Step(s, ev) == s';
    assert Step(s', ev') == Alone(c, Lone(Admitting(Normal)), c.maxConcurrency);
    ClaimingGetsStuck(c);
    GetsStuckBefore(s', ev');
    GetsStuckBefore(s, ev);
    GetsStuckBefore(Init(c), Event(0, Start, 0.0));
  }

  /** Some run of a controller gets stuck exactly if its configuration allows a retry. */
  lemma StuckIffRetries(c: Config)
    requires ValidConfig(c)
    ensures GetsStuck(Init(c)) <==> c.maxAttempts > 1
  {
    if GetsStuck(Init(c)) {
      var evs :| IsRun(Init(c), evs) && Stuck(After(Init(c), evs));
      ReachableRecovers(c, evs);
      ConfigStays(Init(c), evs);
    }
    if c.maxAttempts > 1 {
      StartingGetsStuck(c);
    }
  }
}
