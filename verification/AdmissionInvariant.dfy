/** What every step of the recovery protocol keeps, proved region by region. */
module AdmissionInvariant {
  import opened Options
  import opened AdmissionModel

  /** The probe permit carried by a suspended open_attempt call. */
  function CallProbe(x: Execution): Option<nat> {
    if (x.pc.Admitting? || x.pc.Queued? || x.pc.Granted? || x.pc.GivingUp?) && x.pc.permit.Probe?
    then Some(x.pc.permit.generation) else None
  }

  /** The probe permit of an attempt that is neither resolved nor closed. */
  function AttemptProbe(x: Execution): Option<nat> {
    if Unresolved(x) && x.attempt.value.permit.Probe? then Some(x.attempt.value.permit.generation) else None
  }

  predicate HoldsProbe(x: Execution) {
    CallProbe(x).Some? || AttemptProbe(x).Some? || x.orphans != {}
  }

  predicate HoldsNormal(x: Execution) {
    ((x.pc.Admitting? || x.pc.Queued? || x.pc.Granted? || x.pc.GivingUp?) && x.pc.permit.Normal?) ||
    (Unresolved(x) && x.attempt.value.permit.Normal?)
  }

  /** Local consistency of one execution: at most one claim, numbered by the attempts started so far. */
  ghost predicate ExecutionOk(c: Config, x: Execution) {
    && x.started <= c.maxAttempts
    && (x.attempt.Some? <==> x.activeClaim.Some?)
    && (x.attempt.Some? ==>
          && x.activeClaim == Some(x.started)
          && x.attempt.value.ordinal == x.started >= 1
          && (x.attempt.value.accepted ==> x.attempt.value.resolved)
          && (x.pc.Idle? || x.pc.Closing?)
          && (x.attempt.value.closed <==> x.pc.Closing?))
    && (x.pc.Closing? ==> x.attempt.Some? && !x.attempt.value.resolved)
    && (x.pc.Idle? || x.pc.Closing? || (x.attempt.None? && x.started < c.maxAttempts && (x.state.Active? || x.state.Failed?)))
    && (x.state.Failed? ==> x.lastFailure.Some?)
  }

  /** Waiting for recovery means being outside any attempt and holding no permit. */
  ghost predicate MayWait(x: Execution) {
    (x.pc.Idle? || x.pc.AtLock? || x.pc.Waiting?) && !Unresolved(x)
  }

  ghost predicate ExecutionsOk(s: System) {
    forall e | e in s.executions :: ExecutionOk(s.config, s.executions[e])
  }

  ghost predicate EpisodeOk(s: System) {
    s.nextGeneration >= 1 &&
    (s.episode.Some? ==>
       var ep := s.episode.value;
       && 1 <= ep.generation < s.nextGeneration
       && (ep.terminalUntil.Some? ==> ep.leader.None? && ep.waiters == {})
       && (ep.leader.Some? ==> ep.leader.value in s.executions && ep.leader.value !in ep.waiters &&
                               !HoldsNormal(s.executions[ep.leader.value]))
       && (ep.probeActive ==> ep.leader.Some? && HoldsProbe(s.executions[ep.leader.value]))
       && (forall w | w in ep.waiters :: w in s.executions && MayWait(s.executions[w])))
  }

  /** A probe permit that is still held is current, and held in one place: call, attempt or abandonment. */
  ghost predicate ProbeOk(s: System, e: Id, x: Execution) {
    && (CallProbe(x).Some? ==> IsCurrent(s, e, Probe(CallProbe(x).value)) && AttemptProbe(x).None? && x.orphans == {})
    && (AttemptProbe(x).Some? ==> IsCurrent(s, e, Probe(AttemptProbe(x).value)) && x.orphans == {})
    && (x.orphans != {} ==> s.episode.Some? && x.orphans == {s.episode.value.generation} &&
                            IsCurrent(s, e, Probe(s.episode.value.generation)))
  }

  ghost predicate ProbesOk(s: System) {
    forall e | e in s.executions :: ProbeOk(s, e, s.executions[e])
  }

  /** A leader that sleeps, or is about to give up leading, still leads that same open episode. */
  ghost predicate SleeperOk(s: System, e: Id, pc: Pc) {
    pc.Sleeping? || pc.DroppingLead? ==>
      && s.episode.Some?
      && s.episode.value.generation == pc.episode
      && s.episode.value.leader == Some(e)
      && !s.episode.value.probeActive
      && s.episode.value.terminalUntil.None?
      && (pc.Sleeping? ==> pc.until >= s.episode.value.readyAt)
  }

  ghost predicate SleepersOk(s: System) {
    forall e | e in s.executions :: SleeperOk(s, e, s.executions[e].pc)
  }

  ghost predicate OccupiesSlot(x: Execution) {
    x.pc.Granted? || x.attempt.Some?
  }

  ghost function Occupiers(s: System): set<Id> {
    set e | e in s.executions && OccupiesSlot(s.executions[e])
  }

  ghost predicate SlotsOk(s: System) {
    s.free + |Occupiers(s)| == s.config.maxConcurrency
  }

  ghost predicate Inv(s: System) {
    ValidConfig(s.config) && ExecutionsOk(s) && EpisodeOk(s) && ProbesOk(s) && SleepersOk(s) && SlotsOk(s)
  }

  lemma InitInv(c: Config)
    requires ValidConfig(c)
    ensures Inv(Init(c))
  {
    assert Occupiers(Init(c)) == {};
  }

  function SlotCount(x: Execution): nat { if x.pc.Granted? || x.attempt.Some? then 1 else 0 }

  /**
   A step that changes only `e`, and leaves somebody else's leadership alone, keeps the invariant when it
   keeps it at `e`: whoever leads is the only one who can hold a probe or sleep out a backoff.
   */
  lemma LocalChangeKeepsInv(s: System, s': System, e: Id)
    requires Inv(s) && e in s.executions && e in s'.executions && s'.config == s.config
    requires s'.executions == s.executions[e := s'.executions[e]]
    requires s.episode.None? || s.episode.value.leader.None? || s.episode.value.leader == Some(e) ||
             (s'.episode.Some? && s'.episode.value == s.episode.value.(waiters := s'.episode.value.waiters))
    requires ExecutionOk(s.config, s'.executions[e]) && ProbeOk(s', e, s'.executions[e])
    requires SleeperOk(s', e, s'.executions[e].pc) && EpisodeOk(s')
    requires s'.free + SlotCount(s'.executions[e]) == s.free + SlotCount(s.executions[e])
    ensures Inv(s')
  {
    SlotsAfterChange(s, s', e);
    forall i | i in s'.executions ensures ProbeOk(s', i, s'.executions[i]) && SleeperOk(s', i, s'.executions[i].pc) {
      if i != e {
        OtherUnaffected(s, s', e, i);
      }
    }
  }

  lemma SlotsAfterChange(s: System, s': System, e: Id)
    requires SlotsOk(s) && e in s.executions && e in s'.executions && s'.config == s.config
    requires s'.executions == s.executions[e := s'.executions[e]]
    requires s'.free + SlotCount(s'.executions[e]) == s.free + SlotCount(s.executions[e])
    ensures SlotsOk(s')
  {
    assert Occupiers(s') ==
        if OccupiesSlot(s'.executions[e]) then Occupiers(s) + {e} else Occupiers(s) - {e};
  }

  lemma OtherUnaffected(s: System, s': System, e: Id, i: Id)
    requires ProbesOk(s) && SleepersOk(s) && e in s.executions && i in s.executions && i != e
    requires s.episode.None? || s.episode.value.leader.None? || s.episode.value.leader == Some(e) ||
             (s'.episode.Some? && s'.episode.value == s.episode.value.(waiters := s'.episode.value.waiters))
    ensures ProbeOk(s', i, s.executions[i]) && SleeperOk(s', i, s.executions[i].pc)
  {
    assert ProbeOk(s, i, s.executions[i]) && SleeperOk(s, i, s.executions[i].pc);
  }

  lemma OpenKeepsInv(s: System, e: Id)
    requires Inv(s) && e in s.executions && s.executions[e].pc.Idle?
    ensures Inv(OpenAttempt(s, e))
  {
    LocalChangeKeepsInv(s, OpenAttempt(s, e), e);
  }

  lemma LoopTopKeepsInv(s: System, e: Id)
    requires Inv(s) && e in s.executions
    requires s.executions[e].pc.Waiting? || s.executions[e].pc.WaitingOwnProbe? || s.executions[e].pc.Sleeping?
    ensures Inv(LoopTop(s, e))
  {
    LocalChangeKeepsInv(s, LoopTop(s, e), e);
  }

  lemma ReopenedGateKeepsInv(s: System, e: Id, now: real)
    requires Inv(s) && e in s.executions && s.executions[e].pc.AtLock?
    requires s.episode.Some? && s.episode.value.terminalUntil.Some? && now >= s.episode.value.terminalUntil.value
    ensures Inv(Gate(s, e, now))
  {
    LocalChangeKeepsInv(s, Gate(s, e, now), e);
  }

  lemma LeaderlessGateKeepsInv(s: System, e: Id, now: real)
    requires Inv(s) && e in s.executions && s.executions[e].pc.AtLock?
    requires s.episode.Some? && s.episode.value.terminalUntil.None? && s.episode.value.leader.None?
    ensures Inv(Gate(s, e, now))
  {
    LocalChangeKeepsInv(s, Gate(s, e, now), e);
  }

  lemma EnterGateKeepsInv(s: System, e: Id, now: real)
    requires Inv(s) && e in s.executions && s.executions[e].pc.AtLock?
    ensures Inv(Gate(s, e, now))
  {
    if s.episode.Some? && s.episode.value.terminalUntil.Some? && now >= s.episode.value.terminalUntil.value {
      ReopenedGateKeepsInv(s, e, now);
    } else if s.episode.Some? && s.episode.value.terminalUntil.None? && s.episode.value.leader.None? {
      LeaderlessGateKeepsInv(s, e, now);
    } else {
      LocalChangeKeepsInv(s, Gate(s, e, now), e);
    }
  }

  lemma WakeLeaderKeepsInv(s: System, e: Id)
    requires Inv(s) && e in s.executions && s.executions[e].pc.Sleeping?
    ensures Inv(LeaderWakes(s, e))
  {
    LocalChangeKeepsInv(s, LeaderWakes(s, e), e);
  }

  lemma DropLeadKeepsInv(s: System, e: Id)
    requires Inv(s) && e in s.executions && s.executions[e].pc.DroppingLead?
    ensures Inv(DropLeadership(s, e))
  {
    LocalChangeKeepsInv(s, DropLeadership(s, e), e);
  }

  lemma AdmitKeepsInv(s: System, e: Id)
    requires Inv(s) && e in s.executions && s.executions[e].pc.Admitting?
    ensures Inv(AdmitRate(s, e))
  {
    LocalChangeKeepsInv(s, AdmitRate(s, e), e);
  }

  lemma GrantKeepsInv(s: System, e: Id)
    requires Inv(s) && e in s.executions && s.executions[e].pc.Queued? && s.free > 0
    ensures Inv(GrantSlot(s, e))
  {
    LocalChangeKeepsInv(s, GrantSlot(s, e), e);
  }

  lemma ResumeKeepsInv(s: System, e: Id)
    requires Inv(s) && e in s.executions && s.executions[e].pc.Granted?
    ensures Inv(ClaimAttempt(s, e))
  {
    LocalChangeKeepsInv(s, ClaimAttempt(s, e), e);
  }

  lemma GiveUpKeepsInv(s: System, e: Id, now: real)
    requires Inv(s) && e in s.executions && s.executions[e].pc.GivingUp?
    ensures Inv(GiveUpPermit(s, e, now))
  {
    LocalChangeKeepsInv(s, GiveUpPermit(s, e, now), e);
  }

  lemma CancelKeepsInv(s: System, e: Id)
    requires Inv(s) && e in s.executions && Cancellable(s.executions[e].pc)
    ensures Inv(CancelCall(s, e))
  {
    LocalChangeKeepsInv(s, CancelCall(s, e), e);
  }

  lemma AcceptKeepsInv(s: System, e: Id)
    requires Inv(s) && e in s.executions && s.executions[e].pc.Idle? && s.executions[e].attempt.Some?
    ensures Inv(AcceptAttempt(s, e))
  {
    assert Occupiers(AcceptAttempt(s, e)) == Occupiers(s);
  }

  lemma CorrectKeepsInv(s: System, e: Id, error: Error, now: real)
    requires Inv(s) && e in s.executions && s.executions[e].pc.Idle? && s.executions[e].attempt.Some?
    ensures Inv(CorrectAttempt(s, e, error, now))
  {
    if Unresolved(s.executions[e]) {
      var s' := CorrectAttempt(s, e, error, now);
      assert s'.executions == s.executions[e := s'.executions[e]];
      LocalChangeKeepsInv(s, s', e);
    }
  }

  /** Exhaustion: the attempt of `e` is resolved, everybody in `who` fails, and the episode turns terminal. */
  lemma ExhaustKeepsInv(s: System, s': System, e: Id, who: set<Id>, error: Error)
    requires Inv(s) && e in s.executions && e in s'.executions && s'.config == s.config && s'.free == s.free
    requires s.executions[e].attempt.Some? && s.executions[e].pc.Idle?
    requires s.episode.None? || s.episode.value.leader == Some(e)
    requires s'.executions == FailAll(s.executions, who, error)[e := s'.executions[e]]
    requires ExecutionOk(s.config, s'.executions[e]) && !HoldsProbe(s'.executions[e])
    requires s'.executions[e].pc.Idle? && s'.executions[e].attempt.Some?
    requires s'.episode.Some? && 1 <= s'.episode.value.generation < s'.nextGeneration
    requires s'.episode.value.leader.None? && s'.episode.value.waiters == {} && !s'.episode.value.probeActive
    ensures Inv(s')
  {
    var s1 := s.(executions := s.executions[e := s'.executions[e]], episode := s'.episode,
                 nextGeneration := s'.nextGeneration);
    LocalChangeKeepsInv(s, s1, e);
    assert Occupiers(s') == Occupiers(s1);
    forall i | i in s'.executions
      ensures ExecutionOk(s'.config, s'.executions[i]) && ProbeOk(s', i, s'.executions[i]) &&
              SleeperOk(s', i, s'.executions[i].pc)
    {
      assert ExecutionOk(s1.config, s1.executions[i]) && ProbeOk(s1, i, s1.executions[i]) &&
             SleeperOk(s1, i, s1.executions[i].pc);
    }
  }

  lemma RejectKeepsInv(s: System, s': System, e: Id, error: Error, draw: real, retryAfter: Option<real>, now: real,
                       later: real)
    requires Inv(s) && e in s.executions && s.executions[e].pc.Idle? && Unresolved(s.executions[e])
    requires s' == FailAttempt(s, e, error, false, draw, retryAfter, now, later)
    ensures Inv(s')
  {
    LocalChangeKeepsInv(s, s', e);
  }

  lemma RetryKeepsInv(s: System, s': System, e: Id, error: Error, draw: real, retryAfter: Option<real>, now: real,
                      later: real)
    requires Inv(s) && e in s.executions && s.executions[e].pc.Idle? && Unresolved(s.executions[e])
    requires CanAttempt(s.config, RecordFailure(s.executions[e], error))
    requires s' == FailAttempt(s, e, error, true, draw, retryAfter, now, later)
    ensures Inv(s')
  {
    LocalChangeKeepsInv(s, s', e);
  }

  lemma SpentKeepsInv(s: System, s': System, e: Id, error: Error, draw: real, retryAfter: Option<real>, now: real,
                      later: real)
    requires Inv(s) && e in s.executions && s.executions[e].pc.Idle? && Unresolved(s.executions[e])
    requires !CanAttempt(s.config, RecordFailure(s.executions[e], error))
    requires s' == FailAttempt(s, e, error, true, draw, retryAfter, now, later)
    ensures Inv(s')
  {
    var p := s.executions[e].attempt.value.permit;
    assert ProbeOk(s, e, s.executions[e]);
    if s.episode.None? || Matching(s, e, p) {
      ExhaustKeepsInv(s, s', e, if s.episode.Some? then s.episode.value.waiters else {}, error);
    } else {
      StaleSpentKeepsInv(s, s', e, error, draw, retryAfter, now, later);
    }
  }

  lemma StaleSpentKeepsInv(s: System, s': System, e: Id, error: Error, draw: real, retryAfter: Option<real>, now: real,
                           later: real)
    requires Inv(s) && e in s.executions && s.executions[e].pc.Idle? && Unresolved(s.executions[e])
    requires !CanAttempt(s.config, RecordFailure(s.executions[e], error))
    requires s.episode.Some? && !Matching(s, e, s.executions[e].attempt.value.permit)
    requires s' == FailAttempt(s, e, error, true, draw, retryAfter, now, later)
    ensures Inv(s')
  {
    assert ProbeOk(s, e, s.executions[e]);
    LocalChangeKeepsInv(s, s', e);
  }

  lemma FailKeepsInv(s: System, e: Id, error: Error, retryable: bool, draw: real, retryAfter: Option<real>, now: real,
                     later: real)
    requires Inv(s) && e in s.executions && s.executions[e].pc.Idle? && s.executions[e].attempt.Some?
    ensures Inv(FailAttempt(s, e, error, retryable, draw, retryAfter, now, later))
  {
    if Unresolved(s.executions[e]) {
      var s' := FailAttempt(s, e, error, retryable, draw, retryAfter, now, later);
      if !retryable {
        RejectKeepsInv(s, s', e, error, draw, retryAfter, now, later);
      } else if CanAttempt(s.config, RecordFailure(s.executions[e], error)) {
        RetryKeepsInv(s, s', e, error, draw, retryAfter, now, later);
      } else {
        SpentKeepsInv(s, s', e, error, draw, retryAfter, now, later);
      }
    }
  }

  lemma CloseKeepsInv(s: System, e: Id)
    requires Inv(s) && e in s.executions && s.executions[e].pc.Idle? && s.executions[e].attempt.Some?
    ensures Inv(CloseAttempt(s, e))
  {
    LocalChangeKeepsInv(s, CloseAttempt(s, e), e);
  }

  lemma RunOrphanKeepsInv(s: System, e: Id, g: nat, now: real)
    requires Inv(s) && e in s.executions && g in s.executions[e].orphans
    ensures Inv(OrphanRuns(s, e, g, now))
  {
    assert Occupiers(OrphanRuns(s, e, g, now)) == Occupiers(s);
  }

  lemma FinishCloseKeepsInv(s: System, e: Id)
    requires Inv(s) && e in s.executions && s.executions[e].pc.Closing? && s.executions[e].attempt.Some?
    ensures Inv(EndClose(s, e))
  {
    assert Occupiers(EndClose(s, e)) == Occupiers(s) - {e};
  }

  lemma FinishKeepsInv(s: System, e: Id, outcome: ExecutionState, reason: Error)
    requires Inv(s) && e in s.executions && s.executions[e].pc.Idle?
    ensures Inv(Put(s, e, MarkFinished(s.executions[e], outcome, reason)))
  {
    LocalChangeKeepsInv(s, Put(s, e, MarkFinished(s.executions[e], outcome, reason)), e);
  }

  lemma StartKeepsInv(s: System, e: Id)
    requires Inv(s) && e !in s.executions
    ensures Inv(Put(s, e, NewExecution()))
  {
    assert Occupiers(Put(s, e, NewExecution())) == Occupiers(s);
  }

  lemma ClockKeepsInv(s: System, now: real)
    requires Inv(s)
    ensures Inv(s.(clock := now))
  {
    assert Occupiers(s.(clock := now)) == Occupiers(s);
  }

  /** Every step of every interleaving keeps the invariant. */
  lemma StepKeepsInv(s: System, ev: Event)
    requires Inv(s) && Enabled(s, ev)
    ensures Inv(Step(s, ev))
  {
    var e := ev.who;
    match ev.action {
      case Start => StartKeepsInv(s, e);
      case Open => OpenKeepsInv(s, e);
      case EnterGate => EnterGateKeepsInv(s, e, ev.at);
      case Wake => LoopTopKeepsInv(s, e);
      case WakeLeader => WakeLeaderKeepsInv(s, e);
      case DropLead => DropLeadKeepsInv(s, e);
      case Admit => AdmitKeepsInv(s, e);
      case Grant => GrantKeepsInv(s, e);
      case Resume => ResumeKeepsInv(s, e);
      case GiveUp => GiveUpKeepsInv(s, e, ev.at);
      case Cancel => CancelKeepsInv(s, e);
      case Accept => AcceptKeepsInv(s, e);
      case Correct(error) => CorrectKeepsInv(s, e, error, ev.at);
      case Fail(error, retryable, draw, retryAfter, later) =>
        FailKeepsInv(s, e, error, retryable, draw, retryAfter, ev.at, later);
      case Close => CloseKeepsInv(s, e);
      case RunOrphan(g) => RunOrphanKeepsInv(s, e, g, ev.at);
      case FinishClose => FinishCloseKeepsInv(s, e);
      case Finish(outcome, reason) => FinishKeepsInv(s, e, outcome, reason);
    }
    ClockKeepsInv(Act(s, ev), EventEnd(ev));
  }

  lemma {:induction false} RunKeepsInv(s: System, evs: seq<Event>)
    requires Inv(s) && IsRun(s, evs)
    ensures Inv(After(s, evs))
    decreases |evs|
  {
    if evs != [] {
      StepKeepsInv(s, evs[0]);
      RunKeepsInv(Step(s, evs[0]), evs[1..]);
    }
  }
}
