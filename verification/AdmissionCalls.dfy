/** What becomes of a pending call of open_attempt: how it ends, when it tries again, and what it leaves behind. */
module AdmissionCalls {
  import opened Options
  import opened AdmissionModel
  import opened AdmissionInvariant
  import opened AdmissionSafety
  import opened AdmissionRecovery
  import opened AdmissionEpisodes

  /** A call of open_attempt is under way. */
  predicate Calling(x: Execution) { !x.pc.Idle? && !x.pc.Closing? }

  /** The execution has failed, and its call finds out: woken from a wait, or back from a permit it gave up to try again. */
  predicate FindsFailure(s: System, ev: Event)
    requires Enabled(s, ev)
  {
    (ev.action.Wake? || (ev.action.GiveUp? && s.executions[ev.who].pc.again)) && s.executions[ev.who].state.Failed?
  }

  /** A terminal recovery is in force at the gate. */
  predicate MeetsTerminal(s: System, ev: Event)
    requires Enabled(s, ev)
  {
    ev.action.EnterGate? && TerminalUntil(s).Some? && ev.at < TerminalUntil(s).value
  }

  /** The call is cancelled where it holds nothing, or has cleaned up after being cancelled. */
  predicate EndsCancelled(s: System, ev: Event)
    requires Enabled(s, ev)
  {
    ev.action.DropLead? ||
    (ev.action.Cancel? && (s.executions[ev.who].pc.AtLock? || s.executions[ev.who].pc.Waiting? ||
                           s.executions[ev.who].pc.WaitingOwnProbe?)) ||
    (ev.action.GiveUp? && !s.executions[ev.who].pc.again)
  }

  /**
   A call ends exactly by its claim, by the execution's failure, at a terminal gate, or by being cancelled or refused; in
   every other step of its own it goes on.
   */
  lemma CallEndsIff(c: Config, evs: seq<Event>, s: System, ev: Event)
    requires ValidConfig(c) && IsRun(Init(c), evs) && s == After(Init(c), evs)
    requires Enabled(s, ev) && ev.who in s.executions && Calling(s.executions[ev.who])
    ensures !Calling(Step(s, ev).executions[ev.who]) <==>
            Claims(s, ev) || FindsFailure(s, ev) || MeetsTerminal(s, ev) || EndsCancelled(s, ev)
  {
    InitInv(c);
    RunKeepsInv(Init(c), evs);
    assert ProbeOk(s, ev.who, s.executions[ev.who]) && SleeperOk(s, ev.who, s.executions[ev.who].pc);
    OnlyResumeClaims(s, ev);
    if ev.action.EnterGate? {
      GateEnds(s, ev);
    } else {
      OthersEnd(s, ev);
    }
  }

  lemma GateEnds(s: System, ev: Event)
    requires Inv(s) && Enabled(s, ev) && ev.action.EnterGate?
    ensures !Calling(Step(s, ev).executions[ev.who]) <==> MeetsTerminal(s, ev)
  {
  }

  lemma OthersEnd(s: System, ev: Event)
    requires Inv(s) && Enabled(s, ev) && !ev.action.EnterGate? && ev.who in s.executions && Calling(s.executions[ev.who])
    requires SleeperOk(s, ev.who, s.executions[ev.who].pc)
    ensures !Calling(Step(s, ev).executions[ev.who]) <==>
            Claims(s, ev) || FindsFailure(s, ev) || EndsCancelled(s, ev)
  {
  }

  /** What a call does that gives up its permit: it tries again exactly if the permit had gone stale under it. */
  lemma StalePermitTriesAgain(c: Config, evs: seq<Event>, s: System, ev: Event)
    requires ValidConfig(c) && IsRun(Init(c), evs) && s == After(Init(c), evs)
    requires Enabled(s, ev) && (ev.action.Admit? || ev.action.Resume? || ev.action.Cancel?)
    requires s.executions[ev.who].pc.Admitting? || s.executions[ev.who].pc.Queued? || s.executions[ev.who].pc.Granted?
    ensures var x, pc' := s.executions[ev.who], Step(s, ev).executions[ev.who].pc;
            if ev.action.Cancel? then pc' == GivingUp(x.pc.permit, false)
            else if !IsCurrent(s, ev.who, x.pc.permit) then pc' == GivingUp(x.pc.permit, true)
            else if ev.action.Admit? then pc' == Queued(x.pc.permit)
            else pc' == if x.state.Active? then Idle else GivingUp(x.pc.permit, false)
  {
    InitInv(c);
    RunKeepsInv(Init(c), evs);
  }

  /** A call whose permit has gone stale is back at the lock after giving it up, unless its execution has failed. */
  lemma BackAtTheLock(c: Config, evs: seq<Event>, s: System, ev: Event, at: real)
    requires ValidConfig(c) && IsRun(Init(c), evs) && s == After(Init(c), evs)
    requires Enabled(s, ev) && (ev.action.Admit? || ev.action.Resume?) && at >= ev.at
    requires !IsCurrent(s, ev.who, s.executions[ev.who].pc.permit)
    ensures Enabled(Step(s, ev), Event(ev.who, GiveUp, at))
    ensures Step(Step(s, ev), Event(ev.who, GiveUp, at)).executions[ev.who].pc ==
            if s.executions[ev.who].state.Failed? then Idle else AtLock
  {
    StalePermitTriesAgain(c, evs, s, ev);
  }

  /** A wait that is cancelled is forgotten: what then becomes of the recovery does not concern the execution any more. */
  lemma CancelledWaitIsForgotten(c: Config, evs: seq<Event>, s: System, e: Id, at: real, ev: Event)
    requires ValidConfig(c) && IsRun(Init(c), evs) && s == After(Init(c), evs)
    requires WaitsForRecovery(s, e) && Enabled(s, Event(e, Cancel, at))
    requires Exhausts(Step(s, Event(e, Cancel, at)), ev) && ev.who != e
    ensures Step(s, Event(e, Cancel, at)).executions[e] == s.executions[e].(pc := Idle)
    ensures Step(Step(s, Event(e, Cancel, at)), ev).executions[e] == s.executions[e].(pc := Idle)
  {
    var s' := Step(s, Event(e, Cancel, at));
    InitInv(c);
    RunKeepsInv(Init(c), evs);
    StepKeepsInv(s, Event(e, Cancel, at));
    OthersKeepApart(s', ev, e);
  }

  lemma OthersKeepApart(s: System, ev: Event, e: Id)
    requires Inv(s) && Exhausts(s, ev) && ev.who != e && e in s.executions
    requires s.episode.Some? ==> e !in s.episode.value.waiters
    ensures Step(s, ev).executions[e] == s.executions[e]
  {
    assert ProbeOk(s, ev.who, s.executions[ev.who]);
  }

  /** A recovery's error is that of the failure it began with, or of its latest failed probe; a new one inherits it. */
  lemma LastErrorIsTheProbes(c: Config, evs: seq<Event>, s: System, ev: Event)
    requires ValidConfig(c) && IsRun(Init(c), evs) && s == After(Init(c), evs)
    requires Enabled(s, ev) && Step(s, ev).episode.Some?
    ensures var fails := FailsRetryably(s, ev) &&
                         (s.episode.None? || s.executions[ev.who].attempt.value.permit.Probe?);
            if fails then Step(s, ev).episode.value.lastError == ev.action.error
            else s.episode.Some? && Step(s, ev).episode.value.lastError == s.episode.value.lastError
  {
    InitInv(c);
    RunKeepsInv(Init(c), evs);
    if ev.action.Fail? {
      FailedErrorIsTheProbes(s, ev);
    }
  }

  lemma FailedErrorIsTheProbes(s: System, ev: Event)
    requires Inv(s) && Enabled(s, ev) && ev.action.Fail? && Step(s, ev).episode.Some?
    ensures var fails := FailsRetryably(s, ev) &&
                         (s.episode.None? || s.executions[ev.who].attempt.value.permit.Probe?);
            if fails then Step(s, ev).episode.value.lastError == ev.action.error
            else s.episode.Some? && Step(s, ev).episode.value.lastError == s.episode.value.lastError
  {
    assert ProbeOk(s, ev.who, s.executions[ev.who]);
  }
}
