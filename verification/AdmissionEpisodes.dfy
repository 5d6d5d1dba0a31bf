/** When recoveries begin, end, turn terminal and reopen: each exactly by one kind of event. */
module AdmissionEpisodes {
  import opened Options
  import opened AdmissionModel
  import opened AdmissionInvariant
  import opened AdmissionSafety
  import opened AdmissionRecovery

  /** A failed attempt that may be retried, or would be if its budget were not spent. */
  predicate FailsRetryably(s: System, ev: Event)
    requires Enabled(s, ev)
  {
    ev.action.Fail? && ev.action.retryable && Unresolved(s.executions[ev.who])
  }

  /** A probe succeeds, is rejected for good, or is corrected when its budget is spent. */
  predicate SettlesProbe(s: System, ev: Event)
    requires Enabled(s, ev)
  {
    (ev.action.Accept? || ev.action.Correct? || ev.action.Fail?) &&
    var x := s.executions[ev.who];
    Unresolved(x) && x.attempt.value.permit.Probe? &&
    (ev.action.Accept? || (ev.action.Fail? && !ev.action.retryable) || (ev.action.Correct? && !CanAttempt(s.config, x)))
  }

  /** Somebody comes to the gate when the terminal window is over. */
  predicate Reopens(s: System, ev: Event)
    requires Enabled(s, ev)
  {
    ev.action.EnterGate? && s.episode.Some? && s.episode.value.terminalUntil.Some? &&
    ev.at >= s.episode.value.terminalUntil.value
  }

  function Generation(s: System): Option<nat> {
    if s.episode.None? then None else Some(s.episode.value.generation)
  }

  function TerminalUntil(s: System): Option<real> {
    if s.episode.None? then None else s.episode.value.terminalUntil
  }

  ghost predicate Diagram(s: System, ev: Event)
    requires Enabled(s, ev)
  {
    var s' := Step(s, ev);
    && (s'.episode.None? <==> if s.episode.None? then !FailsRetryably(s, ev) else SettlesProbe(s, ev))
    && (s.episode.Some? && s'.episode.Some? ==> (Generation(s') != Generation(s) <==> Reopens(s, ev)))
    && (TerminalUntil(s').Some? <==> Exhausts(s, ev) || (TerminalUntil(s).Some? && !Reopens(s, ev)))
    && (TerminalUntil(s).Some? && TerminalUntil(s').Some? ==> TerminalUntil(s') == TerminalUntil(s))
  }

  lemma FailFollowsDiagram(s: System, ev: Event)
    requires Inv(s) && Enabled(s, ev) && ev.action.Fail?
    ensures Diagram(s, ev)
  {
    assert ProbeOk(s, ev.who, s.executions[ev.who]);
  }

  lemma CorrectFollowsDiagram(s: System, ev: Event)
    requires Inv(s) && Enabled(s, ev) && ev.action.Correct?
    ensures Diagram(s, ev)
  {
    assert ProbeOk(s, ev.who, s.executions[ev.who]);
  }

  lemma GateFollowsDiagram(s: System, ev: Event)
    requires Inv(s) && Enabled(s, ev) && ev.action.EnterGate?
    ensures Diagram(s, ev)
  {
  }

  lemma OthersFollowDiagram(s: System, ev: Event)
    requires Inv(s) && Enabled(s, ev) && !ev.action.Fail? && !ev.action.Correct? && !ev.action.EnterGate?
    ensures Diagram(s, ev)
  {
    if ev.action.Accept? {
      assert ProbeOk(s, ev.who, s.executions[ev.who]);
    }
  }

  /**
   The breaker's state diagram is exact: a recovery begins exactly with a retryable failure, ends exactly when its probe
   settles, turns terminal exactly when its budget is exhausted, and gives way to a new one exactly when somebody comes
   after the terminal window.
   */
  lemma StateDiagram(c: Config, evs: seq<Event>, s: System, ev: Event)
    requires ValidConfig(c) && IsRun(Init(c), evs) && s == After(Init(c), evs) && Enabled(s, ev)
    ensures Diagram(s, ev)
  {
    InitInv(c);
    RunKeepsInv(Init(c), evs);
    match ev.action {
      case Fail(_, _, _, _, _) => FailFollowsDiagram(s, ev);
      case Correct(_) => CorrectFollowsDiagram(s, ev);
      case EnterGate => GateFollowsDiagram(s, ev);
      case _ => OthersFollowDiagram(s, ev);
    }
  }

  ghost predicate NobodyFailsRetryably(evs: seq<Event>) {
    forall ev | ev in evs :: ev.action.Fail? ==> !ev.action.retryable
  }

  lemma {:induction false} StaysClosed(s: System, evs: seq<Event>)
    requires Inv(s) && IsRun(s, evs) && s.episode.None? && NobodyFailsRetryably(evs)
    ensures After(s, evs).episode.None?
    decreases |evs|
  {
    if evs != [] {
      var ev := evs[0];
      assert ev in evs;
      StepKeepsInv(s, ev);
      if ev.action.Fail? {
        FailFollowsDiagram(s, ev);
      } else if ev.action.Correct? {
        CorrectFollowsDiagram(s, ev);
      } else if ev.action.EnterGate? {
        GateFollowsDiagram(s, ev);
      } else {
        OthersFollowDiagram(s, ev);
      }
      StaysClosed(Step(s, ev), evs[1..]);
    }
  }

  /**
   Once a probe has settled the recovery is over for everybody: until the next retryable failure whoever comes to the
   gate goes through with a normal permit, and everybody at the same time.
   */
  lemma SettledProbeAdmitsEverybody(c: Config, evs: seq<Event>, s: System, ev: Event, more: seq<Event>, e: Id, at: real)
    requires ValidConfig(c) && IsRun(Init(c), evs) && s == After(Init(c), evs)
    requires Enabled(s, ev) && SettlesProbe(s, ev) && IsRun(Step(s, ev), more) && NobodyFailsRetryably(more)
    requires Enabled(After(Step(s, ev), more), Event(e, EnterGate, at))
    ensures After(Step(s, ev), more).episode.None?
    ensures var s' := Step(After(Step(s, ev), more), Event(e, EnterGate, at));
            s'.executions[e].pc == Admitting(Normal) && IsCurrent(s', e, Normal)
  {
    StateDiagram(c, evs, s, ev);
    InitInv(c);
    RunKeepsInv(Init(c), evs);
    StepKeepsInv(s, ev);
    assert ProbeOk(s, ev.who, s.executions[ev.who]);
    StaysClosed(Step(s, ev), more);
  }
  // ---------------------------------------------------------------- the probe

  predicate ProbeOut(s: System) {
    s.episode.Some? && s.episode.value.probeActive
  }

  /** A leader, or anybody where nobody leads, comes to the gate when recovery is due, or wakes up there. */
  predicate TakesProbe(s: System, ev: Event)
    requires Enabled(s, ev)
  {
    ev.action.WakeLeader? || Reopens(s, ev) ||
    (ev.action.EnterGate? && s.episode.Some? && TerminalUntil(s).None? && !ProbeOut(s) &&
     (s.episode.value.leader.None? || s.episode.value.leader == Some(ev.who)) && ev.at >= s.episode.value.readyAt)
  }

  /** The probe's attempt is resolved, or its permit is given up before or after the claim. */
  predicate ReturnsProbe(s: System, ev: Event)
    requires Enabled(s, ev)
  {
    ev.action.RunOrphan? ||
    (ev.action.GiveUp? && s.executions[ev.who].pc.permit.Probe?) ||
    ((ev.action.Accept? || ev.action.Correct? || ev.action.Fail?) && Unresolved(s.executions[ev.who]) &&
     s.executions[ev.who].attempt.value.permit.Probe?)
  }

  ghost predicate ProbeFollows(s: System, ev: Event)
    requires Enabled(s, ev)
  {
    ProbeOut(Step(s, ev)) <==> TakesProbe(s, ev) || (ProbeOut(s) && !ReturnsProbe(s, ev))
  }

  lemma ProbeFollowsResolution(s: System, ev: Event)
    requires Inv(s) && Enabled(s, ev) && (ev.action.Fail? || ev.action.Correct? || ev.action.Accept?)
    ensures ProbeFollows(s, ev)
  {
    assert ProbeOk(s, ev.who, s.executions[ev.who]);
  }

  lemma ProbeFollowsGate(s: System, ev: Event)
    requires Inv(s) && Enabled(s, ev) && ev.action.EnterGate?
    ensures ProbeFollows(s, ev)
  {
  }

  lemma ProbeFollowsOthers(s: System, ev: Event)
    requires Inv(s) && Enabled(s, ev)
    requires !ev.action.Fail? && !ev.action.Correct? && !ev.action.Accept? && !ev.action.EnterGate?
    ensures ProbeFollows(s, ev)
  {
    if !ev.action.Start? {
      assert ProbeOk(s, ev.who, s.executions[ev.who]) && SleeperOk(s, ev.who, s.executions[ev.who].pc);
    }
  }

  /** The probe is out exactly from the moment somebody takes it until it is resolved or given up. */
  lemma ProbeIsOutIff(c: Config, evs: seq<Event>, s: System, ev: Event)
    requires ValidConfig(c) && IsRun(Init(c), evs) && s == After(Init(c), evs) && Enabled(s, ev)
    ensures ProbeOut(Step(s, ev)) <==> TakesProbe(s, ev) || (ProbeOut(s) && !ReturnsProbe(s, ev))
  {
    InitInv(c);
    RunKeepsInv(Init(c), evs);
    if ev.action.Fail? || ev.action.Correct? || ev.action.Accept? {
      ProbeFollowsResolution(s, ev);
    } else if ev.action.EnterGate? {
      ProbeFollowsGate(s, ev);
    } else {
      ProbeFollowsOthers(s, ev);
    }
  }

  /** A probe that is corrected with budget left goes again: its execution leads on and gets the next probe at once. */
  lemma CorrectedProbeGoesAgain(c: Config, evs: seq<Event>, s: System, ev: Event, at: real)
    requires ValidConfig(c) && IsRun(Init(c), evs) && s == After(Init(c), evs) && Enabled(s, ev) && at >= ev.at
    requires ev.action.Correct? && ReturnsProbe(s, ev) && !SettlesProbe(s, ev)
    ensures var close, open, gate := Event(ev.who, Close, at), Event(ev.who, Open, at), Event(ev.who, EnterGate, at);
            && Enabled(Step(s, ev), close) && Enabled(Step(Step(s, ev), close), open)
            && Enabled(Step(Step(Step(s, ev), close), open), gate)
            && var s' := Step(Step(Step(Step(s, ev), close), open), gate);
               s'.executions[ev.who].pc == Admitting(s.executions[ev.who].attempt.value.permit)
  {
    InitInv(c);
    RunKeepsInv(Init(c), evs);
    assert ProbeOk(s, ev.who, s.executions[ev.who]);
  }

  /** A probe permit that is given up passes on at once: whoever comes to the gate next gets one for the same recovery. */
  lemma GivenUpProbePassesOn(c: Config, evs: seq<Event>, s: System, ev: Event, e: Id, at: real)
    requires ValidConfig(c) && IsRun(Init(c), evs) && s == After(Init(c), evs) && Enabled(s, ev)
    requires (ev.action.GiveUp? || ev.action.RunOrphan?) && ReturnsProbe(s, ev)
    requires Enabled(Step(s, ev), Event(e, EnterGate, at))
    ensures s.episode.Some?
    ensures Step(Step(s, ev), Event(e, EnterGate, at)).executions[e].pc == Admitting(Probe(s.episode.value.generation))
  {
    InitInv(c);
    RunKeepsInv(Init(c), evs);
    assert ProbeOk(s, ev.who, s.executions[ev.who]);
  }

  // ---------------------------------------------------------------- what a resolution makes of the execution

  /** The execution goes on after the failure, instead of failing with it. */
  predicate MayGoOn(s: System, ev: Event)
    requires Enabled(s, ev) && (ev.action.Correct? || ev.action.Fail?)
  {
    CanAttempt(s.config, s.executions[ev.who]) &&
    (ev.action.Fail? ==> ev.action.retryable && TerminalUntil(s).None?)
  }

  /** A retry that comes too late, after the recovery has been exhausted, fails with the recovery's error. */
  function FinalError(s: System, ev: Event): Error
    requires Enabled(s, ev) && (ev.action.Correct? || ev.action.Fail?)
  {
    if ev.action.Fail? && ev.action.retryable && CanAttempt(s.config, s.executions[ev.who]) && TerminalUntil(s).Some?
    then s.episode.value.lastError else ev.action.error
  }

  /** Every resolution resolves; a failed or corrected attempt leaves its execution active exactly if it may go on. */
  lemma ResolutionDecides(c: Config, evs: seq<Event>, s: System, ev: Event)
    requires ValidConfig(c) && IsRun(Init(c), evs) && s == After(Init(c), evs) && Enabled(s, ev)
    requires ev.action.Accept? || ev.action.Correct? || ev.action.Fail?
    requires Unresolved(s.executions[ev.who]) && s.executions[ev.who].state.Active?
    ensures var x, x' := s.executions[ev.who], Step(s, ev).executions[ev.who];
            && x'.attempt == Some(x.attempt.value.(resolved := true, accepted := ev.action.Accept?))
            && (if ev.action.Accept? then x'.state.Active? && x'.lastFailure == x.lastFailure
                else && x'.state == (if MayGoOn(s, ev) then Active else Failed)
                     && x'.lastFailure == Some(FinalError(s, ev)))
  {
    InitInv(c);
    RunKeepsInv(Init(c), evs);
    assert ProbeOk(s, ev.who, s.executions[ev.who]);
  }
}
