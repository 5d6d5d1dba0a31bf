/** What holds of every run of the recovery protocol, whatever the interleaving. */
module AdmissionSafety {
  import opened Options
  import opened AdmissionModel
  import opened AdmissionInvariant

  // ---------------------------------------------------------------- probe permits

  function CallHolds(x: Execution): nat { if CallProbe(x).Some? then 1 else 0 }

  function AttemptHolds(x: Execution): nat { if AttemptProbe(x).Some? then 1 else 0 }

  ghost predicate HoldsProbeOf(x: Execution, g: nat) {
    CallProbe(x) == Some(g) || AttemptProbe(x) == Some(g) || g in x.orphans
  }

  /** At any moment at most one live probe permit exists; its holder leads the open episode. */
  lemma AtMostOneLiveProbe(c: Config, evs: seq<Event>, s: System, e: Id, e': Id)
    requires ValidConfig(c) && IsRun(Init(c), evs) && s == After(Init(c), evs)
    requires e in s.executions && e' in s.executions
    requires HoldsProbe(s.executions[e]) && HoldsProbe(s.executions[e'])
    ensures e == e'
    ensures CallHolds(s.executions[e]) + AttemptHolds(s.executions[e]) + |s.executions[e].orphans| == 1
    ensures s.episode.Some? && IsCurrent(s, e, Probe(s.episode.value.generation))
    ensures HoldsProbeOf(s.executions[e], s.episode.value.generation)
  {
    InitInv(c);
    RunKeepsInv(Init(c), evs);
    assert ProbeOk(s, e, s.executions[e]) && ProbeOk(s, e', s.executions[e']);
  }

  /** A running probe is never lost: as long as the episode says one is out, its leader holds the permit. */
  lemma RunningProbeHasHolder(c: Config, evs: seq<Event>, s: System)
    requires ValidConfig(c) && IsRun(Init(c), evs) && s == After(Init(c), evs) && s.episode.Some?
    ensures s.episode.value.probeActive <==>
            exists e :: e in s.executions && HoldsProbeOf(s.executions[e], s.episode.value.generation)
  {
    InitInv(c);
    RunKeepsInv(Init(c), evs);
    var ep := s.episode.value;
    if ep.probeActive {
      assert ProbeOk(s, ep.leader.value, s.executions[ep.leader.value]);
      assert HoldsProbeOf(s.executions[ep.leader.value], ep.generation);
    }
    if e :| e in s.executions && HoldsProbeOf(s.executions[e], ep.generation) {
      assert ProbeOk(s, e, s.executions[e]);
    }
  }

  /** The events by which a holder itself resolves or abandons its permit. */
  predicate EndsProbe(ev: Event, e: Id) {
    ev.who == e &&
    (ev.action.GiveUp? || ev.action.Accept? || ev.action.Correct? || ev.action.Fail? || ev.action.RunOrphan?)
  }

  lemma ProbeSurvivesFail(s: System, ev: Event, e: Id, g: nat)
    requires Enabled(s, ev) && ev.action.Fail? && ev.who != e
    requires e in s.executions && HoldsProbeOf(s.executions[e], g)
    ensures e in Step(s, ev).executions && HoldsProbeOf(Step(s, ev).executions[e], g)
    ensures Step(s, ev).executions[e].pc == s.executions[e].pc
  {
  }

  lemma ProbeSurvivesGate(s: System, who: Id, now: real, e: Id)
    requires who in s.executions && who != e && e in s.executions
    ensures e in Gate(s, who, now).executions && Gate(s, who, now).executions[e] == s.executions[e]
  {
  }

  lemma ProbeSurvivesOthers(s: System, ev: Event, e: Id, g: nat)
    requires Enabled(s, ev) && !ev.action.Fail? && !ev.action.EnterGate? && ev.who != e
    requires e in s.executions && HoldsProbeOf(s.executions[e], g)
    ensures e in Step(s, ev).executions && HoldsProbeOf(Step(s, ev).executions[e], g)
    ensures Step(s, ev).executions[e].pc == s.executions[e].pc
  {
  }

  lemma ProbeSurvivesOwnStep(s: System, ev: Event, e: Id, g: nat)
    requires Inv(s) && Enabled(s, ev) && !EndsProbe(ev, e) && ev.who == e
    requires e in s.executions && HoldsProbeOf(s.executions[e], g)
    ensures e in Step(s, ev).executions && HoldsProbeOf(Step(s, ev).executions[e], g)
    ensures CallProbe(s.executions[e]).None? ==> CallProbe(Step(s, ev).executions[e]).None?
  {
    assert ProbeOk(s, e, s.executions[e]);
  }

  lemma ProbeSurvivesStep(s: System, ev: Event, e: Id, g: nat)
    requires Inv(s) && Enabled(s, ev) && !EndsProbe(ev, e)
    requires e in s.executions && HoldsProbeOf(s.executions[e], g)
    ensures e in Step(s, ev).executions && HoldsProbeOf(Step(s, ev).executions[e], g)
    ensures CallProbe(s.executions[e]).None? ==> CallProbe(Step(s, ev).executions[e]).None?
  {
    if ev.who == e {
      ProbeSurvivesOwnStep(s, ev, e, g);
    } else {
      if ev.action.Fail? {
        ProbeSurvivesFail(s, ev, e, g);
      } else if ev.action.EnterGate? {
        ProbeSurvivesGate(s, ev.who, ev.at, e);
      } else {
        ProbeSurvivesOthers(s, ev, e, g);
      }
    }
  }

  /**
   Once issued, a probe permit stays current until its own holder resolves or abandons it, through any run of
   the other executions.
   */
  lemma {:induction false} ProbePermitStays(s: System, evs: seq<Event>, e: Id, g: nat)
    requires Inv(s) && IsRun(s, evs)
    requires forall ev | ev in evs :: !EndsProbe(ev, e)
    requires e in s.executions && HoldsProbeOf(s.executions[e], g)
    ensures Inv(After(s, evs)) && e in After(s, evs).executions
    ensures HoldsProbeOf(After(s, evs).executions[e], g) && IsCurrent(After(s, evs), e, Probe(g))
    decreases |evs|
  {
    if evs == [] {
      assert ProbeOk(s, e, s.executions[e]);
    } else {
      ProbeSurvivesStep(s, evs[0], e, g);
      StepKeepsInv(s, evs[0]);
      ProbePermitStays(Step(s, evs[0]), evs[1..], e, g);
    }
  }

  /** An attempt admitted before the episode opened cannot touch it: at most its execution joins the waiters. */
  lemma StaleResolutionChangesNothing(c: Config, evs: seq<Event>, s: System, e: Id, error: Error, draw: real,
                                      retryAfter: Option<real>, now: real, later: real)
    requires ValidConfig(c) && IsRun(Init(c), evs) && s == After(Init(c), evs)
    requires e in s.executions && s.executions[e].pc.Idle? && Unresolved(s.executions[e])
    requires !IsCurrent(s, e, s.executions[e].attempt.value.permit)
    ensures s.executions[e].attempt.value.permit.Normal? && s.episode.Some?
    ensures AcceptAttempt(s, e).episode == s.episode
    ensures CorrectAttempt(s, e, error, now).episode == s.episode
    ensures FailAttempt(s, e, error, false, draw, retryAfter, now, later).episode == s.episode
    ensures CloseAttempt(s, e).episode == s.episode && CloseAttempt(s, e).executions[e].orphans == s.executions[e].orphans
    ensures var s' := FailAttempt(s, e, error, true, draw, retryAfter, now, later);
            && s'.nextGeneration == s.nextGeneration
            && s'.episode == Some(s.episode.value.(waiters := s'.episode.value.waiters))
            && s'.episode.value.waiters ==
                 (if CanAttempt(s.config, s.executions[e]) && s.episode.value.terminalUntil.None?
                  then s.episode.value.waiters + {e} else s.episode.value.waiters)
            && (forall i | i in s.executions && i != e :: s'.executions[i] == s.executions[i])
    ensures CanAttempt(s.config, s.executions[e]) && s.episode.value.terminalUntil.Some? ==>
              var x := FailAttempt(s, e, error, true, draw, retryAfter, now, later).executions[e];
              x.state.Failed? && x.lastFailure == Some(s.episode.value.lastError)
  {
    InitInv(c);
    RunKeepsInv(Init(c), evs);
    assert ProbeOk(s, e, s.executions[e]);
  }

  // ---------------------------------------------------------------- claims

  /** Does this event claim a new attempt? */
  predicate Claims(s: System, ev: Event)
    requires Enabled(s, ev)
  {
    ev.who in s.executions && Step(s, ev).executions[ev.who].started != s.executions[ev.who].started
  }

  /** Every other region leaves every attempt count alone. */
  lemma OnlyResumeClaims(s: System, ev: Event)
    requires Enabled(s, ev)
    ensures Step(s, ev).config == s.config
    ensures forall e :: Started(Step(s, ev), e) == Started(s, e) || (ev.action.Resume? && e == ev.who)
  {
    forall e | !(ev.action.Resume? && e == ev.who) ensures Started(Step(s, ev), e) == Started(s, e) {
      if ev.action.Fail? && Unresolved(s.executions[ev.who]) {
        FailKeepsCounts(s, ev, e);
      }
    }
  }

  lemma FailKeepsCounts(s: System, ev: Event, e: Id)
    requires Enabled(s, ev) && ev.action.Fail?
    ensures Started(Step(s, ev), e) == Started(s, e)
  {
  }

  lemma ResumeCountsUp(s: System, ev: Event)
    requires Enabled(s, ev) && ev.action.Resume?
    ensures var x, x' := s.executions[ev.who], Step(s, ev).executions[ev.who];
            || x'.started == x.started
            || (x'.started == x.started + 1 <= s.config.maxAttempts &&
                x'.attempt.Some? && x'.attempt.value.ordinal == x.started + 1)
  {
  }

  /** While an episode is open, every claimed attempt is a probe of that generation, claimed by its leader. */
  lemma ClaimDuringEpisodeIsProbe(s: System, ev: Event)
    requires Inv(s) && Enabled(s, ev) && Claims(s, ev)
    ensures ev.action.Resume? && Step(s, ev).episode == s.episode
    ensures s.episode.Some? ==>
              && s.episode.value.leader == Some(ev.who)
              && s.episode.value.terminalUntil.None?
              && AttemptProbe(Step(s, ev).executions[ev.who]) == Some(s.episode.value.generation)
  {
    OnlyResumeClaims(s, ev);
    assert Started(Step(s, ev), ev.who) != Started(s, ev.who);
    ClaimIsProbe(s, ev.who);
  }

  lemma ClaimIsProbe(s: System, e: Id)
    requires Inv(s) && e in s.executions && s.executions[e].pc.Granted?
    requires ClaimAttempt(s, e).executions[e].started != s.executions[e].started
    ensures ClaimAttempt(s, e).episode == s.episode
    ensures s.episode.Some? ==>
              && s.episode.value.leader == Some(e)
              && s.episode.value.terminalUntil.None?
              && AttemptProbe(ClaimAttempt(s, e).executions[e]) == Some(s.episode.value.generation)
  {
  }

  /** While a claimed probe is neither resolved nor abandoned, nobody claims anything. */
  lemma NoClaimBeforeProbeResolves(s: System, evs: seq<Event>, ev: Event, e: Id, g: nat)
    requires Inv(s) && IsRun(s, evs) && Enabled(After(s, evs), ev)
    requires forall x | x in evs :: !EndsProbe(x, e)
    requires e in s.executions && AttemptProbe(s.executions[e]) == Some(g)
    ensures !Claims(After(s, evs), ev)
  {
    ProbePermitStays(s, evs, e, g);
    ProbeLeavesCall(s, evs, e, g);
    var s' := After(s, evs);
    if Claims(s', ev) {
      ClaimDuringEpisodeIsProbe(s', ev);
      assert ProbeOk(s', e, s'.executions[e]);
    }
  }

  /** A probe that was claimed never goes back to being an unclaimed permit. */
  lemma {:induction false} ProbeLeavesCall(s: System, evs: seq<Event>, e: Id, g: nat)
    requires Inv(s) && IsRun(s, evs) && forall x | x in evs :: !EndsProbe(x, e)
    requires e in s.executions && HoldsProbeOf(s.executions[e], g) && CallProbe(s.executions[e]).None?
    ensures Inv(After(s, evs)) && e in After(s, evs).executions && CallProbe(After(s, evs).executions[e]).None?
    decreases |evs|
  {
    if evs != [] {
      ProbeSurvivesStep(s, evs[0], e, g);
      StepKeepsInv(s, evs[0]);
      ProbeLeavesCall(Step(s, evs[0]), evs[1..], e, g);
    }
  }

  /** A slot holder with a current permit is refused its claim exactly when exhaustion has failed it meanwhile. */
  lemma ClaimRefusedIffFailed(c: Config, evs: seq<Event>, s: System, e: Id)
    requires ValidConfig(c) && IsRun(Init(c), evs) && s == After(Init(c), evs)
    requires e in s.executions && s.executions[e].pc.Granted? && IsCurrent(s, e, s.executions[e].pc.permit)
    ensures ClaimAttempt(s, e).executions[e].started == s.executions[e].started <==> s.executions[e].state.Failed?
  {
    InitInv(c);
    RunKeepsInv(Init(c), evs);
  }

  // ---------------------------------------------------------------- backoff and terminal windows

  /** Recovery is closed to everybody until `until`: it backs off before a probe, or its exhaustion still holds. */
  ghost predicate ClosedUntil(s: System, g: nat, until: real) {
    && s.episode.Some? && s.episode.value.generation == g
    && (if s.episode.value.terminalUntil.Some?
        then s.episode.value.terminalUntil.value == until
        else !s.episode.value.probeActive && s.episode.value.readyAt == until)
  }

  function Started(s: System, e: Id): nat {
    if e in s.executions then s.executions[e].started else 0
  }

  lemma ClosedStep(s: System, ev: Event, g: nat, until: real)
    requires Inv(s) && Enabled(s, ev) && ClosedUntil(s, g, until) && EventEnd(ev) < until
    ensures ClosedUntil(Step(s, ev), g, until)
    ensures forall e :: Started(Step(s, ev), e) == Started(s, e)
  {
    var e := ev.who;
    if !ev.action.Start? {
      assert SleeperOk(s, e, s.executions[e].pc) && ProbeOk(s, e, s.executions[e]);
      assert !HoldsProbe(s.executions[e]);
    }
    if ev.action.Fail? {
      ClosedFail(s, ev, g, until);
    } else if ev.action.EnterGate? {
      ClosedGate(s, e, ev.at, g, until);
    } else if ev.action.Resume? {
      assert !IsCurrent(s, e, s.executions[e].pc.permit);
    }
    OnlyResumeClaims(s, ev);
  }

  lemma ClosedFail(s: System, ev: Event, g: nat, until: real)
    requires Inv(s) && Enabled(s, ev) && ClosedUntil(s, g, until) && ev.action.Fail?
    requires !HoldsProbe(s.executions[ev.who])
    ensures ClosedUntil(Step(s, ev), g, until)
  {
  }

  lemma ClosedGate(s: System, e: Id, now: real, g: nat, until: real)
    requires Inv(s) && ClosedUntil(s, g, until) && e in s.executions && s.executions[e].pc.AtLock? && now < until
    ensures ClosedUntil(Gate(s, e, now), g, until)
  {
  }

  /**
   No attempt at all is claimed before a recovery is due: neither before the episode's ready_at, whoever leads it
   and whoever is cancelled meanwhile, nor before terminal_until.
   */
  lemma {:induction false} NothingStartsBefore(s: System, evs: seq<Event>, g: nat, until: real)
    requires Inv(s) && IsRun(s, evs) && ClosedUntil(s, g, until)
    requires After(s, evs).clock < until
    ensures ClosedUntil(After(s, evs), g, until)
    ensures forall e :: Started(After(s, evs), e) == Started(s, e)
    decreases |evs|
  {
    if evs != [] {
      ClockAdvances(Step(s, evs[0]), evs[1..]);
      ClosedStep(s, evs[0], g, until);
      StepKeepsInv(s, evs[0]);
      NothingStartsBefore(Step(s, evs[0]), evs[1..], g, until);
    }
  }

  lemma {:induction false} ClockAdvances(s: System, evs: seq<Event>)
    requires IsRun(s, evs)
    ensures After(s, evs).clock >= s.clock
    decreases |evs|
  {
    if evs != [] {
      ClockAdvances(Step(s, evs[0]), evs[1..]);
    }
  }

  /** A retryable failure that opens or continues a recovery closes the provider for the whole backoff delay. */
  lemma FailureBacksOff(c: Config, evs: seq<Event>, s: System, ev: Event)
    requires ValidConfig(c) && IsRun(Init(c), evs) && s == After(Init(c), evs)
    requires Enabled(s, ev) && ev.action.Fail? && ev.action.retryable && Unresolved(s.executions[ev.who])
    requires CanAttempt(s.config, s.executions[ev.who])
    requires s.episode.None? || s.executions[ev.who].attempt.value.permit.Probe?
    ensures var delay := RetryDelay(s.config, s.executions[ev.who].started, ev.action.draw, ev.action.retryAfter);
            && Step(s, ev).episode.Some?
            && Step(s, ev).episode.value.leader == Some(ev.who)
            && ClosedUntil(Step(s, ev), Step(s, ev).episode.value.generation, ev.at + delay)
  {
    InitInv(c);
    RunKeepsInv(Init(c), evs);
    assert ProbeOk(s, ev.who, s.executions[ev.who]);
  }

  /** A probe permit is issued only to the leader, and only once its episode is due. */
  lemma ProbeIssuedOnlyWhenReady(c: Config, evs: seq<Event>, s: System, ev: Event)
    requires ValidConfig(c) && IsRun(Init(c), evs) && s == After(Init(c), evs)
    requires Enabled(s, ev) && ev.who in s.executions
    requires CallProbe(s.executions[ev.who]).None? && CallProbe(Step(s, ev).executions[ev.who]).Some?
    ensures Step(s, ev).episode.Some? && Step(s, ev).episode.value.leader == Some(ev.who)
    ensures ev.at >= Step(s, ev).episode.value.readyAt
    ensures s.episode.Some? && (s.episode.value.terminalUntil.Some? ==> ev.at >= s.episode.value.terminalUntil.value)
  {
    InitInv(c);
    RunKeepsInv(Init(c), evs);
    OnlyGateIssues(s, ev);
    if ev.action.EnterGate? {
      GateIssues(s, ev.who, ev.at);
    } else {
      assert SleeperOk(s, ev.who, s.executions[ev.who].pc);
    }
  }

  lemma OnlyGateIssues(s: System, ev: Event)
    requires Inv(s) && Enabled(s, ev) && ev.who in s.executions
    requires CallProbe(s.executions[ev.who]).None? && CallProbe(Step(s, ev).executions[ev.who]).Some?
    ensures ev.action.EnterGate? || ev.action.WakeLeader?
  {
    if ev.action.Fail? {
      FailLeavesIdle(s, ev);
    }
  }

  lemma FailLeavesIdle(s: System, ev: Event)
    requires Enabled(s, ev) && ev.action.Fail?
    ensures Step(s, ev).executions[ev.who].pc.Idle?
  {
  }

  lemma GateIssues(s: System, e: Id, now: real)
    requires e in s.executions && s.executions[e].pc.AtLock? && CallProbe(Gate(s, e, now).executions[e]).Some?
    ensures Gate(s, e, now).episode.Some? && Gate(s, e, now).episode.value.leader == Some(e)
    ensures now >= Gate(s, e, now).episode.value.readyAt
    ensures s.episode.Some? && (s.episode.value.terminalUntil.Some? ==> now >= s.episode.value.terminalUntil.value)
  {
  }

  lemma RetryDelayBounds(c: Config, attempt: nat, draw: real, retryAfter: Option<real>)
    requires ValidConfig(c) && 0.0 <= draw <= c.jitter
    ensures var d := RetryDelay(c, attempt, draw, retryAfter);
            && d >= c.baseDelay
            && (retryAfter.Some? ==> d >= retryAfter.value)
            && (d <= c.maxDelay + c.jitter || (retryAfter.Some? && d == retryAfter.value))
            && RetryDelay(c, attempt + 1, draw, retryAfter) >= d
  {
    BackoffBounds(c, attempt);
  }

  lemma BackoffBounds(c: Config, attempt: nat)
    requires ValidConfig(c)
    ensures c.baseDelay <= Backoff(c, attempt) <= c.maxDelay
    ensures Backoff(c, attempt) <= Backoff(c, attempt + 1)
  {
    var exponent := if attempt == 0 then 0 else attempt - 1;
    Power2Positive(exponent);
    ScaleUp(c.baseDelay, 1.0, Power2(exponent) as real);
    ScaleUp(c.baseDelay, Power2(exponent) as real, Power2(exponent + 1) as real);
  }

  /** The backoff starts at the base delay and doubles with every further attempt until it reaches the maximum. */
  lemma BackoffDoubles(c: Config, attempt: nat)
    requires ValidConfig(c)
    ensures attempt <= 1 ==> Backoff(c, attempt) == c.baseDelay
    ensures attempt >= 1 ==> Backoff(c, attempt + 1) == Min(2.0 * Backoff(c, attempt), c.maxDelay)
  {
    if attempt >= 1 {
      BackoffBounds(c, attempt);
      DoubleScales(c.baseDelay, Power2(attempt - 1));
    }
  }

  lemma DoubleScales(x: real, n: nat)
    ensures x * ((2 * n) as real) == 2.0 * (x * (n as real))
  {
    assert (2 * n) as real == 2.0 * (n as real);
  }

  lemma ScaleUp(x: real, a: real, b: real)
    requires x >= 0.0 && a <= b
    ensures x * a <= x * b
  {
  }

  lemma {:induction false} Power2Positive(n: nat)
    ensures Power2(n) >= 1
  {
    if n > 0 { Power2Positive(n - 1); }
  }

  // ---------------------------------------------------------------- the ends of leads and recoveries

  /** At a leaderless gate the next execution takes the lead: as the probe if recovery is due, else to sleep until then. */
  lemma VacantLeadIsTaken(c: Config, evs: seq<Event>, s: System, e: Id, now: real)
    requires ValidConfig(c) && IsRun(Init(c), evs) && s == After(Init(c), evs)
    requires e in s.executions && s.executions[e].pc.AtLock?
    requires s.episode.Some? && s.episode.value.leader.None? && s.episode.value.terminalUntil.None?
    ensures var ep, s' := s.episode.value, Gate(s, e, now);
            && s'.episode.Some? && s'.episode.value.generation == ep.generation
            && s'.episode.value.leader == Some(e) && e !in s'.episode.value.waiters
            && s'.executions[e].pc == (if ep.readyAt <= now then Admitting(Probe(ep.generation))
                                       else Sleeping(ep.generation, ep.readyAt))
            && (ep.readyAt <= now ==> IsCurrent(s', e, Probe(ep.generation)))
  {
    InitInv(c);
    RunKeepsInv(Init(c), evs);
  }

  /** A terminal episode has no leader, no probe, no waiters, and nobody asleep or holding a probe in it. */
  lemma TerminalEpisodeIsEmpty(c: Config, evs: seq<Event>, s: System, e: Id)
    requires ValidConfig(c) && IsRun(Init(c), evs) && s == After(Init(c), evs)
    requires s.episode.Some? && s.episode.value.terminalUntil.Some? && e in s.executions
    ensures s.episode.value.leader.None? && s.episode.value.waiters == {} && !s.episode.value.probeActive
    ensures !HoldsProbe(s.executions[e]) && !s.executions[e].pc.Sleeping? && !s.executions[e].pc.DroppingLead?
  {
    InitInv(c);
    RunKeepsInv(Init(c), evs);
    assert ProbeOk(s, e, s.executions[e]) && SleeperOk(s, e, s.executions[e].pc);
  }

  ghost predicate SameOutcome(x: Execution, x': Execution) {
    x'.state == x.state && x'.lastFailure == x.lastFailure && x'.started == x.started
  }

  lemma FinishedStep(s: System, ev: Event, e: Id)
    requires Enabled(s, ev) && e in s.executions && !s.executions[e].state.Active?
    ensures e in Step(s, ev).executions && SameOutcome(s.executions[e], Step(s, ev).executions[e])
  {
    if ev.action.Fail? {
      FinishedFail(s, ev, e);
    }
  }

  lemma FinishedFail(s: System, ev: Event, e: Id)
    requires Enabled(s, ev) && ev.action.Fail? && e in s.executions && !s.executions[e].state.Active?
    ensures e in Step(s, ev).executions && SameOutcome(s.executions[e], Step(s, ev).executions[e])
  {
  }

  /** Terminal states absorb: a finished execution keeps its outcome and its error and never claims again. */
  lemma {:induction false} FinishedForever(s: System, evs: seq<Event>, e: Id)
    requires IsRun(s, evs) && e in s.executions && !s.executions[e].state.Active?
    ensures e in After(s, evs).executions && SameOutcome(s.executions[e], After(s, evs).executions[e])
    decreases |evs|
  {
    if evs != [] {
      FinishedStep(s, evs[0], e);
      FinishedForever(Step(s, evs[0]), evs[1..], e);
    }
  }

  ghost predicate GenerationFresh(s: System, s': System) {
    && s'.nextGeneration >= s.nextGeneration
    && (s'.episode.Some? ==>
          || s'.episode.value.generation >= s.nextGeneration
          || (s.episode.Some? && s'.episode.value.generation == s.episode.value.generation))
  }

  lemma GenerationStep(s: System, ev: Event)
    requires Enabled(s, ev)
    ensures GenerationFresh(s, Step(s, ev))
  {
    if ev.action.Fail? {
      GenerationFail(s, ev);
    }
  }

  lemma GenerationFail(s: System, ev: Event)
    requires Enabled(s, ev) && ev.action.Fail?
    ensures GenerationFresh(s, Step(s, ev))
  {
  }

  /** Every episode opened later has a generation never used before. */
  lemma {:induction false} GenerationsIncrease(s: System, evs: seq<Event>)
    requires Inv(s) && IsRun(s, evs)
    ensures After(s, evs).nextGeneration >= s.nextGeneration
    ensures After(s, evs).episode.Some? ==>
              || After(s, evs).episode.value.generation >= s.nextGeneration
              || (s.episode.Some? && After(s, evs).episode.value.generation == s.episode.value.generation < s.nextGeneration)
    decreases |evs|
  {
    if evs != [] {
      GenerationStep(s, evs[0]);
      StepKeepsInv(s, evs[0]);
      GenerationsIncrease(Step(s, evs[0]), evs[1..]);
    }
  }

  /** Only a cancelled close can make an execution meet its own running probe at the gate. */
  lemma OwnProbeMetOnlyAfterCancelledClose(c: Config, evs: seq<Event>, s: System, e: Id)
    requires ValidConfig(c) && IsRun(Init(c), evs) && s == After(Init(c), evs)
    requires e in s.executions && s.executions[e].pc.AtLock?
    requires s.episode.Some? && s.episode.value.leader == Some(e) && s.episode.value.probeActive
    ensures s.executions[e].orphans == {s.episode.value.generation}
  {
    InitInv(c);
    RunKeepsInv(Init(c), evs);
    assert ProbeOk(s, e, s.executions[e]);
  }

  // ---------------------------------------------------------------- slots and budgets

  /** Free permits, slots handed over but not yet claimed, and unclosed attempts always add up. */
  lemma SlotConservation(c: Config, evs: seq<Event>)
    requires ValidConfig(c) && IsRun(Init(c), evs)
    ensures var s := After(Init(c), evs);
            && s.free + |set e | e in s.executions && s.executions[e].pc.Granted?|
                      + |set e | e in s.executions && s.executions[e].attempt.Some?| == c.maxConcurrency
  {
    InitInv(c);
    RunKeepsInv(Init(c), evs);
    ConfigStays(Init(c), evs);
    var s := After(Init(c), evs);
    var granted := set e | e in s.executions && s.executions[e].pc.Granted?;
    var open := set e | e in s.executions && s.executions[e].attempt.Some?;
    assert Occupiers(s) == granted + open && granted !! open;
  }

  lemma {:induction false} ConfigStays(s: System, evs: seq<Event>)
    requires IsRun(s, evs)
    ensures After(s, evs).config == s.config
    decreases |evs|
  {
    if evs != [] {
      ConfigStays(Step(s, evs[0]), evs[1..]);
    }
  }

  /** The ordinal of the attempt that this event claims for `e`, if it does. */
  function ClaimOrdinal(s: System, ev: Event, e: Id): seq<nat>
    requires Enabled(s, ev)
  {
    if ev.who == e && Claims(s, ev) && Step(s, ev).executions[e].attempt.Some?
    then [Step(s, ev).executions[e].attempt.value.ordinal] else []
  }

  /** The ordinals of the attempts `e` claims in a run, in order. */
  function ClaimOrdinals(s: System, evs: seq<Event>, e: Id): seq<nat>
    requires IsRun(s, evs)
    decreases |evs|
  {
    if evs == [] then [] else ClaimOrdinal(s, evs[0], e) + ClaimOrdinals(Step(s, evs[0]), evs[1..], e)
  }

  function Numbered(from: nat, to: nat): seq<nat>
    requires from <= to
  {
    seq(to - from, i => from + 1 + i)
  }

  lemma NumberedJoins(from: nat, middle: nat, to: nat)
    requires from <= middle <= to
    ensures Numbered(from, middle) + Numbered(middle, to) == Numbered(from, to)
  {
  }

  lemma OrdinalStep(s: System, ev: Event, e: Id)
    requires Inv(s) && Enabled(s, ev)
    ensures Step(s, ev).config == s.config
    ensures Started(s, e) <= Started(Step(s, ev), e) <= s.config.maxAttempts
    ensures ClaimOrdinal(s, ev, e) == Numbered(Started(s, e), Started(Step(s, ev), e))
  {
    OnlyResumeClaims(s, ev);
    if ev.action.Resume? {
      ResumeCountsUp(s, ev);
    }
  }

  /** The attempts of one execution are numbered 1, 2, 3, ... and never exceed its budget. */
  lemma {:induction false} OrdinalsCountUp(s: System, evs: seq<Event>, e: Id)
    requires Inv(s) && IsRun(s, evs)
    ensures Started(s, e) <= Started(After(s, evs), e) <= s.config.maxAttempts
    ensures ClaimOrdinals(s, evs, e) == Numbered(Started(s, e), Started(After(s, evs), e))
    decreases |evs|
  {
    if evs != [] {
      var s' := Step(s, evs[0]);
      StepKeepsInv(s, evs[0]);
      OrdinalStep(s, evs[0], e);
      OrdinalsCountUp(s', evs[1..], e);
      NumberedJoins(Started(s, e), Started(s', e), Started(After(s, evs), e));
    }
  }
}
