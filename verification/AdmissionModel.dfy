/**
 The coordinated recovery protocol of one provider, as a transition system.

 Every function below is one await-free region of ProviderExecution, ProviderAttempt or
 ProviderAdmissionController: nothing else can run inside it. What a suspended call was doing is its
 `Pc`, and `Step` runs one region of one execution, so a list of events is one interleaving.
 */
module AdmissionModel {
  import opened Options

  /** Identity of one ProviderExecution (uuid4 values are taken to be distinct). */
  type Id = nat

  /** Identity of one exception object. */
  type Error = nat

  datatype Config = Config(maxConcurrency: nat, maxAttempts: nat, baseDelay: real, maxDelay: real, jitter: real)

  /** The configurations the controller's constructor accepts. */
  predicate ValidConfig(c: Config) {
    c.maxConcurrency > 0 && c.maxAttempts > 0 && 0.0 <= c.baseDelay <= c.maxDelay && 0.0 <= c.jitter
  }

  datatype ExecutionState = Active | Succeeded | Failed | Abandoned

  datatype Permit = Normal | Probe(generation: nat)

  /** Where an execution's single task is suspended. `again` says whether the admission loop goes round. */
  datatype Pc =
    | Idle
    | AtLock
    | Waiting(episode: nat)
    | WaitingOwnProbe
    | Sleeping(episode: nat, until: real)
    | DroppingLead(episode: nat)
    | Admitting(permit: Permit)
    | Queued(permit: Permit)
    | Granted(permit: Permit)
    | GivingUp(permit: Permit, again: bool)
    | Closing

  datatype Attempt = Attempt(permit: Permit, ordinal: nat, resolved: bool, accepted: bool, closed: bool)

  /** `orphans` holds the probe generations whose shielded abandonment has been spawned but has not run. */
  datatype Execution = Execution(
    state: ExecutionState,
    started: nat,
    activeClaim: Option<nat>,
    lastFailure: Option<Error>,
    attempt: Option<Attempt>,
    pc: Pc,
    orphans: set<nat>)

  datatype Episode = Episode(
    generation: nat,
    leader: Option<Id>,
    readyAt: real,
    lastError: Error,
    waiters: set<Id>,
    probeActive: bool,
    terminalUntil: Option<real>)

  datatype System = System(
    config: Config,
    episode: Option<Episode>,
    nextGeneration: nat,
    free: nat,
    executions: map<Id, Execution>,
    clock: real)

  datatype Action =
    | Start
    | Open
    | EnterGate
    | Wake
    | WakeLeader
    | DropLead
    | Admit
    | Grant
    | Resume
    | GiveUp
    | Cancel
    | Accept
    | Correct(error: Error)
    | Fail(error: Error, retryable: bool, draw: real, retryAfter: Option<real>, later: real)
    | Close
    | RunOrphan(generation: nat)
    | FinishClose
    | Finish(outcome: ExecutionState, reason: Error)

  datatype Event = Event(who: Id, action: Action, at: real)

  function Init(c: Config): System {
    System(c, None, 1, c.maxConcurrency, map[], 0.0)
  }

  function NewExecution(): Execution {
    Execution(Active, 0, None, None, None, Idle, {})
  }

  // ---------------------------------------------------------------- ProviderExecution

  predicate CanAttempt(c: Config, x: Execution) {
    x.state.Active? && x.started < c.maxAttempts
  }

  function RecordFailure(x: Execution, error: Error): Execution {
    if x.state.Active? then x.(lastFailure := Some(error)) else x
  }

  function FailExecution(x: Execution, error: Error): Execution {
    if x.state.Active? then x.(lastFailure := Some(error), state := Failed) else x
  }

  /** The owner's own terminal marking: succeed(), fail(reason) or abandon(). */
  function MarkFinished(x: Execution, outcome: ExecutionState, reason: Error): Execution {
    match outcome
    case Active => x
    case Failed => FailExecution(x, reason)
    case _ => if x.state.Active? then x.(state := outcome) else x
  }

  function Resolve(x: Execution, accepted: bool): Execution
    requires x.attempt.Some?
  {
    x.(attempt := Some(x.attempt.value.(resolved := true, accepted := accepted)))
  }

  function ReleaseClaim(x: Execution): Execution
    requires x.attempt.Some?
  {
    x.(attempt := None,
       activeClaim := if x.activeClaim == Some(x.attempt.value.ordinal) then None else x.activeClaim,
       pc := Idle)
  }

  predicate Unresolved(x: Execution) {
    x.attempt.Some? && !x.attempt.value.resolved && !x.attempt.value.closed
  }

  // ---------------------------------------------------------------- controller predicates

  function Power2(n: nat): nat {
    if n == 0 then 1 else 2 * Power2(n - 1)
  }

  function Min(a: real, b: real): real { if a <= b then a else b }

  function Max(a: real, b: real): real { if a >= b then a else b }

  function Backoff(c: Config, attempt: nat): real {
    var exponent := if attempt == 0 then 0 else attempt - 1;
    Min(c.baseDelay * (Power2(exponent) as real), c.maxDelay)
  }

  /** `draw` is the random jitter; `retryAfter` the server's parsed Retry-After. */
  function RetryDelay(c: Config, attempt: nat, draw: real, retryAfter: Option<real>): real {
    Max(Backoff(c, attempt) + draw, if retryAfter.Some? then retryAfter.value else 0.0)
  }

  predicate Matching(s: System, e: Id, p: Permit) {
    p.Probe? && s.episode.Some? && s.episode.value.generation == p.generation &&
    s.episode.value.leader == Some(e) && s.episode.value.probeActive
  }

  predicate IsCurrent(s: System, e: Id, p: Permit) {
    match p
    case Normal => s.episode.None?
    case Probe(_) => Matching(s, e, p) && s.episode.value.terminalUntil.None?
  }

  // ---------------------------------------------------------------- regions

  function Put(s: System, e: Id, x: Execution): System {
    s.(executions := s.executions[e := x])
  }

  function SetPc(s: System, e: Id, pc: Pc): System
    requires e in s.executions
  {
    Put(s, e, s.executions[e].(pc := pc))
  }

  function StartEpisode(s: System, leader: Option<Id>, readyAt: real, error: Error): System {
    s.(episode := Some(Episode(s.nextGeneration, leader, readyAt, error, {}, false, None)),
       nextGeneration := s.nextGeneration + 1)
  }

  /** Entry checks of open_attempt; every failing check raises and leaves everything as it was. */
  function OpenAttempt(s: System, e: Id): System
    requires e in s.executions
  {
    var x := s.executions[e];
    if CanAttempt(s.config, x) && x.activeClaim.None? then SetPc(s, e, AtLock) else s
  }

  /** Top of the admission or gate loop: a failed execution raises, any other queues for the lock. */
  function LoopTop(s: System, e: Id): System
    requires e in s.executions
  {
    SetPc(s, e, if s.executions[e].state.Failed? then Idle else AtLock)
  }

  /** A leader at the gate: wait out its own probe, claim the next one, or sleep until it is due. */
  function LeaderAtGate(s: System, e: Id, now: real): System
    requires e in s.executions && s.episode.Some?
  {
    var ep := s.episode.value;
    if ep.probeActive then
      SetPc(s, e, WaitingOwnProbe)
    else
      var delay := Max(0.0, ep.readyAt - now);
      if delay == 0.0 then
        SetPc(s.(episode := Some(ep.(probeActive := true))), e, Admitting(Probe(ep.generation)))
      else
        SetPc(s, e, Sleeping(ep.generation, now + delay))
  }

  /** The locked region of _wait_for_gate. */
  function Gate(s: System, e: Id, now: real): System
    requires e in s.executions
  {
    if s.episode.None? then
      SetPc(s, e, Admitting(Normal))
    else
      var ep := s.episode.value;
      if ep.terminalUntil.Some? then
        if now < ep.terminalUntil.value then
          SetPc(s, e, Idle)
        else
          LeaderAtGate(StartEpisode(s, Some(e), now, ep.lastError), e, now)
      else if ep.leader.None? then
        LeaderAtGate(s.(episode := Some(ep.(leader := Some(e), waiters := ep.waiters - {e}))), e, now)
      else if ep.leader == Some(e) then
        LeaderAtGate(s, e, now)
      else
        SetPc(s.(episode := Some(ep.(waiters := ep.waiters + {e}))), e, Waiting(ep.generation))
  }

  /** The leader's backoff sleep has ended and it holds the lock again. */
  function LeaderWakes(s: System, e: Id): System
    requires e in s.executions && s.executions[e].pc.Sleeping?
  {
    var g := s.executions[e].pc.episode;
    if s.episode.Some? && s.episode.value.generation == g && s.episode.value.terminalUntil.None? &&
       s.episode.value.leader == Some(e) && !s.episode.value.probeActive
    then
      SetPc(s.(episode := Some(s.episode.value.(probeActive := true))), e, Admitting(Probe(g)))
    else
      LoopTop(s, e)
  }

  /** _abandon_waiting_leader, after the sleeping leader was cancelled. */
  function DropLeadership(s: System, e: Id): System
    requires e in s.executions && s.executions[e].pc.DroppingLead?
  {
    var g := s.executions[e].pc.episode;
    var s' := if s.episode.Some? && s.episode.value.generation == g && s.episode.value.leader == Some(e) &&
                 !s.episode.value.probeActive
              then s.(episode := Some(s.episode.value.(leader := None)))
              else s;
    SetPc(s', e, Idle)
  }

  /** Rate capacity is there: record the admission only if the permit is still current. */
  function AdmitRate(s: System, e: Id): System
    requires e in s.executions && s.executions[e].pc.Admitting?
  {
    var p := s.executions[e].pc.permit;
    SetPc(s, e, if IsCurrent(s, e, p) then Queued(p) else GivingUp(p, true))
  }

  function GrantSlot(s: System, e: Id): System
    requires e in s.executions && s.executions[e].pc.Queued? && s.free > 0
  {
    SetPc(s.(free := s.free - 1), e, Granted(s.executions[e].pc.permit))
  }

  /** The slot holder runs again: re-check the permit, then claim the attempt. */
  function ClaimAttempt(s: System, e: Id): System
    requires e in s.executions && s.executions[e].pc.Granted?
  {
    var x := s.executions[e];
    var p := x.pc.permit;
    if !IsCurrent(s, e, p) then
      SetPc(s.(free := s.free + 1), e, GivingUp(p, true))
    else if !CanAttempt(s.config, x) || x.activeClaim.Some? then
      SetPc(s.(free := s.free + 1), e, GivingUp(p, false))
    else
      Put(s, e, x.(started := x.started + 1, activeClaim := Some(x.started + 1),
                   attempt := Some(Attempt(p, x.started + 1, false, false, false)), pc := Idle))
  }

  /** _abandon_probe_permit and _attempt_abandoned share this effect on the episode. */
  function AbandonProbe(s: System, e: Id, p: Permit, now: real): System {
    if Matching(s, e, p)
    then s.(episode := Some(s.episode.value.(leader := None, probeActive := false, readyAt := now)))
    else s
  }

  function GiveUpPermit(s: System, e: Id, now: real): System
    requires e in s.executions && s.executions[e].pc.GivingUp?
  {
    var pc := s.executions[e].pc;
    var s' := AbandonProbe(s, e, pc.permit, now);
    if pc.again then LoopTop(s', e) else SetPc(s', e, Idle)
  }

  /** CancelledError at the await where the task is suspended. */
  function CancelCall(s: System, e: Id): System
    requires e in s.executions
  {
    match s.executions[e].pc
    case Waiting(g) =>
      var s' := if s.episode.Some? && s.episode.value.generation == g
                then s.(episode := Some(s.episode.value.(waiters := s.episode.value.waiters - {e})))
                else s;
      SetPc(s', e, Idle)
    case Sleeping(g, _) => SetPc(s, e, DroppingLead(g))
    case Admitting(p) => SetPc(s, e, GivingUp(p, false))
    case Queued(p) => SetPc(s, e, GivingUp(p, false))
    case Granted(p) => SetPc(s.(free := s.free + 1), e, GivingUp(p, false))
    case AtLock => SetPc(s, e, Idle)
    case WaitingOwnProbe => SetPc(s, e, Idle)
    case _ => s
  }

  predicate Cancellable(pc: Pc) {
    pc.AtLock? || pc.Waiting? || pc.WaitingOwnProbe? || pc.Sleeping? || pc.Admitting? || pc.Queued? || pc.Granted?
  }

  function CloseEpisode(s: System, e: Id, p: Permit): System {
    if Matching(s, e, p) then s.(episode := None) else s
  }

  function AcceptAttempt(s: System, e: Id): System
    requires e in s.executions && s.executions[e].attempt.Some?
  {
    var x := s.executions[e];
    if !Unresolved(x) then s
    else Put(CloseEpisode(s, e, x.attempt.value.permit), e, Resolve(x, true))
  }

  /** _attempt_corrected: the probe slot is free again at once. */
  function ReopenProbe(s: System, e: Id, p: Permit, now: real): System {
    if Matching(s, e, p) then s.(episode := Some(s.episode.value.(probeActive := false, readyAt := now))) else s
  }

  function CorrectAttempt(s: System, e: Id, error: Error, now: real): System
    requires e in s.executions && s.executions[e].attempt.Some?
  {
    var p := s.executions[e].attempt.value.permit;
    if !Unresolved(s.executions[e]) then s
    else
      var s1 := Put(s, e, RecordFailure(s.executions[e], error));
      var s2 := if CanAttempt(s1.config, s1.executions[e]) then ReopenProbe(s1, e, p, now)
                else var s' := CloseEpisode(s1, e, p); Put(s', e, FailExecution(s'.executions[e], error));
      Put(s2, e, Resolve(s2.executions[e], false))
  }

  function FailAll(m: map<Id, Execution>, who: set<Id>, error: Error): map<Id, Execution> {
    map i | i in m :: if i in who then FailExecution(m[i], error) else m[i]
  }

  /** A retryable failure with budget left: lead a recovery, keep leading it, or join it. */
  function CoordinateRetry(s: System, e: Id, p: Permit, error: Error, delay: real, now: real): System
    requires e in s.executions
  {
    if s.episode.None? then
      StartEpisode(s, Some(e), now + delay, error)
    else
      var ep := s.episode.value;
      if Matching(s, e, p) then
        s.(episode := Some(ep.(lastError := error, probeActive := false, readyAt := now + delay)))
      else if ep.terminalUntil.Some? then
        Put(s, e, FailExecution(s.executions[e], ep.lastError))
      else
        s.(episode := Some(ep.(waiters := ep.waiters + {e})))
  }

  /** A retryable failure that spent the budget: with no episode, or as its probe, it ends recovery for all. */
  function ExhaustRecovery(s: System, e: Id, p: Permit, error: Error, delay: real, now: real, later: real): System
    requires e in s.executions
  {
    if s.episode.Some? && !Matching(s, e, p) then s
    else
      var s1 := if s.episode.None? then StartEpisode(s, None, now, error) else s;
      var ep := s1.episode.value;
      s1.(episode := Some(ep.(lastError := error, leader := None, probeActive := false,
                              terminalUntil := Some(later + delay), waiters := {})),
          executions := FailAll(s1.executions, ep.waiters, error))
  }

  /** The locked region of _attempt_failed. */
  function AttemptFailed(s: System, e: Id, p: Permit, error: Error, draw: real, retryAfter: Option<real>, now: real,
                         later: real): System
    requires e in s.executions
  {
    var delay := RetryDelay(s.config, s.executions[e].started, draw, retryAfter);
    if CanAttempt(s.config, s.executions[e])
    then CoordinateRetry(s, e, p, error, delay, now)
    else ExhaustRecovery(s, e, p, error, delay, now, later)
  }

  /** The end of fail(): without a retry the execution fails, and the attempt is resolved. */
  function SettleFailure(s: System, e: Id, error: Error, retryable: bool): System
    requires e in s.executions && s.executions[e].attempt.Some?
  {
    var s' := if retryable && CanAttempt(s.config, s.executions[e]) then s
              else Put(s, e, FailExecution(s.executions[e], error));
    Put(s', e, Resolve(s'.executions[e], false))
  }

  function FailAttempt(s: System, e: Id, error: Error, retryable: bool, draw: real, retryAfter: Option<real>,
                       now: real, later: real): System
    requires e in s.executions && s.executions[e].attempt.Some?
  {
    var p := s.executions[e].attempt.value.permit;
    if !Unresolved(s.executions[e]) then s
    else
      var s1 := Put(s, e, RecordFailure(s.executions[e], error));
      SettleFailure(if !retryable then CloseEpisode(s1, e, p)
                    else AttemptFailed(s1, e, p, error, draw, retryAfter, now, later), e, error, retryable)
  }

  function ReleaseSlot(s: System, e: Id): System
    requires e in s.executions && s.executions[e].attempt.Some?
  {
    Put(s.(free := s.free + 1), e, ReleaseClaim(s.executions[e]))
  }

  /** Only a probe's abandonment has anything to do. */
  function SpawnAbandonment(s: System, e: Id): System
    requires e in s.executions && s.executions[e].attempt.Some?
  {
    var x := s.executions[e];
    var p := x.attempt.value.permit;
    Put(s, e, x.(pc := Closing, orphans := if p.Probe? then x.orphans + {p.generation} else x.orphans))
  }

  /** aclose(): a resolved attempt is released at once, an unresolved one spawns its shielded abandonment. */
  function CloseAttempt(s: System, e: Id): System
    requires e in s.executions && s.executions[e].attempt.Some?
  {
    var x := s.executions[e];
    if x.attempt.value.closed then s
    else
      var s' := Put(s, e, x.(attempt := Some(x.attempt.value.(closed := true))));
      if x.attempt.value.resolved then ReleaseSlot(s', e) else SpawnAbandonment(s', e)
  }

  /** The spawned abandonment finally gets the lock. */
  function OrphanRuns(s: System, e: Id, g: nat, now: real): System
    requires e in s.executions
  {
    var s' := AbandonProbe(s, e, Probe(g), now);
    Put(s', e, s'.executions[e].(orphans := s'.executions[e].orphans - {g}))
  }

  /** aclose() resumes, after the abandonment or because it was itself cancelled. */
  function EndClose(s: System, e: Id): System
    requires e in s.executions && s.executions[e].attempt.Some?
  {
    ReleaseSlot(Put(s, e, Resolve(s.executions[e], false)), e)
  }

  // ---------------------------------------------------------------- steps and runs

  /** May a task suspended as `x` run this action next? */
  predicate Ready(s: System, x: Execution, action: Action, at: real) {
    match action
    case Start => false
    case Open => x.pc.Idle?
    case EnterGate => x.pc.AtLock?
    case Wake => x.pc.Waiting? || x.pc.WaitingOwnProbe?
    case WakeLeader => x.pc.Sleeping? && at >= x.pc.until
    case DropLead => x.pc.DroppingLead?
    case Admit => x.pc.Admitting?
    case Grant => x.pc.Queued? && s.free > 0
    case Resume => x.pc.Granted?
    case GiveUp => x.pc.GivingUp?
    case Cancel => Cancellable(x.pc)
    case Accept => x.pc.Idle? && x.attempt.Some?
    case Correct(_) => x.pc.Idle? && x.attempt.Some?
    case Fail(_, _, draw, retryAfter, later) =>
      x.pc.Idle? && x.attempt.Some? && 0.0 <= draw <= s.config.jitter && later >= at &&
      (retryAfter.Some? ==> retryAfter.value >= 0.0)
    case Close => x.pc.Idle? && x.attempt.Some?
    case RunOrphan(g) => g in x.orphans
    case FinishClose => x.pc.Closing? && x.attempt.Some?
    case Finish(_, _) => x.pc.Idle?
  }

  predicate Enabled(s: System, ev: Event) {
    ev.at >= s.clock &&
    if ev.action.Start? then ev.who !in s.executions
    else ev.who in s.executions && Ready(s, s.executions[ev.who], ev.action, ev.at)
  }

  function Act(s: System, ev: Event): System
    requires Enabled(s, ev)
  {
    var e := ev.who;
    match ev.action
    case Start => Put(s, e, NewExecution())
    case Open => OpenAttempt(s, e)
    case EnterGate => Gate(s, e, ev.at)
    case Wake => LoopTop(s, e)
    case WakeLeader => LeaderWakes(s, e)
    case DropLead => DropLeadership(s, e)
    case Admit => AdmitRate(s, e)
    case Grant => GrantSlot(s, e)
    case Resume => ClaimAttempt(s, e)
    case GiveUp => GiveUpPermit(s, e, ev.at)
    case Cancel => CancelCall(s, e)
    case Accept => AcceptAttempt(s, e)
    case Correct(error) => CorrectAttempt(s, e, error, ev.at)
    case Fail(error, retryable, draw, retryAfter, later) =>
      FailAttempt(s, e, error, retryable, draw, retryAfter, ev.at, later)
    case Close => CloseAttempt(s, e)
    case RunOrphan(g) => OrphanRuns(s, e, g, ev.at)
    case FinishClose => EndClose(s, e)
    case Finish(outcome, reason) => Put(s, e, MarkFinished(s.executions[e], outcome, reason))
  }

  function EventEnd(ev: Event): real {
    if ev.action.Fail? then ev.action.later else ev.at
  }

  function Step(s: System, ev: Event): System
    requires Enabled(s, ev)
  {
    Act(s, ev).(clock := EventEnd(ev))
  }

  predicate IsRun(s: System, evs: seq<Event>)
    decreases |evs|
  {
    evs == [] || (Enabled(s, evs[0]) && IsRun(Step(s, evs[0]), evs[1..]))
  }

  function After(s: System, evs: seq<Event>): System
    requires IsRun(s, evs)
    decreases |evs|
  {
    if evs == [] then s else After(Step(s, evs[0]), evs[1..])
  }
}
