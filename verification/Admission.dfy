/**
 The objects of the admission controller, with the fields the source updates in place. Each method is one
 await-free region; its postcondition says that the objects then show exactly the state that the matching
 function of AdmissionModel gives, so what is proved about runs of that model holds of these objects.
 */
module Admission {
  import opened Options
  import opened AdmissionModel
  import opened AdmissionInvariant

  /** What one turn at the recovery gate tells the caller to do. */
  datatype GateOutcome = Permitted(permit: Permit) | Exhausted(error: Error) | MustWait | MustSleep(delay: real)

  /** The answer of the gate fits where the caller's task is now suspended. */
  ghost predicate Tells(pc: Pc, outcome: GateOutcome, now: real) {
    match outcome
    case Permitted(p) => pc == Admitting(p)
    case Exhausted(_) => pc.Idle?
    case MustWait => pc.Waiting? || pc.WaitingOwnProbe?
    case MustSleep(delay) => pc.Sleeping? && delay > 0.0 && pc.until == now + delay
  }

  datatype FailureDecision = FailureDecision(retryable: bool, retryAllowed: bool)

  /** One logical provider operation and its physical-attempt budget. */
  class ProviderExecution {
    const id: Id
    const maxAttempts: nat
    var attemptsStarted: nat
    var activeClaim: Option<nat>
    var lastFailure: Option<Error>
    var state: ExecutionState

    /** Where this execution's task is suspended, what it spawned, and the attempt it has open. */
    ghost var pc: Pc
    ghost var orphans: set<nat>
    ghost var held: ProviderAttempt?

    ghost function View(): Execution
      reads this, held
    {
      Execution(state, attemptsStarted, activeClaim, lastFailure,
                if held == null then None else Some(held.View()), pc, orphans)
    }

    constructor (id: Id, maxAttempts: nat)
      ensures this.id == id && this.maxAttempts == maxAttempts && View() == NewExecution() && held == null
    {
      this.id, this.maxAttempts := id, maxAttempts;
      attemptsStarted, activeClaim, lastFailure, state := 0, None, None, Active;
      pc, orphans, held := Idle, {}, null;
    }

    predicate CanAttemptNow()
      reads this
    {
      state == Active && attemptsStarted < maxAttempts
    }

    method Fail(error: Error)
      modifies this
      ensures View() == FailExecution(old(View()), error) && held == old(held)
    {
      if state == Active {
        lastFailure := Some(error);
        state := Failed;
      }
    }

    method RecordFailure(error: Error)
      modifies this
      ensures View() == AdmissionModel.RecordFailure(old(View()), error) && held == old(held)
    {
      if state == Active {
        lastFailure := Some(error);
      }
    }

    /** succeed(), fail(reason) or abandon(), called by the execution's owner. */
    method Finish(outcome: ExecutionState, reason: Error)
      modifies this
      ensures View() == MarkFinished(old(View()), outcome, reason) && held == old(held)
    {
      match outcome {
        case Active =>
        case Failed => Fail(reason);
        case _ =>
          if state == Active {
            state := outcome;
          }
      }
    }
  }

  /** One admitted upstream attempt and its held concurrency slot. */
  class ProviderAttempt {
    const controller: ProviderAdmissionController
    const execution: ProviderExecution
    const permit: Permit
    const ordinal: nat
    var resolved: bool
    var accepted: bool
    var closed: bool

    ghost function View(): Attempt
      reads this
    {
      Attempt(permit, ordinal, resolved, accepted, closed)
    }

    constructor (controller: ProviderAdmissionController, execution: ProviderExecution, permit: Permit, ordinal: nat)
      ensures this.controller == controller && this.execution == execution
      ensures View() == Attempt(permit, ordinal, false, false, false)
    {
      this.controller, this.execution, this.permit, this.ordinal := controller, execution, permit, ordinal;
      resolved, accepted, closed := false, false, false;
    }

    /** This attempt is the one its execution has open, and its owner is not inside another call. */
    ghost predicate Open()
      reads this, execution, controller, controller.executions.Values, controller.Attempts(), controller.episode
    {
      controller.Valid() && controller.Owns(execution) && execution.pc.Idle? && execution.held == this && !closed
    }

    /** The updates of one execution below, each seen as a change of the controller's view. */
    method SetResolved(accepted: bool)
      requires controller.Valid() && controller.Owns(execution) && execution.held == this
      modifies this`resolved, this`accepted
      ensures controller.Valid() && controller.Owns(execution)
      ensures controller.View() ==
                Put(old(controller.View()), execution.id,
                    AdmissionModel.Resolve(old(controller.View()).executions[execution.id], accepted))
    {
      resolved, this.accepted := true, accepted;
      controller.OnlyExecutionChanged(execution);
    }

    method Resolve(accepted: bool)
      requires Open()
      modifies this`resolved, this`accepted
      ensures Open()
      ensures controller.View() ==
                Put(old(controller.View()), execution.id,
                    AdmissionModel.Resolve(old(controller.View()).executions[execution.id], accepted))
    {
      SetResolved(accepted);
    }

    method RecordFailure(error: Error)
      requires Open()
      modifies execution
      ensures Open()
      ensures controller.View() ==
                Put(old(controller.View()), execution.id,
                    AdmissionModel.RecordFailure(old(controller.View()).executions[execution.id], error))
    {
      execution.RecordFailure(error);
      controller.OnlyExecutionChanged(execution);
    }

    method FailExecution(error: Error)
      requires Open()
      modifies execution
      ensures Open()
      ensures controller.View() ==
                Put(old(controller.View()), execution.id,
                    AdmissionModel.FailExecution(old(controller.View()).executions[execution.id], error))
    {
      execution.Fail(error);
      controller.OnlyExecutionChanged(execution);
    }

    method Accept()
      requires closed || Open()
      modifies this, controller`episode
      ensures old(closed) ==> unchanged(this) && unchanged(controller)
      ensures !old(closed) ==> Open() && controller.View() == AcceptAttempt(old(controller.View()), execution.id)
    {
      if resolved || closed {
        return;
      }
      controller.CloseMatchingEpisode(execution, permit);
      Resolve(true);
    }

    /** RETRY (true) while the budget lasts, FINAL (false) otherwise. */
    method Correct(error: Error, now: real) returns (retry: bool)
      requires closed || Open()
      modifies this, execution, controller`episode, controller.episode
      ensures old(closed) ==> !retry && unchanged(this, execution, controller)
      ensures !old(closed) ==> Open() && controller.View() == CorrectAttempt(old(controller.View()), execution.id, error, now)
      ensures !old(closed) ==> (retry <==> !old(resolved) && old(execution.CanAttemptNow()))
    {
      if resolved || closed {
        return false;
      }
      RecordFailure(error);
      retry := execution.CanAttemptNow();
      if retry {
        controller.AttemptCorrected(execution, permit, now);
      } else {
        CloseAndFail(error);
      }
      Resolve(false);
    }

    method CloseAndFail(error: Error)
      requires Open()
      modifies execution, controller`episode
      ensures Open()
      ensures var s := CloseEpisode(old(controller.View()), execution.id, permit);
              controller.View() == Put(s, execution.id, AdmissionModel.FailExecution(s.executions[execution.id], error))
    {
      controller.CloseMatchingEpisode(execution, permit);
      FailExecution(error);
    }

    /** A failure that is not retryable is final. */
    method Reject(error: Error)
      requires Open() && !resolved
      modifies this, execution, controller`episode
      ensures Open()
      ensures forall draw, retryAfter, now, later :: controller.View() ==
                FailAttempt(old(controller.View()), execution.id, error, false, draw, retryAfter, now, later)
    {
      RecordFailure(error);
      CloseAndFail(error);
      Resolve(false);
    }

    /** A retryable failure coordinates recovery, and fails the execution if no retry is left. */
    method Retry(error: Error, draw: real, retryAfter: Option<real>, now: real, later: real) returns (retryAllowed: bool)
      requires Open() && !resolved
      modifies this, execution, controller`episode, controller`nextGeneration, controller.episode,
               if controller.episode != null then controller.episode.waiters else {}
      ensures Open() && retryAllowed == execution.CanAttemptNow()
      ensures controller.View() ==
                FailAttempt(old(controller.View()), execution.id, error, true, draw, retryAfter, now, later)
    {
      RecordFailure(error);
      controller.AttemptFailed(execution, permit, error, draw, retryAfter, now, later);
      retryAllowed := SettleRetry(error);
    }

    method SettleRetry(error: Error) returns (retryAllowed: bool)
      requires Open()
      modifies this, execution
      ensures Open() && retryAllowed == execution.CanAttemptNow()
      ensures controller.View() == SettleFailure(old(controller.View()), execution.id, error, true)
    {
      retryAllowed := execution.CanAttemptNow();
      if !retryAllowed {
        FailExecution(error);
      }
      Resolve(false);
    }

    /** The immutable decision: was the failure retryable, and may this execution try again? */
    method Fail(error: Error, retryable: bool, draw: real, retryAfter: Option<real>, now: real, later: real)
      returns (decision: FailureDecision)
      requires closed || Open()
      modifies this, execution, controller`episode, controller`nextGeneration, controller.episode,
               if controller.episode != null then controller.episode.waiters else {}
      ensures old(closed) ==> unchanged(this, execution, controller) && decision == FailureDecision(false, false)
      ensures !old(closed) ==>
                Open() && controller.View() ==
                            FailAttempt(old(controller.View()), execution.id, error, retryable, draw, retryAfter, now, later)
      ensures !old(closed) && !old(resolved) ==>
                decision == FailureDecision(retryable, retryable && execution.CanAttemptNow())
    {
      if resolved || closed {
        return FailureDecision(false, false);
      }
      if !retryable {
        Reject(error);
        return FailureDecision(false, false);
      }
      var retryAllowed := Retry(error, draw, retryAfter, now, later);
      return FailureDecision(true, retryAllowed);
    }

    /** aclose() up to its first suspension: release a resolved attempt, or spawn the abandonment of an open one. */
    method BeginClose()
      requires closed || Open()
      modifies this`closed, execution, controller`freeSlots
      ensures old(closed) ==> unchanged(this, execution, controller)
      ensures !old(closed) ==> closed && controller.Valid() && controller.Owns(execution)
      ensures !old(closed) ==> controller.View() == CloseAttempt(old(controller.View()), execution.id)
    {
      if closed {
        return;
      }
      MarkClosed();
      if resolved {
        Release();
      } else {
        SpawnAbandonment();
      }
    }

    method MarkClosed()
      requires Open()
      modifies `closed
      ensures closed && controller.Valid()
      ensures var s := old(controller.View());
              var x := s.executions[execution.id];
              controller.View() == Put(s, execution.id, x.(attempt := Some(x.attempt.value.(closed := true))))
    {
      closed := true;
      controller.OnlyExecutionChanged(execution);
    }

    method SpawnAbandonment()
      requires controller.Valid() && controller.Owns(execution) && execution.held == this
      modifies execution`orphans, execution`pc
      ensures controller.Valid()
      ensures controller.View() == AdmissionModel.SpawnAbandonment(old(controller.View()), execution.id)
    {
      if permit.Probe? {
        execution.orphans := execution.orphans + {permit.generation};
      }
      execution.pc := Closing;
      controller.OnlyExecutionChanged(execution);
    }

    /** The end of aclose(), reached exactly once per attempt. */
    method FinishClose()
      requires controller.Valid() && controller.Owns(execution) && execution.held == this && execution.pc.Closing?
      modifies this`resolved, this`accepted, execution, controller`freeSlots
      ensures controller.Valid() && controller.View() == EndClose(old(controller.View()), execution.id)
    {
      SetResolved(false);
      Release();
    }

    method Release()
      requires controller.Valid() && controller.Owns(execution) && execution.held == this
      modifies execution, controller`freeSlots
      ensures controller.Valid() && controller.Owns(execution)
      ensures controller.View() == ReleaseSlot(old(controller.View()), execution.id)
    {
      if execution.activeClaim == Some(ordinal) {
        execution.activeClaim := None;
      }
      execution.held := null;
      execution.pc := Idle;
      controller.freeSlots := controller.freeSlots + 1;
      controller.OneExecutionChanged(execution);
    }
  }

  class RecoveryEpisode {
    const generation: nat
    var leader: ProviderExecution?
    var readyAt: real
    var lastError: Error
    var waiters: set<ProviderExecution>
    var probeActive: bool
    var terminalUntil: Option<real>

    ghost function View(): Episode
      reads this
    {
      Episode(generation, if leader == null then None else Some(leader.id), readyAt, lastError,
              set w | w in waiters :: w.id, probeActive, terminalUntil)
    }

    constructor (generation: nat, leader: ProviderExecution?, readyAt: real, lastError: Error)
      ensures this.generation == generation && this.leader == leader && waiters == {}
      ensures View() == Episode(generation, if leader == null then None else Some(leader.id), readyAt, lastError, {},
                                false, None)
    {
      this.generation, this.leader, this.readyAt, this.lastError := generation, leader, readyAt, lastError;
      waiters, probeActive, terminalUntil := {}, false, None;
    }

    method Exhaust(error: Error, until: real)
      modifies this
      ensures waiters == old(waiters)
      ensures View() == old(View()).(lastError := error, leader := None, probeActive := false, terminalUntil := Some(until))
    {
      lastError, leader, probeActive, terminalUntil := error, null, false, Some(until);
    }

    method ClearWaiters()
      modifies `waiters
      ensures waiters == {} && View() == old(View()).(waiters := {})
    {
      waiters := {};
    }

    method AddWaiter(e: ProviderExecution)
      modifies `waiters
      ensures waiters == old(waiters) + {e} && View() == old(View()).(waiters := old(View()).waiters + {e.id})
    {
      waiters := waiters + {e};
      assert (set w | w in waiters :: w.id) == (set w | w in old(waiters) :: w.id) + {e.id};
    }

    /** A waiter leaves; no other waiter may carry its identity. */
    method RemoveWaiter(e: ProviderExecution)
      requires forall w | w in waiters && w.id == e.id :: w == e
      modifies `waiters
      ensures waiters == old(waiters) - {e} && View() == old(View()).(waiters := old(View()).waiters - {e.id})
    {
      waiters := waiters - {e};
      assert (set w | w in waiters :: w.id) == (set w | w in old(waiters) :: w.id) - {e.id};
    }
  }

  class ProviderAdmissionController {
    const config: Config
    var episode: RecoveryEpisode?
    var nextGeneration: nat
    var freeSlots: nat

    /** Every execution this controller started, by identity. */
    ghost var executions: map<Id, ProviderExecution>
    ghost var clock: real

    ghost function Attempts(): set<ProviderAttempt?>
      reads this, executions.Values
    {
      set i | i in executions :: executions[i].held
    }

    ghost predicate Owns(e: ProviderExecution)
      reads this
    {
      e.id in executions && executions[e.id] == e
    }

    ghost predicate Valid()
      reads this, executions.Values, Attempts(), episode
    {
      && (forall i | i in executions ::
            executions[i].id == i && executions[i].maxAttempts == config.maxAttempts &&
            (executions[i].held != null ==> executions[i].held.execution == executions[i]))
      && (episode != null ==>
            (episode.leader != null ==> Owns(episode.leader)) && forall w | w in episode.waiters :: Owns(w))
    }

    ghost function View(): System
      reads this, executions.Values, Attempts(), episode
    {
      System(config, if episode == null then None else Some(episode.View()), nextGeneration, freeSlots,
             map i | i in executions :: executions[i].View(), clock)
    }

    constructor (config: Config)
      ensures Valid() && View() == Init(config)
    {
      this.config := config;
      episode, nextGeneration, freeSlots := null, 1, config.maxConcurrency;
      executions, clock := map[], 0.0;
    }

    /** Changing one execution, with its attempt, changes its entry of the view and no other. */
    twostate lemma OneExecutionChanged(e: ProviderExecution)
      requires old(Valid()) && executions == old(executions) && e.id in executions && executions[e.id] == e
      requires forall i | i in executions && i != e.id ::
                 unchanged(executions[i]) && (executions[i].held != null ==> unchanged(executions[i].held))
      ensures View().executions == old(View().executions)[e.id := e.View()]
    {
    }

    /** ... and when the controller's own fields did not change either, nothing else of the view did. */
    twostate lemma OnlyExecutionChanged(e: ProviderExecution)
      requires old(Valid()) && unchanged(this) && e.id in executions && executions[e.id] == e
      requires forall i | i in executions && i != e.id ::
                 unchanged(executions[i]) && (executions[i].held != null ==> unchanged(executions[i].held))
      requires episode != null ==> unchanged(episode)
      requires e.held == null || e.held.execution == e
      ensures Valid() && View() == Put(old(View()), e.id, e.View())
    {
      OneExecutionChanged(e);
    }

    twostate lemma OnlyEpisodeChanged()
      requires old(Valid()) && unchanged(this) && episode != null
      requires forall i | i in executions ::
                 unchanged(executions[i]) && (executions[i].held != null ==> unchanged(executions[i].held))
      ensures View() == old(View()).(episode := Some(episode.View()))
    {
    }

    twostate lemma OneExecutionAdded(new e: ProviderExecution)
      requires old(Valid()) && e.id !in old(executions) && executions == old(executions)[e.id := e]
      requires e.held == null && e.maxAttempts == config.maxAttempts
      requires unchanged(`episode, `nextGeneration, `freeSlots, `clock)
      requires forall i | i in old(executions) ::
                 unchanged(executions[i]) && (executions[i].held != null ==> unchanged(executions[i].held))
      requires episode != null ==> unchanged(episode)
      ensures Valid() && View() == Put(old(View()), e.id, e.View())
    {
      assert View().executions == old(View().executions)[e.id := e.View()];
    }

    method StartExecution(id: Id) returns (e: ProviderExecution)
      requires Valid() && id !in executions
      modifies this
      ensures Valid() && Owns(e) && fresh(e)
      ensures View() == Put(old(View()), id, NewExecution())
    {
      e := new ProviderExecution(id, config.maxAttempts);
      executions := executions[id := e];
      OneExecutionAdded(e);
    }

    method OpenAttempt(e: ProviderExecution) returns (raised: bool)
      requires Valid() && Owns(e) && e.pc.Idle?
      modifies e`pc
      ensures Valid() && View() == AdmissionModel.OpenAttempt(old(View()), e.id)
      ensures raised <==> e.pc.Idle?
    {
      raised := !e.CanAttemptNow() || e.activeClaim.Some?;
      if !raised {
        e.pc := AtLock;
      }
      OneExecutionChanged(e);
    }

    predicate MatchingProbe(e: ProviderExecution, p: Permit)
      requires Valid() && Owns(e)
      reads this, executions.Values, Attempts(), episode
      ensures MatchingProbe(e, p) == Matching(View(), e.id, p)
    {
      p.Probe? && episode != null && episode.generation == p.generation && episode.leader == e && episode.probeActive
    }

    predicate PermitIsCurrent(e: ProviderExecution, p: Permit)
      requires Valid() && Owns(e)
      reads this, executions.Values, Attempts(), episode
      ensures PermitIsCurrent(e, p) == IsCurrent(View(), e.id, p)
    {
      if p.Normal? then episode == null else MatchingProbe(e, p) && episode.terminalUntil.None?
    }

    /** _attempt_accepted and _attempt_rejected: a matching probe closes its episode. */
    method CloseMatchingEpisode(e: ProviderExecution, p: Permit)
      requires Valid() && Owns(e)
      modifies `episode
      ensures Valid() && View() == CloseEpisode(old(View()), e.id, p)
    {
      if MatchingProbe(e, p) {
        episode := null;
      }
    }

    method AttemptCorrected(e: ProviderExecution, p: Permit, now: real)
      requires Valid() && Owns(e)
      modifies episode
      ensures Valid() && View() == ReopenProbe(old(View()), e.id, p, now)
    {
      if MatchingProbe(e, p) {
        episode.probeActive := false;
        episode.readyAt := now;
      }
    }

    /** _abandon_probe_permit and _attempt_abandoned. */
    method AbandonMatchingProbe(e: ProviderExecution, p: Permit, now: real)
      requires Valid() && Owns(e)
      modifies episode
      ensures Valid() && View() == AbandonProbe(old(View()), e.id, p, now)
    {
      if MatchingProbe(e, p) {
        episode.leader := null;
        episode.probeActive := false;
        episode.readyAt := now;
      }
    }

    method StartRecoveryEpisode(leader: ProviderExecution?, readyAt: real, lastError: Error)
      requires Valid() && (leader != null ==> Owns(leader))
      modifies `episode, `nextGeneration
      ensures Valid() && episode != null && fresh(episode) && episode.leader == leader && episode.waiters == {}
      ensures View() == StartEpisode(old(View()), if leader == null then None else Some(leader.id), readyAt, lastError)
    {
      episode := new RecoveryEpisode(nextGeneration, leader, readyAt, lastError);
      nextGeneration := nextGeneration + 1;
    }

    method AttemptFailed(e: ProviderExecution, p: Permit, error: Error, draw: real, retryAfter: Option<real>, now: real,
                         later: real)
      requires Valid() && Owns(e)
      modifies e, `episode, `nextGeneration, episode, if episode != null then episode.waiters else {}
      ensures Valid() && View() == AdmissionModel.AttemptFailed(old(View()), e.id, p, error, draw, retryAfter, now, later)
      ensures forall i | i in executions ::
                executions[i].held == old(executions[i].held) && executions[i].pc == old(executions[i].pc)
    {
      var delay := RetryDelay(config, e.attemptsStarted, draw, retryAfter);
      if e.CanAttemptNow() {
        CoordinateRetry(e, p, error, delay, now);
      } else if episode == null || MatchingProbe(e, p) {
        if episode == null {
          StartRecoveryEpisode(null, now, error);
        }
        ExhaustEpisode(error, later + delay);
      }
    }

    method CoordinateRetry(e: ProviderExecution, p: Permit, error: Error, delay: real, now: real)
      requires Valid() && Owns(e)
      modifies e, `episode, `nextGeneration, episode
      ensures Valid() && View() == AdmissionModel.CoordinateRetry(old(View()), e.id, p, error, delay, now)
      ensures e.held == old(e.held) && e.pc == old(e.pc)
    {
      if episode == null {
        StartRecoveryEpisode(e, now + delay, error);
      } else if MatchingProbe(e, p) {
        episode.lastError := error;
        episode.probeActive := false;
        episode.readyAt := now + delay;
      } else if episode.terminalUntil.Some? {
        e.Fail(episode.lastError);
        OnlyExecutionChanged(e);
      } else {
        episode.AddWaiter(e);
      }
    }

    /** The loop over the waiters: each of them fails with the same error. */
    method FailEach(all: set<ProviderExecution>, error: Error)
      modifies all
      ensures forall w | w in all :: w.View() == FailExecution(old(w.View()), error)
      ensures forall w | w in all :: w.held == old(w.held) && w.pc == old(w.pc)
    {
      var rest := all;
      while rest != {}
        invariant rest <= all
        invariant forall w | w in all ::
            w.View() == if w in rest then old(w.View()) else FailExecution(old(w.View()), error)
        invariant forall w | w in all :: w.held == old(w.held) && w.pc == old(w.pc)
        decreases |rest|
      {
        var w :| w in rest;
        w.Fail(error);
        rest := rest - {w};
      }
    }

    /** Nobody else changes. */
    method FailWaiters(all: set<ProviderExecution>, error: Error)
      requires Valid() && forall w | w in all :: Owns(w)
      modifies all
      ensures Valid()
      ensures View() == old(View()).(executions := FailAll(old(View()).executions, set w | w in all :: w.id, error))
      ensures forall w | w in all :: w.held == old(w.held) && w.pc == old(w.pc)
    {
      FailEach(all, error);
    }

    /** The open episode turns terminal, and everybody waiting in it fails with the same error. */
    method ExhaustEpisode(error: Error, until: real)
      requires Valid() && episode != null
      modifies episode, episode.waiters
      ensures Valid() && episode == old(episode)
      ensures View() == old(View()).(
                  episode := Some(old(View()).episode.value.(lastError := error, leader := None, probeActive := false,
                                                             terminalUntil := Some(until), waiters := {})),
                  executions := FailAll(old(View()).executions, old(View()).episode.value.waiters, error))
      ensures forall i | i in executions ::
                executions[i].held == old(executions[i].held) && executions[i].pc == old(executions[i].pc)
    {
      episode.Exhaust(error, until);
      OnlyEpisodeChanged();
      FailWaiters(episode.waiters, error);
      label Failed:
      episode.ClearWaiters();
      OnlyEpisodeChanged@Failed();
    }

    /** The end of an open_attempt loop turn: a failed execution raises, any other queues for the lock again. */
    method LoopTop(e: ProviderExecution) returns (raised: bool)
      requires Valid() && Owns(e)
      modifies e`pc
      ensures Valid() && View() == AdmissionModel.LoopTop(old(View()), e.id)
      ensures raised <==> e.pc.Idle?
    {
      raised := e.state == Failed;
      e.pc := if raised then Idle else AtLock;
      OnlyExecutionChanged(e);
    }

    /** The locked region of _wait_for_gate. */
    method EnterGate(e: ProviderExecution, now: real) returns (outcome: GateOutcome)
      requires Valid() && Owns(e) && e.pc.AtLock?
      modifies `episode, `nextGeneration, episode, e`pc
      ensures Valid() && View() == Gate(old(View()), e.id, now)
      ensures Tells(e.pc, outcome, now) && (outcome.Exhausted? ==> outcome.error == old(View()).episode.value.lastError)
    {
      if episode == null {
        e.pc := Admitting(Normal);
        OnlyExecutionChanged(e);
        return Permitted(Normal);
      }
      if episode.terminalUntil.Some? {
        if now < episode.terminalUntil.value {
          e.pc := Idle;
          OnlyExecutionChanged(e);
          return Exhausted(episode.lastError);
        }
        StartRecoveryEpisode(e, now, episode.lastError);
        outcome := LeadAtGate(e, now);
      } else if episode.leader == null {
        TakeLead(e);
        outcome := LeadAtGate(e, now);
      } else if episode.leader == e {
        outcome := LeadAtGate(e, now);
      } else {
        JoinWaiters(e);
        outcome := MustWait;
      }
    }

    method TakeLead(e: ProviderExecution)
      requires Valid() && Owns(e) && episode != null
      modifies episode
      ensures Valid() && View() == old(View()).(
                  episode := Some(old(View()).episode.value.(leader := Some(e.id),
                                                             waiters := old(View()).episode.value.waiters - {e.id})))
    {
      episode.leader := e;
      episode.RemoveWaiter(e);
    }

    method JoinWaiters(e: ProviderExecution)
      requires Valid() && Owns(e) && episode != null
      modifies episode`waiters, e`pc
      ensures Valid() && e.pc.Waiting?
      ensures var ep := old(View()).episode.value;
              View() == SetPc(old(View()).(episode := Some(ep.(waiters := ep.waiters + {e.id}))), e.id,
                              Waiting(ep.generation))
    {
      episode.AddWaiter(e);
      e.pc := Waiting(episode.generation);
      OneExecutionChanged(e);
    }

    method LeadAtGate(e: ProviderExecution, now: real) returns (outcome: GateOutcome)
      requires Valid() && Owns(e) && episode != null
      modifies episode`probeActive, e`pc
      ensures Valid() && View() == LeaderAtGate(old(View()), e.id, now)
      ensures Tells(e.pc, outcome, now) && !outcome.Exhausted?
    {
      if episode.probeActive {
        e.pc := WaitingOwnProbe;
        outcome := MustWait;
      } else {
        var delay := Max(0.0, episode.readyAt - now);
        if delay == 0.0 {
          episode.probeActive := true;
          e.pc := Admitting(Probe(episode.generation));
          outcome := Permitted(Probe(episode.generation));
        } else {
          e.pc := Sleeping(episode.generation, now + delay);
          outcome := MustSleep(delay);
        }
      }
      OneExecutionChanged(e);
    }

    /** After its backoff sleep the leader takes the lock again and claims the probe if it is still its to claim. */
    method LeaderWakes(e: ProviderExecution, claimed: nat) returns (permit: Option<Permit>)
      requires Valid() && Owns(e) && e.pc.Sleeping? && e.pc.episode == claimed
      modifies episode, e`pc
      ensures Valid() && View() == AdmissionModel.LeaderWakes(old(View()), e.id)
      ensures permit.Some? ==> e.pc == Admitting(permit.value)
    {
      if episode != null && episode.generation == claimed && episode.terminalUntil.None? && episode.leader == e &&
         !episode.probeActive
      {
        episode.probeActive := true;
        e.pc := Admitting(Probe(claimed));
        permit := Some(Probe(claimed));
      } else {
        e.pc := if e.state == Failed then Idle else AtLock;
        permit := None;
      }
      OneExecutionChanged(e);
    }

    /** _abandon_waiting_leader. */
    method AbandonWaitingLeader(e: ProviderExecution, claimed: nat)
      requires Valid() && Owns(e) && e.pc == DroppingLead(claimed)
      modifies episode, e`pc
      ensures Valid() && View() == DropLeadership(old(View()), e.id)
    {
      if episode != null && episode.generation == claimed && episode.leader == e && !episode.probeActive {
        episode.leader := null;
      }
      e.pc := Idle;
      OneExecutionChanged(e);
    }

    /** The condition that acquire_if evaluates when rate capacity is there. */
    method AdmitRate(e: ProviderExecution, permit: Permit) returns (admitted: bool)
      requires Valid() && Owns(e) && e.pc == Admitting(permit)
      modifies e`pc
      ensures Valid() && View() == AdmissionModel.AdmitRate(old(View()), e.id)
      ensures admitted <==> e.pc == Queued(permit)
    {
      admitted := PermitIsCurrent(e, permit);
      e.pc := if admitted then Queued(permit) else GivingUp(permit, true);
      OnlyExecutionChanged(e);
    }

    /** The semaphore hands a free slot to a queued call. */
    method GrantSlot(e: ProviderExecution, permit: Permit)
      requires Valid() && Owns(e) && e.pc == Queued(permit) && freeSlots > 0
      modifies `freeSlots, e`pc
      ensures Valid() && View() == AdmissionModel.GrantSlot(old(View()), e.id)
    {
      freeSlots := freeSlots - 1;
      e.pc := Granted(permit);
      OneExecutionChanged(e);
    }

    /** The tail of open_attempt, once the slot is held: re-check the permit and claim, or hand the slot back. */
    method ClaimAttempt(e: ProviderExecution, permit: Permit) returns (attempt: ProviderAttempt?)
      requires Valid() && Owns(e) && e.pc == Granted(permit)
      modifies `freeSlots, e
      ensures Valid() && View() == AdmissionModel.ClaimAttempt(old(View()), e.id)
      ensures attempt != null ==>
                fresh(attempt) && e.held == attempt && attempt.permit == permit && attempt.ordinal == e.attemptsStarted &&
                attempt.controller == this
      ensures attempt == null ==> e.pc.GivingUp?
    {
      if !PermitIsCurrent(e, permit) {
        ReturnSlot(e, permit, true);
        return null;
      }
      if !e.CanAttemptNow() || e.activeClaim.Some? {
        ReturnSlot(e, permit, false);
        return null;
      }
      attempt := NewAttempt(e, permit);
    }

    method ReturnSlot(e: ProviderExecution, permit: Permit, again: bool)
      requires Valid() && Owns(e)
      modifies `freeSlots, e`pc
      ensures Valid() && e.pc == GivingUp(permit, again)
      ensures var s := old(View()); View() == SetPc(s.(free := s.free + 1), e.id, GivingUp(permit, again))
    {
      freeSlots := freeSlots + 1;
      e.pc := GivingUp(permit, again);
      OneExecutionChanged(e);
    }

    method NewAttempt(e: ProviderExecution, permit: Permit) returns (attempt: ProviderAttempt)
      requires Valid() && Owns(e)
      modifies e
      ensures fresh(attempt) && attempt.execution == e && attempt.controller == this && attempt.permit == permit
      ensures e.held == attempt && attempt.ordinal == e.attemptsStarted && Valid()
      ensures var x := old(View()).executions[e.id];
              View() == Put(old(View()), e.id,
                            x.(started := x.started + 1, activeClaim := Some(x.started + 1),
                               attempt := Some(Attempt(permit, x.started + 1, false, false, false)), pc := Idle))
    {
      e.attemptsStarted := e.attemptsStarted + 1;
      e.activeClaim := Some(e.attemptsStarted);
      attempt := new ProviderAttempt(this, e, permit, e.attemptsStarted);
      e.held := attempt;
      e.pc := Idle;
      OnlyExecutionChanged(e);
    }

    /** _abandon_probe_permit, after which the call either goes round again or raises. */
    method GiveUpPermit(e: ProviderExecution, permit: Permit, again: bool, now: real)
      requires Valid() && Owns(e) && e.pc == GivingUp(permit, again)
      modifies episode, e`pc
      ensures Valid() && View() == AdmissionModel.GiveUpPermit(old(View()), e.id, now)
    {
      AbandonMatchingProbe(e, permit, now);
      label Abandoned:
      e.pc := if again && e.state != Failed then AtLock else Idle;
      OnlyExecutionChanged@Abandoned(e);
    }

    /** CancelledError in a follower's wait: it leaves the waiters of the episode it joined. */
    method CancelWaiting(e: ProviderExecution, joined: nat)
      requires Valid() && Owns(e) && e.pc == Waiting(joined)
      modifies episode, e`pc
      ensures Valid() && View() == CancelCall(old(View()), e.id)
    {
      if episode != null && episode.generation == joined {
        episode.RemoveWaiter(e);
      }
      e.pc := Idle;
      OneExecutionChanged(e);
    }

    /** CancelledError while a permit is held: a slot already handed over goes back, then the permit is given up. */
    method CancelHolding(e: ProviderExecution, permit: Permit, slotAcquired: bool)
      requires Valid() && Owns(e)
      requires if slotAcquired then e.pc == Granted(permit) else e.pc == Admitting(permit) || e.pc == Queued(permit)
      modifies `freeSlots, e`pc
      ensures Valid() && View() == CancelCall(old(View()), e.id) && e.pc == GivingUp(permit, false)
    {
      if slotAcquired {
        freeSlots := freeSlots + 1;
      }
      e.pc := GivingUp(permit, false);
      OneExecutionChanged(e);
    }

    /** CancelledError with nothing held: a sleeping leader still has to give up leading, any other just raises. */
    method CancelPlain(e: ProviderExecution)
      requires Valid() && Owns(e) && (e.pc.AtLock? || e.pc.WaitingOwnProbe? || e.pc.Sleeping?)
      modifies e`pc
      ensures Valid() && View() == CancelCall(old(View()), e.id)
    {
      e.pc := if e.pc.Sleeping? then DroppingLead(e.pc.episode) else Idle;
      OnlyExecutionChanged(e);
    }

    /** The shielded _attempt_abandoned, whenever it gets the lock. */
    method RunOrphan(e: ProviderExecution, generation: nat, now: real)
      requires Valid() && Owns(e) && generation in e.orphans
      modifies episode, e`orphans
      ensures Valid() && View() == OrphanRuns(old(View()), e.id, generation, now)
    {
      AbandonMatchingProbe(e, Probe(generation), now);
      label Abandoned:
      e.orphans := e.orphans - {generation};
      OnlyExecutionChanged@Abandoned(e);
    }
  }
}
