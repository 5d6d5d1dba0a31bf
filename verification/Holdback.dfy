/** Holding back the start of a provider's stream so that an early failure can be retried unseen. */
module Holdback {
  import opened Options

  /** The text of an event does not matter, its size when encoded does. */
  datatype Event = Event(id: nat, bytes: nat)

  const EARLY_HOLDBACK_SECONDS: real := 0.75
  const RECOVERY_BUFFER_MAX_BYTES: nat := 65_536

  datatype Buffer = Buffer(events: seq<Event>, startedAt: Option<real>, committed: bool)

  datatype FailureAction = EarlyRetry | MidstreamRecovery | FinalError

  datatype Failing = Failing(
    retryable: bool,
    streamOpened: bool,
    generatedOutput: bool,
    toolSalvageable: bool,
    attemptsRemaining: int)

  datatype Decision = Decision(action: FailureAction, retryable: bool, committed: bool, hasBuffered: bool)

  const EMPTY: Buffer := Buffer([], None, false)

  function Size(events: seq<Event>): nat {
    if events == [] then 0 else Size(events[..|events| - 1]) + events[|events| - 1].bytes
  }

  /** Full, or its first event has waited long enough? `before` and `after` are the clock readings of a push. */
  predicate Releases(b: Buffer, e: Event, before: real, after: real) {
    Size(b.events + [e]) >= RECOVERY_BUFFER_MAX_BYTES ||
    after - (if b.startedAt.Some? then b.startedAt.value else before) >= EARLY_HOLDBACK_SECONDS
  }

  /** The buffer after a push, and what the push lets out. */
  function Pushed(b: Buffer, e: Event, before: real, after: real): (Buffer, seq<Event>) {
    if b.committed then (b, [e])
    else if Releases(b, e, before, after) then (Buffer([], None, true), b.events + [e])
    else (Buffer(b.events + [e], if b.startedAt.Some? then b.startedAt else Some(before), false), [])
  }

  function Flushed(b: Buffer): (Buffer, seq<Event>) {
    if b.committed then (b, []) else (Buffer([], None, true), b.events)
  }

  function Discarded(b: Buffer): Buffer {
    Buffer([], None, b.committed)
  }

  predicate RetriesEarly(f: Failing, committed: bool) {
    f.retryable && f.attemptsRemaining > 0 && f.streamOpened && !committed && !f.toolSalvageable &&
    !(f.generatedOutput && f.attemptsRemaining == 1)
  }

  function Decide(f: Failing, b: Buffer): Decision {
    if RetriesEarly(f, b.committed) then Decision(EarlyRetry, true, false, b.events != [])
    else if f.retryable && f.generatedOutput && (f.attemptsRemaining > 0 || f.toolSalvageable)
    then Decision(MidstreamRecovery, true, b.committed, b.events != [])
    else Decision(FinalError, f.retryable, b.committed, b.events != [])
  }

  function AfterFailure(f: Failing, b: Buffer): Buffer {
    if RetriesEarly(f, b.committed) then EMPTY else b
  }

  // ---------------------------------------------------------------- whole lifecycles

  datatype Action =
    | Push(event: Event, before: real, after: real)
    | Flush
    | Discard
    | Fail(failing: Failing)
    | FlushUncommitted(decision: Decision)

  function Step(b: Buffer, a: Action): (Buffer, seq<Event>) {
    match a
    case Push(e, before, after) => Pushed(b, e, before, after)
    case Flush => Flushed(b)
    case Discard => (Discarded(b), [])
    case Fail(f) => (AfterFailure(f, b), [])
    case FlushUncommitted(d) => if !d.committed && d.hasBuffered then Flushed(b) else (b, [])
  }

  function After(b: Buffer, actions: seq<Action>): Buffer
    decreases |actions|
  {
    if actions == [] then b else After(Step(b, actions[0]).0, actions[1..])
  }

  /** Everything that has been let out, in order, when `released` was before. */
  function ReleasedFrom(b: Buffer, released: seq<Event>, actions: seq<Action>): seq<Event>
    decreases |actions|
  {
    if actions == [] then released else ReleasedFrom(Step(b, actions[0]).0, released + Step(b, actions[0]).1, actions[1..])
  }

  function Released(b: Buffer, actions: seq<Action>): seq<Event> {
    ReleasedFrom(b, [], actions)
  }

  predicate StartsOver(b: Buffer, a: Action) {
    !b.committed && (a.Discard? || (a.Fail? && RetriesEarly(a.failing, b.committed)))
  }

  /** The events pushed since the stream last started over. */
  function KeptNext(b: Buffer, kept: seq<Event>, a: Action): seq<Event> {
    if a.Push? then kept + [a.event] else if StartsOver(b, a) then [] else kept
  }

  function Kept(b: Buffer, kept: seq<Event>, actions: seq<Action>): seq<Event>
    decreases |actions|
  {
    if actions == [] then kept else Kept(Step(b, actions[0]).0, KeptNext(b, kept, actions[0]), actions[1..])
  }

  ghost predicate Inv(b: Buffer, kept: seq<Event>, released: seq<Event>) {
    && released + b.events == kept
    && (if b.committed then b.events == [] else released == [])
    && (b.events != [] ==> Size(b.events) < RECOVERY_BUFFER_MAX_BYTES)
    && (b.events == [] <==> b.startedAt.None?)
  }

  lemma StepKeepsInv(b: Buffer, kept: seq<Event>, released: seq<Event>, a: Action)
    requires Inv(b, kept, released)
    ensures Inv(Step(b, a).0, KeptNext(b, kept, a), released + Step(b, a).1)
  {
    if a.Push? {
      assert released + b.events + [a.event] == released + (b.events + [a.event]);
    }
  }

  lemma {:induction false} RunKeepsInv(b: Buffer, kept: seq<Event>, released: seq<Event>, actions: seq<Action>)
    requires Inv(b, kept, released)
    ensures Inv(After(b, actions), Kept(b, kept, actions), ReleasedFrom(b, released, actions))
    decreases |actions|
  {
    if actions != [] {
      StepKeepsInv(b, kept, released, actions[0]);
      RunKeepsInv(Step(b, actions[0]).0, KeptNext(b, kept, actions[0]), released + Step(b, actions[0]).1, actions[1..]);
    }
  }

  /**
   What has been let out, followed by what is held back, is what was pushed since the stream last started over; and
   what is held back stays below the cap.
   */
  lemma NothingIsLostOrReordered(actions: seq<Action>)
    ensures Released(EMPTY, actions) + After(EMPTY, actions).events == Kept(EMPTY, [], actions)
    ensures Size(After(EMPTY, actions).events) < RECOVERY_BUFFER_MAX_BYTES
  {
    RunKeepsInv(EMPTY, [], [], actions);
  }

  lemma {:induction false} CommitIsPermanent(b: Buffer, actions: seq<Action>)
    requires b.committed
    ensures After(b, actions).committed
    decreases |actions|
  {
    if actions != [] {
      CommitIsPermanent(Step(b, actions[0]).0, actions[1..]);
    }
  }

  lemma {:induction false} RunOfTwo(b: Buffer, xs: seq<Action>, ys: seq<Action>)
    ensures After(b, xs + ys) == After(After(b, xs), ys)
    decreases |xs|
  {
    if xs == [] {
      assert xs + ys == ys;
    } else {
      assert (xs + ys)[1..] == xs[1..] + ys;
      RunOfTwo(Step(b, xs[0]).0, xs[1..], ys);
    }
  }

  /** An early retry is never seen from outside: whenever it is chosen, nothing has been let out before. */
  lemma EarlyRetryIsUnseen(actions: seq<Action>, f: Failing)
    requires Decide(f, After(EMPTY, actions)).action.EarlyRetry?
    ensures Released(EMPTY, actions) == []
  {
    RunKeepsInv(EMPTY, [], [], actions);
  }

  /** After anything has been let out, no later failure is retried early. */
  lemma NoEarlyRetryAfterRelease(actions: seq<Action>, later: seq<Action>, f: Failing)
    requires Released(EMPTY, actions) != []
    ensures !Decide(f, After(EMPTY, actions + later)).action.EarlyRetry?
  {
    RunKeepsInv(EMPTY, [], [], actions);
    RunOfTwo(EMPTY, actions, later);
    CommitIsPermanent(After(EMPTY, actions), later);
  }

  // ---------------------------------------------------------------- when the stream commits, and what is decided

  /** How many bytes the first `k` events of the pushes have. */
  function BytesOf(pushes: seq<Action>, k: nat): nat
    requires k <= |pushes| && forall a | a in pushes :: a.Push?
  {
    if k == 0 then 0 else BytesOf(pushes, k - 1) + pushes[k - 1].event.bytes
  }

  /** With this push the events reach the cap, or the first of them has waited long enough. */
  predicate LetsOut(pushes: seq<Action>, k: nat)
    requires k < |pushes| && forall a | a in pushes :: a.Push?
  {
    BytesOf(pushes, k + 1) >= RECOVERY_BUFFER_MAX_BYTES || pushes[k].after - pushes[0].before >= EARLY_HOLDBACK_SECONDS
  }

  lemma AfterOneMore(pushes: seq<Action>, k: nat)
    requires k < |pushes|
    ensures After(EMPTY, pushes[..k + 1]) == Step(After(EMPTY, pushes[..k]), pushes[k]).0
  {
    assert pushes[..k + 1] == pushes[..k] + [pushes[k]];
    RunOfTwo(EMPTY, pushes[..k], [pushes[k]]);
    assert [pushes[k]][1..] == [];
    var b := After(EMPTY, pushes[..k]);
    assert After(b, [pushes[k]]) == After(Step(b, pushes[k]).0, []);
  }

  lemma {:induction false} CommitsWithin(pushes: seq<Action>, k: nat)
    requires k <= |pushes| && forall a | a in pushes :: a.Push?
    ensures var b := After(EMPTY, pushes[..k]);
            && (b.committed <==> exists i :: 0 <= i < k && LetsOut(pushes, i))
            && (!b.committed ==> Size(b.events) == BytesOf(pushes, k) &&
                                 b.startedAt == if k == 0 then None else Some(pushes[0].before))
  {
    if k > 0 {
      CommitsWithin(pushes, k - 1);
      AfterOneMore(pushes, k - 1);
      var b := After(EMPTY, pushes[..k - 1]);
      assert (b.events + [pushes[k - 1].event])[..|b.events|] == b.events;
      assert After(EMPTY, pushes[..k]).committed <==> b.committed || LetsOut(pushes, k - 1);
      assert (exists i :: 0 <= i < k && LetsOut(pushes, i)) <==>
             LetsOut(pushes, k - 1) || exists i :: 0 <= i < k - 1 && LetsOut(pushes, i);
    }
  }

  /** A stream that starts over commits exactly when its events reach the cap, or its first has been held long enough. */
  lemma CommitsIff(pushes: seq<Action>)
    requires forall a | a in pushes :: a.Push?
    ensures After(EMPTY, pushes).committed <==> exists i :: 0 <= i < |pushes| && LetsOut(pushes, i)
  {
    CommitsWithin(pushes, |pushes|);
    assert pushes[..|pushes|] == pushes;
  }

  /** The step commits the stream whatever is buffered. */
  predicate Flushes(a: Action) {
    a.Flush? || (a.FlushUncommitted? && !a.decision.committed && a.decision.hasBuffered)
  }

  ghost predicate HasFlushed(actions: seq<Action>) {
    exists a :: a in actions && Flushes(a)
  }

  lemma FlushedSplits(actions: seq<Action>)
    requires actions != []
    ensures HasFlushed(actions) <==> Flushes(actions[0]) || HasFlushed(actions[1..])
  {
    assert forall a :: a in actions <==> a == actions[0] || a in actions[1..];
  }

  lemma {:induction false} CommittedFromEvents(b: Buffer, released: seq<Event>, actions: seq<Action>)
    requires !b.committed && released == []
    ensures After(b, actions).committed <==> ReleasedFrom(b, released, actions) != [] || HasFlushed(actions)
    decreases |actions|
  {
    if actions != [] {
      var b' := Step(b, actions[0]).0;
      FlushedSplits(actions);
      if b'.committed {
        CommitIsPermanent(b', actions[1..]);
        ReleasedGrows(b', released + Step(b, actions[0]).1, actions[1..]);
      } else {
        CommittedFromEvents(b', released, actions[1..]);
      }
    }
  }

  lemma {:induction false} ReleasedGrows(b: Buffer, released: seq<Event>, actions: seq<Action>)
    ensures released <= ReleasedFrom(b, released, actions)
    decreases |actions|
  {
    if actions != [] {
      ReleasedGrows(Step(b, actions[0]).0, released + Step(b, actions[0]).1, actions[1..]);
    }
  }

  /** Nothing has been let out, and nobody has asked for it. */
  ghost predicate IsUnseen(actions: seq<Action>) {
    Released(EMPTY, actions) == [] && !HasFlushed(actions)
  }

  /**
   What is decided on a failure, from what happened before: an early retry exactly for a retryable failure of an opened,
   unseen stream with nothing to salvage and attempts to spare; else recovery exactly if there is output and an attempt
   or a complete tool call to go on with.
   */
  lemma DecisionIff(actions: seq<Action>, f: Failing)
    ensures var d := Decide(f, After(EMPTY, actions));
            var early := && f.retryable && f.streamOpened && !f.toolSalvageable && IsUnseen(actions)
                         && f.attemptsRemaining > if f.generatedOutput then 1 else 0;
            var goesOn := f.retryable && f.generatedOutput && (f.attemptsRemaining >= 1 || f.toolSalvageable);
            && (d.action == if early then EarlyRetry else if goesOn then MidstreamRecovery else FinalError)
            && d.retryable == f.retryable && d.committed == !IsUnseen(actions)
            && (d.hasBuffered <==> Released(EMPTY, actions) != Kept(EMPTY, [], actions))
  {
    CommittedFromEvents(EMPTY, [], actions);
    RunKeepsInv(EMPTY, [], [], actions);
    assert Released(EMPTY, actions) + After(EMPTY, actions).events == Kept(EMPTY, [], actions);
  }

  /** Retryable failures of a stream that has generated output, each with one attempt less than the one before. */
  ghost predicate IsDecline(failings: seq<Failing>, budget: nat) {
    forall i | 0 <= i < |failings| ::
      failings[i].retryable && failings[i].generatedOutput && failings[i].attemptsRemaining == budget - i
  }

  /**
   However the buffers look, a row of early retries ends before the attempts do: the last attempt is left for
   recovery, so the first failure that is not retried early is recovered from midstream, not final.
   */
  lemma {:induction false} LastAttemptIsForRecovery(failings: seq<Failing>, buffers: seq<Buffer>, budget: nat, n: nat)
    requires IsDecline(failings, budget) && |buffers| == |failings| && budget > 0
    requires n < |failings| && forall i | 0 <= i < n :: Decide(failings[i], buffers[i]).action.EarlyRetry?
    ensures n < budget
    ensures Decide(failings[n], buffers[n]).action.EarlyRetry? || Decide(failings[n], buffers[n]).action.MidstreamRecovery?
  {
    if n > 0 {
      LastAttemptIsForRecovery(failings, buffers, budget, n - 1);
      assert failings[n - 1].attemptsRemaining == budget - (n - 1);
    }
  }

  // ---------------------------------------------------------------- the objects

  class RecoveryHoldbackBuffer {
    var events: seq<Event>
    var bytes: nat
    var startedAt: Option<real>
    var committed: bool

    ghost function View(): Buffer
      reads this
    {
      Buffer(events, startedAt, committed)
    }

    ghost predicate Valid()
      reads this
    {
      bytes == Size(events) && (committed ==> startedAt.None? && events == [])
    }

    constructor ()
      ensures Valid() && View() == EMPTY
    {
      events, bytes, startedAt, committed := [], 0, None, false;
    }

    method Push(event: Event, before: real, after: real) returns (out: seq<Event>)
      requires Valid()
      modifies this
      ensures Valid() && (View(), out) == Pushed(old(View()), event, before, after)
    {
      if committed {
        return [event];
      }
      if startedAt.None? {
        startedAt := Some(before);
      }
      assert (events + [event])[..|events|] == events;
      events, bytes := events + [event], bytes + event.bytes;
      if bytes >= RECOVERY_BUFFER_MAX_BYTES || after - startedAt.value >= EARLY_HOLDBACK_SECONDS {
        out := Flush();
        return;
      }
      return [];
    }

    method Flush() returns (out: seq<Event>)
      requires Valid()
      modifies this
      ensures Valid() && (View(), out) == Flushed(old(View()))
    {
      if committed {
        return [];
      }
      committed, out := true, events;
      events, bytes, startedAt := [], 0, None;
    }

    method Discard()
      modifies `events, `bytes, `startedAt
      ensures Valid() && View() == Discarded(old(View()))
    {
      events, bytes, startedAt := [], 0, None;
    }
  }

  class RecoveryController {
    var holdback: RecoveryHoldbackBuffer

    constructor ()
      ensures fresh(holdback) && holdback.Valid() && holdback.View() == EMPTY
    {
      holdback := new RecoveryHoldbackBuffer();
    }

    method FlushUncommitted(decision: Decision) returns (out: seq<Event>)
      requires holdback.Valid()
      modifies holdback
      ensures holdback.Valid() && (holdback.View(), out) == Step(old(holdback.View()), Action.FlushUncommitted(decision))
    {
      if !decision.committed && decision.hasBuffered {
        out := holdback.Flush();
        return;
      }
      return [];
    }

    /** An early retry gets a buffer of its own. */
    method AdvanceFailure(f: Failing) returns (decision: Decision)
      requires holdback.Valid()
      modifies this, holdback
      ensures holdback.Valid() && holdback.View() == AfterFailure(f, old(holdback.View()))
      ensures decision == Decide(f, old(holdback.View()))
      ensures decision.action.EarlyRetry? <==> fresh(holdback)
      ensures !decision.action.EarlyRetry? ==> holdback == old(holdback)
    {
      var committed, hasBuffered := holdback.committed, holdback.events != [];
      var retryAvailable := f.attemptsRemaining > 0;
      var reserveLastAttempt := f.generatedOutput && f.attemptsRemaining == 1;
      if f.retryable && retryAvailable && f.streamOpened && !committed && !f.toolSalvageable && !reserveLastAttempt {
        holdback.Discard();
        holdback := new RecoveryHoldbackBuffer();
        return Decision(EarlyRetry, true, false, hasBuffered);
      }
      if f.retryable && f.generatedOutput && (retryAvailable || f.toolSalvageable) {
        return Decision(MidstreamRecovery, true, committed, hasBuffered);
      }
      return Decision(FinalError, f.retryable, committed, hasBuffered);
    }
  }
}
