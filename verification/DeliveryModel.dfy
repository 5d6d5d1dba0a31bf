/**
 The compacting delivery queue as a transition system: a deque of keys and a map of work, one worker, and the futures
 that the senders wait on. Each action is one region without an await.
 */
module DeliveryModel {
  import opened Options

  type DedupKey = nat
  type Func = nat
  type FutureId = nat
  type Value = nat

  datatype Outcome = Value(value: Value) | Error(error: nat) | Cancellation
  datatype Future = Unsettled | Settled(outcome: Outcome)

  /** How a queued function ends; Fatal is an exception that is neither an Exception nor a cancellation. */
  datatype Result = Returned(value: Value) | Raised(error: nat, pause: Option<real>) | WasCancelled | Fatal

  /** What the map holds for a key: the function to run and the futures to settle with its outcome. */
  datatype Work = Work(func: Func, futures: seq<FutureId>)

  /** The worker: not running, between batches, held back until `wakeAt` and by the rate limit, or in the function. */
  datatype Phase = Stopped | Idle | Holding(key: DedupKey, work: Work, wakeAt: real) | Calling(key: DedupKey, work: Work)

  datatype Queue = Queue(
    list: seq<DedupKey>,
    works: map<DedupKey, Work>,
    active: seq<FutureId>,
    futures: map<FutureId, Future>,
    phase: Phase,
    cancelling: bool,
    closed: bool,
    drained: bool,
    pausedUntil: real)

  datatype Action =
    | Start
    | Enqueue(future: FutureId, key: DedupKey, func: Func, front: bool)
    | Pop(now: real)
    | BeginCall(now: real)
    | EndCall(result: Result, now: real)
    | CancelWorker
    | LeaveLoop
    | GiveUp(future: FutureId)
    | BeginShutdown
    | DrainShutdown

  function Init(): Queue { Queue([], map[], [], map[], Stopped, false, false, false, 0.0) }

  /** Futures that are done stay as they are. */
  function Settle(futures: map<FutureId, Future>, ids: seq<FutureId>, outcome: Outcome): map<FutureId, Future> {
    map f | f in futures :: if f in ids && futures[f].Unsettled? then Settled(outcome) else futures[f]
  }

  function StartWorker(q: Queue): Queue {
    if q.closed || !q.phase.Stopped? then q else q.(phase := Idle, cancelling := false)
  }

  predicate Accepts(q: Queue) {
    !q.closed && !q.phase.Stopped?
  }

  /** An accepted call waits under its key, where the last function wins; a rejected one has its future cancelled. */
  function EnqueueCall(q: Queue, f: FutureId, key: DedupKey, func: Func, front: bool): Queue {
    if !Accepts(q) then q.(futures := q.futures[f := Settled(Cancellation)])
    else
      var q' := q.(futures := q.futures[f := Unsettled]);
      if key in q.works then q'.(works := q.works[key := Work(func, q.works[key].futures + [f])])
      else q'.(works := q.works[key := Work(func, [f])], list := if front then [key] + q.list else q.list + [key])
  }

  function Max(x: real, y: real): real { if x < y then y else x }

  /** The worker takes the first key's work, and waits until a pause is over. */
  function PopWork(q: Queue, now: real): Queue
    requires q.list != [] && q.list[0] in q.works
  {
    var key := q.list[0];
    q.(list := q.list[1..], works := q.works - {key}, active := q.works[key].futures,
       phase := Holding(key, q.works[key], Max(now, q.pausedUntil)))
  }

  function OutcomeOf(result: Result): Outcome
    requires !result.Fatal?
  {
    match result
    case Returned(v) => Value(v)
    case Raised(e, _) => Error(e)
    case WasCancelled => Cancellation
  }

  function FinishCall(q: Queue, result: Result, now: real): Queue
    requires q.phase.Calling?
  {
    if result.Fatal? then q.(active := [], phase := Stopped)
    else
      var q' := q.(futures := Settle(q.futures, q.phase.work.futures, OutcomeOf(result)), active := []);
      match result
      case Returned(_) => q'.(phase := Idle)
      case Raised(_, pause) => q'.(phase := Idle, pausedUntil := if pause.Some? then now + pause.value else q.pausedUntil)
      case _ => q'.(phase := if q.closed || q.cancelling then Stopped else Idle)
  }

  /** A cancelled worker settles its batch and stops, unless it is in a function, which gets to react first. */
  function CancelTask(q: Queue): Queue {
    match q.phase
    case Stopped => q
    case Calling(_, _) => q.(cancelling := true)
    case _ => q.(futures := Settle(q.futures, q.active, Cancellation), active := [], phase := Stopped)
  }

  predicate Queued(works: map<DedupKey, Work>, f: FutureId) {
    exists k | k in works :: f in works[k].futures
  }

  function Drain(q: Queue): Queue {
    q.(list := [], works := map[], drained := true,
       futures := map f | f in q.futures ::
         if (Queued(q.works, f) || f in q.active) && q.futures[f].Unsettled? then Settled(Cancellation) else q.futures[f])
  }

  predicate Enabled(q: Queue, a: Action) {
    match a
    case Start => true
    case Enqueue(f, _, _, _) => f !in q.futures
    case Pop(_) => q.phase.Idle? && !q.closed && q.list != [] && q.list[0] in q.works
    case BeginCall(now) => q.phase.Holding? && now >= q.phase.wakeAt
    case EndCall(_, _) => q.phase.Calling?
    case CancelWorker => true
    case LeaveLoop => q.phase.Idle? && q.closed
    case GiveUp(f) => f in q.futures
    case BeginShutdown => true
    case DrainShutdown => q.closed
  }

  function Step(q: Queue, a: Action): Queue
    requires Enabled(q, a)
  {
    match a
    case Start => StartWorker(q)
    case Enqueue(f, key, func, front) => EnqueueCall(q, f, key, func, front)
    case Pop(now) => PopWork(q, now)
    case BeginCall(_) => q.(phase := Calling(q.phase.key, q.phase.work))
    case EndCall(result, now) => FinishCall(q, result, now)
    case CancelWorker => CancelTask(q)
    case LeaveLoop => q.(phase := Stopped)
    case GiveUp(f) => q.(futures := Settle(q.futures, [f], Cancellation))
    case BeginShutdown => q.(closed := true)
    case DrainShutdown => Drain(q)
  }

  predicate IsRun(q: Queue, actions: seq<Action>)
    decreases |actions|
  {
    actions == [] || (Enabled(q, actions[0]) && IsRun(Step(q, actions[0]), actions[1..]))
  }

  function After(q: Queue, actions: seq<Action>): Queue
    requires IsRun(q, actions)
    decreases |actions|
  {
    if actions == [] then q else After(Step(q, actions[0]), actions[1..])
  }

  // ---------------------------------------------------------------- the reference: a plain list of waiting calls

  datatype Call = Call(key: DedupKey, func: Func, future: FutureId)

  function Keys(calls: seq<Call>): seq<DedupKey> {
    if calls == [] then []
    else
      var n := |calls| - 1;
      if calls[n].key in Keys(calls[..n]) then Keys(calls[..n]) else Keys(calls[..n]) + [calls[n].key]
  }

  function CallsFor(calls: seq<Call>, key: DedupKey): seq<Call> {
    if calls == [] then []
    else
      var n := |calls| - 1;
      CallsFor(calls[..n], key) + if calls[n].key == key then [calls[n]] else []
  }

  function CallsExcept(calls: seq<Call>, key: DedupKey): seq<Call> {
    if calls == [] then []
    else
      var n := |calls| - 1;
      CallsExcept(calls[..n], key) + if calls[n].key == key then [] else [calls[n]]
  }

  function FuturesOf(calls: seq<Call>): seq<FutureId> {
    seq(|calls|, i requires 0 <= i < |calls| => calls[i].future)
  }

  /** No compaction here: every accepted call waits in line, and a batch is all the calls under the first one's key. */
  function NextCalls(calls: seq<Call>, q: Queue, a: Action): seq<Call> {
    match a
    case Enqueue(f, key, func, front) =>
      if !Accepts(q) then calls
      else if front && key !in Keys(calls) then [Call(key, func, f)] + calls
      else calls + [Call(key, func, f)]
    case Pop(_) => if calls == [] then [] else CallsExcept(calls, calls[0].key)
    case DrainShutdown => []
    case _ => calls
  }

  function CallsAfter(calls: seq<Call>, q: Queue, actions: seq<Action>): seq<Call>
    requires IsRun(q, actions)
    decreases |actions|
  {
    if actions == [] then calls
    else CallsAfter(NextCalls(calls, q, actions[0]), Step(q, actions[0]), actions[1..])
  }
}
