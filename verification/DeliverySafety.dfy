/** What holds in every run of the compacting delivery queue. */
module DeliverySafety {
  import opened Options
  import opened DeliveryModel

  // ---------------------------------------------------------------- lists of calls

  lemma {:induction false} CallsForSplits(xs: seq<Call>, ys: seq<Call>, key: DedupKey)
    ensures CallsFor(xs + ys, key) == CallsFor(xs, key) + CallsFor(ys, key)
    decreases |ys|
  {
    if ys == [] {
      assert xs + ys == xs;
    } else {
      var n := |ys| - 1;
      assert (xs + ys)[..|xs + ys| - 1] == xs + ys[..n];
      CallsForSplits(xs, ys[..n], key);
    }
  }

  lemma {:induction false} CallsForKey(calls: seq<Call>, key: DedupKey, i: nat)
    requires i < |CallsFor(calls, key)|
    ensures CallsFor(calls, key)[i].key == key && CallsFor(calls, key)[i] in calls
  {
    var n := |calls| - 1;
    if i < |CallsFor(calls[..n], key)| {
      CallsForKey(calls[..n], key, i);
    }
  }

  /** A key occurs once among the keys if some call has it. */
  lemma {:induction false} KeysAreTheCalls(calls: seq<Call>, key: DedupKey)
    ensures key in Keys(calls) <==> CallsFor(calls, key) != []
    ensures forall i, j | 0 <= i < j < |Keys(calls)| :: Keys(calls)[i] != Keys(calls)[j]
  {
    if calls != [] {
      KeysAreTheCalls(calls[..|calls| - 1], key);
    }
  }

  lemma {:induction false} FirstKeyFirst(calls: seq<Call>)
    requires calls != []
    ensures Keys(calls) != [] && Keys(calls)[0] == calls[0].key
  {
    if |calls| > 1 {
      FirstKeyFirst(calls[..|calls| - 1]);
    }
  }

  /** Taking away one key's calls takes away that key and leaves the others in order. */
  lemma {:induction false} KeysExcept(calls: seq<Call>, key: DedupKey)
    requires calls != [] && calls[0].key == key
    ensures Keys(CallsExcept(calls, key)) == Keys(calls)[1..]
  {
    var n := |calls| - 1;
    if n == 0 {
      assert calls[..0] == [];
    } else {
      KeysExcept(calls[..n], key);
      LastKeyExcept(calls, key);
    }
  }

  lemma LastKeyExcept(calls: seq<Call>, key: DedupKey)
    requires |calls| > 1 && calls[0].key == key
    requires Keys(CallsExcept(calls[..|calls| - 1], key)) == Keys(calls[..|calls| - 1])[1..]
    ensures Keys(CallsExcept(calls, key)) == Keys(calls)[1..]
  {
    var n := |calls| - 1;
    var before, last := calls[..n], calls[n];
    var rest := CallsExcept(before, key);
    FirstKeyFirst(before);
    if last.key == key {
      assert CallsExcept(calls, key) == rest;
    } else {
      assert CallsExcept(calls, key) == rest + [last] && (rest + [last])[..|rest|] == rest;
      assert last.key in Keys(before) <==> last.key in Keys(before)[1..];
    }
  }

  lemma {:induction false} CallsForExcept(calls: seq<Call>, key: DedupKey, other: DedupKey)
    requires other != key
    ensures CallsFor(CallsExcept(calls, key), other) == CallsFor(calls, other)
  {
    if calls != [] {
      var n := |calls| - 1;
      var rest := CallsExcept(calls[..n], key);
      CallsForExcept(calls[..n], key, other);
      if calls[n].key == key {
        assert CallsExcept(calls, key) == rest;
      } else {
        assert (rest + [calls[n]])[..|rest|] == rest;
      }
    }
  }

  lemma {:induction false} KeysInFront(call: Call, calls: seq<Call>)
    requires call.key !in Keys(calls)
    ensures Keys([call] + calls) == [call.key] + Keys(calls)
  {
    if calls == [] {
      assert [call] + calls == [call] && [call][..0] == [];
    } else {
      var n := |calls| - 1;
      assert ([call] + calls)[..n + 1] == [call] + calls[..n];
      KeysInFront(call, calls[..n]);
    }
  }

  lemma CallsForInFront(call: Call, calls: seq<Call>, key: DedupKey)
    ensures CallsFor([call] + calls, key) == (if call.key == key then [call] else []) + CallsFor(calls, key)
  {
    CallsForSplits([call], calls, key);
    assert [call][..0] == [];
  }

  // ---------------------------------------------------------------- refinement

  /** The deque and the map stand for a list of calls: its keys in order of first call, and per key the last function. */
  ghost predicate WorkOk(w: Work, calls: seq<Call>) {
    calls != [] && w.func == calls[|calls| - 1].func && w.futures == FuturesOf(calls)
  }

  ghost predicate Refines(q: Queue, calls: seq<Call>) {
    && q.list == Keys(calls)
    && (forall k :: k in q.works <==> k in q.list)
    && (forall k | k in q.works :: WorkOk(q.works[k], CallsFor(calls, k)))
  }

  lemma CallsForAtBack(calls: seq<Call>, call: Call, key: DedupKey)
    ensures CallsFor(calls + [call], key) == CallsFor(calls, key) + if call.key == key then [call] else []
  {
    assert (calls + [call])[..|calls|] == calls;
  }

  lemma EnqueueBackRefines(q: Queue, calls: seq<Call>, f: FutureId, key: DedupKey, func: Func, front: bool)
    requires Refines(q, calls) && Accepts(q) && (key in q.works || !front)
    ensures Refines(EnqueueCall(q, f, key, func, front), calls + [Call(key, func, f)])
  {
    var q', c := EnqueueCall(q, f, key, func, front), Call(key, func, f);
    assert (calls + [c])[..|calls|] == calls;
    KeysAreTheCalls(calls, key);
    CallsForAtBack(calls, c, key);
    assert WorkOk(q'.works[key], CallsFor(calls + [c], key)) by {
      assert key in q.works ==> WorkOk(q.works[key], CallsFor(calls, key));
      assert FuturesOf(CallsFor(calls, key) + [c]) == FuturesOf(CallsFor(calls, key)) + [f];
    }
    forall k | k in q.works && k != key ensures WorkOk(q'.works[k], CallsFor(calls + [c], k)) {
      CallsForAtBack(calls, c, k);
      assert CallsFor(calls + [c], k) == CallsFor(calls, k);
      assert WorkOk(q.works[k], CallsFor(calls, k));
    }
  }

  lemma EnqueueFrontRefines(q: Queue, calls: seq<Call>, f: FutureId, key: DedupKey, func: Func)
    requires Refines(q, calls) && Accepts(q) && key !in q.works
    ensures Refines(EnqueueCall(q, f, key, func, true), [Call(key, func, f)] + calls)
  {
    var q', c := EnqueueCall(q, f, key, func, true), Call(key, func, f);
    assert q'.list == [key] + q.list;
    KeysInFront(c, calls);
    KeysAreTheCalls(calls, key);
    CallsForInFront(c, calls, key);
    assert CallsFor([c] + calls, key) == [c] && FuturesOf([c]) == [f];
    forall k | k in q.works ensures WorkOk(q'.works[k], CallsFor([c] + calls, k)) {
      CallsForInFront(c, calls, k);
      assert CallsFor([c] + calls, k) == CallsFor(calls, k);
      assert WorkOk(q.works[k], CallsFor(calls, k));
    }
  }

  lemma PopRefines(q: Queue, calls: seq<Call>, now: real)
    requires Refines(q, calls) && q.list != []
    ensures calls != [] && Refines(PopWork(q, now), CallsExcept(calls, calls[0].key))
    ensures q.list[0] == calls[0].key && WorkOk(q.works[calls[0].key], CallsFor(calls, calls[0].key))
  {
    var q', key := PopWork(q, now), calls[0].key;
    FirstKeyFirst(calls);
    KeysExcept(calls, key);
    KeysAreTheCalls(calls, key);
    forall k | k in q'.works ensures WorkOk(q'.works[k], CallsFor(CallsExcept(calls, key), k)) {
      assert WorkOk(q.works[k], CallsFor(calls, k));
      CallsForExcept(calls, key, k);
    }
    forall k ensures k in q'.works <==> k in q'.list {
      assert k in q.works <==> k in q.list;
    }
  }

  lemma UntouchedRefines(q: Queue, calls: seq<Call>, q': Queue)
    requires Refines(q, calls) && q'.list == q.list && q'.works == q.works
    ensures Refines(q', calls)
  {
    forall k | k in q'.works ensures WorkOk(q'.works[k], CallsFor(calls, k)) {
      assert WorkOk(q.works[k], CallsFor(calls, k));
    }
  }

  lemma EnqueueRefines(q: Queue, calls: seq<Call>, f: FutureId, key: DedupKey, func: Func, front: bool)
    requires Refines(q, calls)
    ensures Refines(EnqueueCall(q, f, key, func, front), NextCalls(calls, q, Enqueue(f, key, func, front)))
  {
    if !Accepts(q) {
      UntouchedRefines(q, calls, EnqueueCall(q, f, key, func, front));
    } else if key in q.works || !front {
      EnqueueBackRefines(q, calls, f, key, func, front);
    } else {
      EnqueueFrontRefines(q, calls, f, key, func);
    }
  }

  lemma DrainRefines(q: Queue)
    ensures Refines(Drain(q), [])
  {
  }

  /** One step of the compacting queue is one step of the plain list. */
  lemma StepRefines(q: Queue, calls: seq<Call>, a: Action)
    requires Refines(q, calls) && Enabled(q, a)
    ensures Refines(Step(q, a), NextCalls(calls, q, a))
  {
    if a.Enqueue? {
      EnqueueRefines(q, calls, a.future, a.key, a.func, a.front);
    } else if a.Pop? {
      PopRefines(q, calls, a.now);
    } else if a.DrainShutdown? {
      DrainRefines(q);
    } else {
      OthersLeaveQueue(q, a);
      UntouchedRefines(q, calls, Step(q, a));
    }
  }

  lemma OthersLeaveQueue(q: Queue, a: Action)
    requires Enabled(q, a) && !a.Enqueue? && !a.Pop? && !a.DrainShutdown?
    ensures Step(q, a).list == q.list && Step(q, a).works == q.works
  {
  }

  lemma {:induction false} RunRefines(q: Queue, calls: seq<Call>, actions: seq<Action>)
    requires Refines(q, calls) && IsRun(q, actions)
    ensures Refines(After(q, actions), CallsAfter(calls, q, actions))
    decreases |actions|
  {
    if actions != [] {
      StepRefines(q, calls, actions[0]);
      RunRefines(Step(q, actions[0]), NextCalls(calls, q, actions[0]), actions[1..]);
    }
  }

  /**
   In every run the deque's keys are distinct and are the map's keys, in the order of their first waiting call; each
   holds the function of its last call and the futures of all of them.
   */
  lemma QueueIsTheWaitingCalls(actions: seq<Action>)
    requires IsRun(Init(), actions)
    ensures var q, calls := After(Init(), actions), CallsAfter([], Init(), actions);
            && Refines(q, calls)
            && (forall i, j | 0 <= i < j < |q.list| :: q.list[i] != q.list[j])
  {
    RunRefines(Init(), [], actions);
    KeysAreTheCalls(CallsAfter([], Init(), actions), 0);
  }

  /** The worker serves the first waiting call's key: the last function called under it, for all the calls under it. */
  lemma PopServesTheFirstCall(actions: seq<Action>, now: real)
    requires IsRun(Init(), actions) && Enabled(After(Init(), actions), Pop(now))
    ensures var q, calls := After(Init(), actions), CallsAfter([], Init(), actions);
            && calls != []
            && var batch := CallsFor(calls, calls[0].key);
               var work := Step(q, Pop(now)).phase.work;
               && batch != []
               && work.func == batch[|batch| - 1].func && work.futures == FuturesOf(batch)
               && NextCalls(calls, q, Pop(now)) == CallsExcept(calls, calls[0].key)
  {
    RunRefines(Init(), [], actions);
    PopServesFirst(After(Init(), actions), CallsAfter([], Init(), actions), now);
  }

  lemma PopServesFirst(q: Queue, calls: seq<Call>, now: real)
    requires Refines(q, calls) && Enabled(q, Pop(now))
    ensures calls != []
    ensures var batch, work := CallsFor(calls, calls[0].key), Step(q, Pop(now)).phase.work;
            batch != [] && work.func == batch[|batch| - 1].func && work.futures == FuturesOf(batch)
  {
    PopRefines(q, calls, now);
  }

  // ---------------------------------------------------------------- futures

  ghost predicate Waiting(q: Queue, f: FutureId) {
    f in q.futures && q.futures[f].Unsettled?
  }

  /** An unsettled future that neither the queue nor the worker knows: nobody will ever settle it. */
  ghost predicate Lost(q: Queue, f: FutureId) {
    Waiting(q, f) && !Queued(q.works, f) && f !in q.active
  }

  ghost predicate Distinct(calls: seq<Call>) {
    forall i, j | 0 <= i < j < |calls| :: calls[i].future != calls[j].future
  }

  ghost predicate HasFuture(calls: seq<Call>, f: FutureId) {
    exists c :: c in calls && c.future == f
  }

  /** The future of a waiting call is in no batch; the worker's batch is that of its phase; a drain leaves nothing. */
  ghost predicate Tracked(q: Queue, calls: seq<Call>) {
    && Distinct(calls)
    && (forall c | c in calls :: c.future in q.futures && c.future !in q.active)
    && (forall i, j | 0 <= i < j < |q.active| :: q.active[i] != q.active[j])
    && (forall f | f in q.active :: f in q.futures)
    && q.active == (if q.phase.Holding? || q.phase.Calling? then q.phase.work.futures else [])
    && (q.drained ==> q.closed && calls == [] && forall f | f in q.active :: q.futures[f].Settled?)
    && (q.phase.Holding? ==> q.phase.wakeAt >= q.pausedUntil)
  }

  ghost predicate Inv(q: Queue, calls: seq<Call>) {
    Refines(q, calls) && Tracked(q, calls)
  }

  lemma {:induction false} SplitByKey(calls: seq<Call>, key: DedupKey)
    requires Distinct(calls)
    ensures Distinct(CallsFor(calls, key)) && Distinct(CallsExcept(calls, key))
    ensures forall c :: c in CallsFor(calls, key) <==> c in calls && c.key == key
    ensures forall c :: c in CallsExcept(calls, key) <==> c in calls && c.key != key
  {
    if calls != [] {
      var n := |calls| - 1;
      SplitByKey(calls[..n], key);
      assert calls == calls[..n] + [calls[n]];
      forall c | c in calls[..n] ensures c.future != calls[n].future {
        var i :| 0 <= i < n && calls[i] == c;
      }
    }
  }

  lemma SameFutureSameCall(calls: seq<Call>, c: Call, c': Call)
    requires Distinct(calls) && c in calls && c' in calls && c.future == c'.future
    ensures c == c'
  {
    var i :| 0 <= i < |calls| && calls[i] == c;
    var j :| 0 <= j < |calls| && calls[j] == c';
  }

  lemma FuturesOfContains(calls: seq<Call>, f: FutureId)
    ensures f in FuturesOf(calls) <==> HasFuture(calls, f)
  {
    if f in FuturesOf(calls) {
      var i :| 0 <= i < |calls| && FuturesOf(calls)[i] == f;
      assert calls[i] in calls;
    }
    if HasFuture(calls, f) {
      var c :| c in calls && c.future == f;
      var i :| 0 <= i < |calls| && calls[i] == c;
      assert FuturesOf(calls)[i] == f;
    }
  }

  /** The map holds the futures of the waiting calls, each under the key of its call. */
  lemma QueuedIff(q: Queue, calls: seq<Call>, f: FutureId)
    requires Inv(q, calls)
    ensures Queued(q.works, f) <==> HasFuture(calls, f)
    ensures forall c, k | c in calls && k in q.works && c.future in q.works[k].futures :: c.key == k
  {
    forall c, k | c in calls && k in q.works && c.future in q.works[k].futures ensures c.key == k {
      assert WorkOk(q.works[k], CallsFor(calls, k));
      FuturesOfContains(CallsFor(calls, k), c.future);
      SplitByKey(calls, k);
      var c' :| c' in CallsFor(calls, k) && c'.future == c.future;
      SameFutureSameCall(calls, c, c');
    }
    if Queued(q.works, f) {
      var k :| k in q.works && f in q.works[k].futures;
      assert WorkOk(q.works[k], CallsFor(calls, k));
      FuturesOfContains(CallsFor(calls, k), f);
      SplitByKey(calls, k);
    }
    if HasFuture(calls, f) {
      var c :| c in calls && c.future == f;
      SplitByKey(calls, c.key);
      KeysAreTheCalls(calls, c.key);
      assert WorkOk(q.works[c.key], CallsFor(calls, c.key));
      FuturesOfContains(CallsFor(calls, c.key), f);
    }
  }

  /** The calls under a key and the other calls share no future. */
  lemma SplitFutures(calls: seq<Call>, key: DedupKey)
    requires Distinct(calls)
    ensures forall f :: f in FuturesOf(CallsFor(calls, key)) ==> !HasFuture(CallsExcept(calls, key), f)
    ensures forall f :: HasFuture(calls, f) <==>
              HasFuture(CallsExcept(calls, key), f) || f in FuturesOf(CallsFor(calls, key))
  {
    var batch, rest := CallsFor(calls, key), CallsExcept(calls, key);
    SplitByKey(calls, key);
    forall f: FutureId
      ensures f in FuturesOf(batch) ==> !HasFuture(rest, f)
      ensures HasFuture(calls, f) <==> HasFuture(rest, f) || f in FuturesOf(batch)
    {
      FuturesOfContains(batch, f);
      if HasFuture(calls, f) {
        var c :| c in calls && c.future == f;
        assert c in rest || c in batch;
      }
      if HasFuture(batch, f) && HasFuture(rest, f) {
        var c :| c in batch && c.future == f;
        var c' :| c' in rest && c'.future == f;
        SameFutureSameCall(calls, c, c');
      }
    }
  }

  lemma PopKeepsTracked(q: Queue, calls: seq<Call>, now: real)
    requires Inv(q, calls) && Enabled(q, Pop(now))
    ensures calls != [] && Tracked(PopWork(q, now), CallsExcept(calls, calls[0].key))
    ensures PopWork(q, now).active == FuturesOf(CallsFor(calls, calls[0].key))
  {
    PopRefines(q, calls, now);
    var key := calls[0].key;
    var rest, active := CallsExcept(calls, key), FuturesOf(CallsFor(calls, key));
    SplitByKey(calls, key);
    SplitFutures(calls, key);
    forall c | c in rest ensures c.future in q.futures && c.future !in active {
      assert HasFuture(rest, c.future);
    }
    forall f | f in active ensures f in q.futures {
      FuturesOfContains(CallsFor(calls, key), f);
    }
  }

  lemma EnqueueKeepsTracked(q: Queue, calls: seq<Call>, f: FutureId, key: DedupKey, func: Func, front: bool)
    requires Inv(q, calls) && f !in q.futures
    ensures Tracked(EnqueueCall(q, f, key, func, front), NextCalls(calls, q, Enqueue(f, key, func, front)))
  {
    assert forall c | c in calls :: c.future != f;
  }

  lemma StepKeepsTracked(q: Queue, calls: seq<Call>, a: Action)
    requires Inv(q, calls) && Enabled(q, a)
    ensures Tracked(Step(q, a), NextCalls(calls, q, a))
  {
    match a {
      case Enqueue(f, key, func, front) => EnqueueKeepsTracked(q, calls, f, key, func, front);
      case Pop(now) => PopKeepsTracked(q, calls, now);
      case _ =>
    }
  }

  lemma {:induction false} RunKeepsInv(q: Queue, calls: seq<Call>, actions: seq<Action>)
    requires Inv(q, calls) && IsRun(q, actions)
    ensures Inv(After(q, actions), CallsAfter(calls, q, actions))
    decreases |actions|
  {
    if actions != [] {
      StepRefines(q, calls, actions[0]);
      StepKeepsTracked(q, calls, actions[0]);
      RunKeepsInv(Step(q, actions[0]), NextCalls(calls, q, actions[0]), actions[1..]);
    }
  }

  /** An unsettled future that is not lost is in the active batch or under exactly one key, never both. */
  lemma EachFutureInOnePlace(actions: seq<Action>, f: FutureId)
    requires IsRun(Init(), actions) && Waiting(After(Init(), actions), f) && !Lost(After(Init(), actions), f)
    ensures var q := After(Init(), actions);
            && (f in q.active <==> !Queued(q.works, f))
            && forall k, k' | k in q.works && k' in q.works && f in q.works[k].futures && f in q.works[k'].futures :: k == k'
  {
    var q, calls := After(Init(), actions), CallsAfter([], Init(), actions);
    RunKeepsInv(Init(), [], actions);
    QueuedIff(q, calls, f);
  }

  /** What the senders of a batch get: the function's value or error, or a cancellation if it was cancelled. */
  predicate Delivers(result: Result, outcome: Outcome) {
    match result
    case Returned(v) => outcome == Value(v)
    case Raised(e, _) => outcome == Error(e)
    case WasCancelled => outcome == Cancellation
    case Fatal => false
  }

  /** The end of a function settles every waiting future of the batch with that one outcome, and no other future. */
  lemma OutcomeReachesTheBatch(actions: seq<Action>, result: Result, now: real, f: FutureId)
    requires IsRun(Init(), actions) && Enabled(After(Init(), actions), EndCall(result, now)) && !result.Fatal?
    requires f in After(Init(), actions).futures
    ensures var q, q' := After(Init(), actions), Step(After(Init(), actions), EndCall(result, now));
            if f in q.active && q.futures[f].Unsettled?
            then q'.futures[f].Settled? && Delivers(result, q'.futures[f].outcome)
            else q'.futures[f] == q.futures[f]
  {
    RunKeepsInv(Init(), [], actions);
  }

  /** The step settles this future: its sender gives up, its batch ends or is cancelled, or shutdown drains it. */
  predicate Settles(q: Queue, a: Action, f: FutureId)
    requires Enabled(q, a)
  {
    a == GiveUp(f) ||
    (a.EndCall? && !a.result.Fatal? && f in q.active) ||
    (a.CancelWorker? && !q.phase.Calling? && f in q.active) ||
    (a.DrainShutdown? && (Queued(q.works, f) || f in q.active))
  }

  /** A future is settled in these ways only, and stays so. */
  lemma SettledIff(actions: seq<Action>, a: Action, f: FutureId)
    requires IsRun(Init(), actions) && Enabled(After(Init(), actions), a) && f in After(Init(), actions).futures
    ensures var q, q' := After(Init(), actions), Step(After(Init(), actions), a);
            f in q'.futures && (if q.futures[f].Settled? then q'.futures[f] == q.futures[f]
                                else q'.futures[f].Settled? <==> Settles(q, a, f))
  {
    RunKeepsInv(Init(), [], actions);
    StepSettles(After(Init(), actions), CallsAfter([], Init(), actions), a, f);
  }

  lemma StepSettles(q: Queue, calls: seq<Call>, a: Action, f: FutureId)
    requires Tracked(q, calls) && Enabled(q, a) && f in q.futures
    ensures f in Step(q, a).futures
    ensures if q.futures[f].Settled? then Step(q, a).futures[f] == q.futures[f]
            else Step(q, a).futures[f].Settled? <==> Settles(q, a, f)
  {
    if a.EndCall? {
      CallSettles(q, calls, a, f);
    }
  }

  lemma CallSettles(q: Queue, calls: seq<Call>, a: Action, f: FutureId)
    requires Tracked(q, calls) && Enabled(q, a) && a.EndCall? && f in q.futures
    ensures f in Step(q, a).futures
    ensures if q.futures[f].Settled? then Step(q, a).futures[f] == q.futures[f]
            else Step(q, a).futures[f].Settled? <==> Settles(q, a, f)
  {
  }

  /** The one step that can lose a future. */
  predicate LosesBatch(q: Queue, a: Action) {
    a.EndCall? && a.result.Fatal? && exists f :: f in q.active && f in q.futures && q.futures[f].Unsettled?
  }

  /** A future gets lost exactly when a function fails fatally with futures of its batch still waiting. */
  lemma FuturesGetLostIff(q: Queue, calls: seq<Call>, a: Action)
    requires Inv(q, calls) && Enabled(q, a)
    ensures (exists f :: Lost(Step(q, a), f) && !Lost(q, f)) <==> LosesBatch(q, a)
  {
    var q' := Step(q, a);
    if LosesBatch(q, a) {
      var f :| f in q.active && f in q.futures && q.futures[f].Unsettled?;
      QueuedIff(q, calls, f);
      assert Lost(q', f) && !Lost(q, f);
    } else {
      forall f | Lost(q', f) ensures Lost(q, f) {
        NewlyLost(q, calls, a, f);
      }
    }
  }

  /** What is taken off the queue goes to the worker. */
  lemma PopLosesNothing(q: Queue, calls: seq<Call>, now: real, f: FutureId)
    requires Inv(q, calls) && Enabled(q, Pop(now)) && Queued(q.works, f)
    ensures Queued(PopWork(q, now).works, f) || f in PopWork(q, now).active
  {
    var k :| k in q.works && f in q.works[k].futures;
    if k != q.list[0] {
      assert f in PopWork(q, now).works[k].futures;
    }
  }

  lemma EnqueueLosesNothing(q: Queue, f: FutureId, key: DedupKey, func: Func, front: bool, other: FutureId)
    requires f !in q.futures
    ensures Queued(q.works, other) ==> Queued(EnqueueCall(q, f, key, func, front).works, other)
    ensures Accepts(q) ==> Queued(EnqueueCall(q, f, key, func, front).works, f)
  {
    var q' := EnqueueCall(q, f, key, func, front);
    if Queued(q.works, other) {
      var k :| k in q.works && other in q.works[k].futures;
      assert other in q'.works[k].futures;
    }
    if Accepts(q) {
      assert f in q'.works[key].futures;
    }
  }

  lemma NewlyLost(q: Queue, calls: seq<Call>, a: Action, f: FutureId)
    requires Inv(q, calls) && Enabled(q, a) && Lost(Step(q, a), f) && !LosesBatch(q, a)
    ensures Lost(q, f)
  {
    match a {
      case Pop(now) =>
        if Queued(q.works, f) {
          PopLosesNothing(q, calls, now, f);
        }
      case Enqueue(f', key, func, front) => EnqueueLosesNothing(q, f', key, func, front, f);
      case _ =>
    }
  }

  /** Once the queue has been drained, whatever is still unsettled was lost to a fatal failure. */
  lemma OnlyLostRemainUnsettled(actions: seq<Action>, f: FutureId)
    requires IsRun(Init(), actions) && After(Init(), actions).drained
    ensures Waiting(After(Init(), actions), f) <==> Lost(After(Init(), actions), f)
  {
    var q, calls := After(Init(), actions), CallsAfter([], Init(), actions);
    RunKeepsInv(Init(), [], actions);
    QueuedIff(q, calls, f);
  }

  predicate NoBatchLost(q: Queue, actions: seq<Action>)
    requires IsRun(q, actions)
    decreases |actions|
  {
    actions == [] || (!LosesBatch(q, actions[0]) && NoBatchLost(Step(q, actions[0]), actions[1..]))
  }

  lemma {:induction false} NothingGetsLost(q: Queue, calls: seq<Call>, actions: seq<Action>, f: FutureId)
    requires Inv(q, calls) && IsRun(q, actions) && NoBatchLost(q, actions) && !Lost(q, f)
    ensures !Lost(After(q, actions), f)
    decreases |actions|
  {
    if actions != [] {
      var a := actions[0];
      StepRefines(q, calls, a);
      StepKeepsTracked(q, calls, a);
      FuturesGetLostIff(q, calls, a);
      assert Lost(Step(q, a), f) ==> Lost(q, f);
      NothingGetsLost(Step(q, a), NextCalls(calls, q, a), actions[1..], f);
    }
  }

  /** Shutdown leaves no future unsettled, in any run in which no function failed fatally on a waiting batch. */
  lemma ShutdownSettlesEverything(actions: seq<Action>, f: FutureId)
    requires IsRun(Init(), actions) && NoBatchLost(Init(), actions)
    requires After(Init(), actions).drained && f in After(Init(), actions).futures
    ensures After(Init(), actions).futures[f].Settled?
  {
    NothingGetsLost(Init(), [], actions, f);
    OnlyLostRemainUnsettled(actions, f);
  }

  /**
   Without that condition it fails, from every state in which a function runs: if it fails fatally, the senders of its
   batch that still wait do so for good, even after shutdown.
   */
  lemma FatalFailureStrandsItsSenders(actions: seq<Action>, now: real, f: FutureId)
    requires IsRun(Init(), actions) && After(Init(), actions).phase.Calling?
    requires Waiting(After(Init(), actions), f) && f in After(Init(), actions).active
    ensures var q := Step(Step(After(Init(), actions), EndCall(Fatal, now)), BeginShutdown);
            Waiting(Step(q, DrainShutdown), f) && Step(q, DrainShutdown).drained
  {
    var q, calls := After(Init(), actions), CallsAfter([], Init(), actions);
    RunKeepsInv(Init(), [], actions);
    QueuedIff(q, calls, f);
  }

  /** Such states are reachable. */
  lemma SendersWaitOnCalls()
    ensures var actions := [Start, Enqueue(0, 0, 0, false), Pop(0.0), BeginCall(0.0)];
            && IsRun(Init(), actions) && After(Init(), actions).phase.Calling?
            && Waiting(After(Init(), actions), 0) && 0 in After(Init(), actions).active
  {
  }

  // ---------------------------------------------------------------- pauses, from the events of a run

  /** A function has asked for a pause. */
  predicate Pauses(a: Action) {
    a.EndCall? && a.result.Raised? && a.result.pause.Some?
  }

  /** When the pause asked for last is over; `before` if none has been. */
  function PauseEnd(before: real, actions: seq<Action>): real
    decreases |actions|
  {
    if actions == [] then before
    else PauseEnd(if Pauses(actions[0]) then actions[0].now + actions[0].result.pause.value else before, actions[1..])
  }

  lemma PauseStep(q: Queue, a: Action)
    requires Enabled(q, a)
    ensures Step(q, a).pausedUntil == if Pauses(a) then a.now + a.result.pause.value else q.pausedUntil
  {
  }

  lemma {:induction false} PauseFromEvents(q: Queue, actions: seq<Action>)
    requires IsRun(q, actions)
    ensures After(q, actions).pausedUntil == PauseEnd(q.pausedUntil, actions)
    decreases |actions|
  {
    if actions != [] {
      PauseStep(q, actions[0]);
      PauseFromEvents(Step(q, actions[0]), actions[1..]);
    }
  }

  lemma {:induction false} NoPauseKeepsEnd(before: real, actions: seq<Action>)
    requires forall a | a in actions :: !Pauses(a)
    ensures PauseEnd(before, actions) == before
    decreases |actions|
  {
    if actions != [] {
      assert actions[0] in actions;
      NoPauseKeepsEnd(before, actions[1..]);
    }
  }

  /** After a function asked for a pause of `d` at `t` no function starts before `t + d`, unless another one asked for less. */
  lemma FloodWaitIsKept(actions: seq<Action>, error: nat, d: real, t: real, later: seq<Action>, now: real)
    requires IsRun(Init(), actions) && Enabled(After(Init(), actions), EndCall(Raised(error, Some(d)), t))
    requires IsRun(Step(After(Init(), actions), EndCall(Raised(error, Some(d)), t)), later)
    requires forall a | a in later :: !Pauses(a)
    requires Enabled(After(Step(After(Init(), actions), EndCall(Raised(error, Some(d)), t)), later), BeginCall(now))
    ensures now >= t + d
  {
    var end := EndCall(Raised(error, Some(d)), t);
    var q, calls := After(Init(), actions), CallsAfter([], Init(), actions);
    RunKeepsInv(Init(), [], actions);
    CallEndKeepsInv(q, calls, end);
    PauseIsKept(Step(q, end), calls, later, now);
  }

  lemma CallEndKeepsInv(q: Queue, calls: seq<Call>, a: Action)
    requires Inv(q, calls) && Enabled(q, a) && a.EndCall?
    ensures Inv(Step(q, a), calls)
  {
    StepRefines(q, calls, a);
    StepKeepsTracked(q, calls, a);
  }

  lemma PauseIsKept(q: Queue, calls: seq<Call>, later: seq<Action>, now: real)
    requires Inv(q, calls) && IsRun(q, later) && forall a | a in later :: !Pauses(a)
    requires Enabled(After(q, later), BeginCall(now))
    ensures now >= q.pausedUntil
  {
    RunKeepsInv(q, calls, later);
    PauseFromEvents(q, later);
    NoPauseKeepsEnd(q.pausedUntil, later);
  }

  /** In any run a function starts only when the pause asked for last is over. */
  lemma NothingRunsDuringPause(actions: seq<Action>, now: real)
    requires IsRun(Init(), actions) && Enabled(After(Init(), actions), BeginCall(now))
    ensures now >= PauseEnd(0.0, actions)
  {
    RunKeepsInv(Init(), [], actions);
    PauseFromEvents(Init(), actions);
  }

  /** The worker starts what it has taken exactly when it is there and the pause asked for last is over, not later. */
  lemma StartsWhenPauseIsOver(actions: seq<Action>, taken: real, now: real)
    requires IsRun(Init(), actions) && Enabled(After(Init(), actions), Pop(taken))
    ensures Enabled(Step(After(Init(), actions), Pop(taken)), BeginCall(now)) <==>
            now >= taken && now >= PauseEnd(0.0, actions)
  {
    PauseFromEvents(Init(), actions);
  }

  // ---------------------------------------------------------------- what is accepted, and who stops the worker

  lemma {:induction false} RunningFromEvents(q: Queue, actions: seq<Action>)
    requires IsRun(q, actions) && !q.closed && !q.cancelling
    requires forall a | a in actions :: !a.BeginShutdown? && !a.CancelWorker? && !(a.EndCall? && a.result.Fatal?)
    ensures !After(q, actions).closed && !After(q, actions).cancelling
    ensures After(q, actions).phase.Stopped? <==> q.phase.Stopped? && Start !in actions
    decreases |actions|
  {
    if actions != [] {
      var a := actions[0];
      assert a in actions;
      RunningStep(q, a);
      RunningFromEvents(Step(q, a), actions[1..]);
    }
  }

  lemma RunningStep(q: Queue, a: Action)
    requires Enabled(q, a) && !q.closed && !q.cancelling
    requires !a.BeginShutdown? && !a.CancelWorker? && !(a.EndCall? && a.result.Fatal?)
    ensures !Step(q, a).closed && !Step(q, a).cancelling
    ensures Step(q, a).phase.Stopped? <==> q.phase.Stopped? && !a.Start?
  {
  }

  lemma {:induction false} ClosedFromEvents(q: Queue, actions: seq<Action>)
    requires IsRun(q, actions)
    ensures After(q, actions).closed <==> q.closed || BeginShutdown in actions
    decreases |actions|
  {
    if actions != [] {
      ClosedFromEvents(Step(q, actions[0]), actions[1..]);
    }
  }

  /**
   If no worker was cancelled and no function failed fatally, a call is accepted, and waits in the queue, exactly between
   the first start and shutdown; a call that is not accepted is cancelled at once.
   */
  lemma AcceptedIff(actions: seq<Action>, call: Action)
    requires IsRun(Init(), actions) && call.Enqueue? && Enabled(After(Init(), actions), call)
    requires forall a | a in actions :: !a.CancelWorker? && !(a.EndCall? && a.result.Fatal?)
    ensures var q' := Step(After(Init(), actions), call);
            if Start in actions && BeginShutdown !in actions
            then Waiting(q', call.future) && Queued(q'.works, call.future)
            else q'.futures[call.future] == Settled(Cancellation)
  {
    ClosedFromEvents(Init(), actions);
    if BeginShutdown !in actions {
      RunningFromEvents(Init(), actions);
    }
    EnqueueLosesNothing(After(Init(), actions), call.future, call.key, call.func, call.front, call.future);
  }

  /** What stops a running worker. A cancelled function does so only if the cancellation was meant for the worker. */
  predicate StopsWorker(q: Queue, a: Action) {
    a.LeaveLoop? || (a.CancelWorker? && !q.phase.Calling?) ||
    (a.EndCall? && (a.result.Fatal? || (a.result.WasCancelled? && (q.closed || q.cancelling))))
  }

  /** The worker survives everything else, and a stopped one can be started again until shutdown. */
  lemma WorkerRunsIff(q: Queue, a: Action)
    requires Enabled(q, a)
    ensures Step(q, a).phase.Stopped? <==> if q.phase.Stopped? then !a.Start? || q.closed else StopsWorker(q, a)
    ensures Step(q, a).cancelling <==>
            if a.Start? && q.phase.Stopped? && !q.closed then false else q.cancelling || (a.CancelWorker? && q.phase.Calling?)
  {
    if a.EndCall? {
      CallEndStops(q, a);
    }
  }

  lemma CallEndStops(q: Queue, a: Action)
    requires Enabled(q, a) && a.EndCall?
    ensures Step(q, a).phase.Stopped? <==> StopsWorker(q, a)
    ensures Step(q, a).cancelling == q.cancelling
  {
  }
}
