/**
 The delivery limiter's object. Each method is one await-free region of its worker, senders and shutdown, proved to
 have exactly the effect of the matching function of DeliveryModel; the asyncio futures are a field.
 */
module Delivery {
  import opened Options
  import opened DeliveryModel

  lemma DrainSettles(q: Queue, queued: seq<FutureId>)
    requires forall f :: f in queued <==> Queued(q.works, f)
    ensures Settle(Settle(q.futures, queued, Cancellation), q.active, Cancellation) == Drain(q).futures
  {
  }

  class MessagingRateLimiter {
    var queueList: seq<DedupKey>
    var queueMap: map<DedupKey, Work>
    var activeFutures: seq<FutureId>
    var futures: map<FutureId, Future>
    var worker: Phase
    var cancelling: bool
    var closed: bool
    var pausedUntil: real
    ghost var drained: bool

    ghost function View(): Queue
      reads this
    {
      Queue(queueList, queueMap, activeFutures, futures, worker, cancelling, closed, drained, pausedUntil)
    }

    /** The deque leads into the map, and every future mentioned exists. */
    ghost predicate Valid()
      reads this
    {
      && (forall k | k in queueList :: k in queueMap)
      && (forall i, j | 0 <= i < j < |queueList| :: queueList[i] != queueList[j])
      && (forall k, f | k in queueMap && f in queueMap[k].futures :: f in futures)
      && (forall f | f in activeFutures :: f in futures)
      && (worker.Holding? || worker.Calling? ==> worker.work.futures == activeFutures)
    }

    constructor ()
      ensures Valid() && View() == Init()
    {
      queueList, queueMap, activeFutures, futures, worker := [], map[], [], map[], Stopped;
      cancelling, closed, pausedUntil, drained := false, false, 0.0, false;
    }

    method Start() returns (running: bool)
      requires Valid()
      modifies this
      ensures Valid() && View() == StartWorker(old(View()))
      ensures running <==> !old(closed)
    {
      if closed {
        return false;
      }
      if worker.Stopped? {
        worker, cancelling := Idle, false;
      }
      return true;
    }

    method Enqueue(f: FutureId, key: DedupKey, func: Func, front: bool) returns (accepted: bool)
      requires Valid() && f !in futures
      modifies this
      ensures Valid() && View() == EnqueueCall(old(View()), f, key, func, front)
      ensures accepted <==> Accepts(old(View()))
    {
      if closed || worker.Stopped? {
        futures := futures[f := Settled(Cancellation)];
        return false;
      }
      futures := futures[f := Unsettled];
      if key in queueMap {
        queueMap := queueMap[key := Work(func, queueMap[key].futures + [f])];
      } else {
        queueMap := queueMap[key := Work(func, [f])];
        if front {
          queueList := [key] + queueList;
        } else {
          queueList := queueList + [key];
        }
      }
      return true;
    }

    method SettleAll(ids: seq<FutureId>, outcome: Outcome)
      requires forall f | f in ids :: f in futures
      modifies `futures
      ensures futures == Settle(old(futures), ids, outcome)
    {
      for i := 0 to |ids|
        invariant futures == Settle(old(futures), ids[..i], outcome)
      {
        if futures[ids[i]].Unsettled? {
          futures := futures[ids[i] := Settled(outcome)];
        }
        assert ids[..i + 1] == ids[..i] + [ids[i]];
      }
      assert ids[..|ids|] == ids;
    }

    method Pop(now: real)
      requires Valid() && Enabled(View(), DeliveryModel.Pop(now))
      modifies this
      ensures Valid() && View() == PopWork(old(View()), now)
    {
      var key := queueList[0];
      queueList := queueList[1..];
      var work := queueMap[key];
      queueMap := queueMap - {key};
      activeFutures := work.futures;
      worker := Holding(key, work, Max(now, pausedUntil));
    }

    method BeginCall(now: real)
      requires Valid() && Enabled(View(), DeliveryModel.BeginCall(now))
      modifies `worker
      ensures Valid() && View() == Step(old(View()), DeliveryModel.BeginCall(now))
    {
      worker := Calling(worker.key, worker.work);
    }

    /** The function has returned, raised, or been cancelled. */
    method EndCall(result: Result, now: real)
      requires Valid() && worker.Calling?
      modifies this
      ensures Valid() && View() == FinishCall(old(View()), result, now)
    {
      var batch := worker.work.futures;
      match result {
        case Returned(value) =>
          SettleAll(batch, Value(value));
          worker := Idle;
        case Raised(error, pause) =>
          SettleAll(batch, Error(error));
          if pause.Some? {
            pausedUntil := now + pause.value;
          }
          worker := Idle;
        case WasCancelled =>
          SettleAll(batch, Cancellation);
          worker := if closed || cancelling then Stopped else Idle;
        case Fatal =>
          worker := Stopped;
      }
      activeFutures := [];
    }

    method CancelWorker()
      requires Valid()
      modifies this
      ensures Valid() && View() == CancelTask(old(View()))
    {
      if worker.Calling? {
        cancelling := true;
      } else if !worker.Stopped? {
        SettleAll(activeFutures, Cancellation);
        activeFutures, worker := [], Stopped;
      }
    }

    /** The locked region of shutdown(), which has set `closed` before. */
    method DrainShutdown()
      requires Valid() && closed
      modifies this
      ensures Valid() && View() == Drain(old(View()))
    {
      var queued := QueuedFutures();
      DrainSettles(View(), queued);
      queueList, queueMap := [], map[];
      SettleAll(queued, Cancellation);
      SettleAll(activeFutures, Cancellation);
      drained := true;
    }

    method QueuedFutures() returns (queued: seq<FutureId>)
      requires Valid()
      ensures forall f :: f in queued <==> Queued(queueMap, f)
    {
      queued := [];
      var keys := queueMap.Keys;
      while keys != {}
        invariant keys <= queueMap.Keys
        invariant forall f | f in queued :: Queued(queueMap, f)
        invariant forall k, f | k in queueMap && k !in keys && f in queueMap[k].futures :: f in queued
        decreases keys
      {
        var k :| k in keys;
        assert forall f | f in queueMap[k].futures :: Queued(queueMap, f);
        queued := queued + queueMap[k].futures;
        keys := keys - {k};
      }
    }
  }
}
