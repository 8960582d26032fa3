/** The rate-limited work queue of messaging/limiter.py. Each method is one section between suspension
    points and moves the abstract state as `QueueSpec.Step` says; the promises about runs are in
    QueueRuns. */
module CompactingQueue {
  import opened QueueSpec

  lemma SettleOneMore(outcomes: map<FutureId, Outcome>, futures: seq<FutureId>, i: nat, outcome: Outcome)
    requires i < |futures| && !outcome.Pending?
    ensures
      var some := Settle(outcomes, Members(futures[..i]), outcome);
      var more := Settle(outcomes, Members(futures[..i + 1]), outcome);
      more == if futures[i] in some && some[futures[i]].Pending? then some[futures[i] := outcome] else some
  {
    var some := Settle(outcomes, Members(futures[..i]), outcome);
    var more := Settle(outcomes, Members(futures[..i + 1]), outcome);
    assert futures[..i + 1] == futures[..i] + [futures[i]];
    assert Members(futures[..i + 1]) == Members(futures[..i]) + {futures[i]};
    assert more.Keys == some.Keys;
  }

  lemma SettleBoth(outcomes: map<FutureId, Outcome>, a: set<FutureId>, b: set<FutureId>, outcome: Outcome)
    ensures Settle(Settle(outcomes, a, outcome), b, outcome) == Settle(outcomes, a + b, outcome)
  {
  }

  lemma QueuedOneMore(waiting: map<Key, Batch>, done: set<Key>, key: Key)
    requires key in waiting && done <= waiting.Keys
    ensures
      var some, more := map k | k in done :: waiting[k], map k | k in done + {key} :: waiting[k];
      Queued(more) == Queued(some) + Members(waiting[key].futures)
  {
    var some, more := map k | k in done :: waiting[k], map k | k in done + {key} :: waiting[k];
    forall f | f in Queued(more)
      ensures f in Queued(some) + Members(waiting[key].futures)
    {
      var k :| k in more && f in more[k].futures;
      assert k == key || k in some;
    }
    forall f | f in Queued(some)
      ensures f in Queued(more)
    {
      var k :| k in some && f in some[k].futures;
      assert k in more;
    }
    assert key in more && more[key] == waiting[key];
  }

  class MessagingRateLimiter {
    var queueList: seq<Key>
    var queueMap: map<Key, Batch>
    var activeFutures: seq<FutureId>
    var outcomes: map<FutureId, Outcome>
    var next: FuncNo
    var workerRunning: bool
    var func: FuncNo
    var closed: bool
    var pausedUntil: int
    ghost var worker: Worker
    ghost var ranks: map<Key, int>
    ghost var tickets: map<FutureId, Ticket>
    ghost var log: seq<Call>
    ghost var stranded: set<FutureId>

    ghost predicate Valid()
      reads this
    {
      && workerRunning == !worker.Off?
      && (worker.Busy? ==> worker.ran.func == func)
    }

    ghost function View(): State
      reads this
    {
      State(queueList, queueMap, ranks, worker, activeFutures, tickets, outcomes, next, closed, pausedUntil, log, stranded)
    }

    constructor ()
      ensures Valid() && View() == QueueSpec.Start()
    {
      queueList, queueMap, activeFutures, outcomes := [], map[], [], map[];
      next, workerRunning, func, closed, pausedUntil := 1, false, 0, false, 0;
      worker, ranks, tickets, log, stranded := Off, map[], map[], [], {};
    }

    method StartTask() returns (ok: bool)
      requires Valid()
      modifies this
      ensures Valid() && View() == Step(old(View()), StartWorker)
      ensures ok == !closed
    {
      if closed {
        return false;
      }
      if !workerRunning {
        workerRunning, worker := true, Idle;
      }
      ok := true;
    }

    // ---- Enqueueing ----

    method Know(futures: seq<FutureId>, ghost key: Key)
      requires Valid()
      modifies this`outcomes, this`tickets
      ensures View() == Register(old(View()), key, Members(futures))
    {
      outcomes := outcomes + map f | f in Members(futures) :: Pending;
      tickets := tickets + map f | f in Members(futures) :: Ticket(key, next);
    }

    method Compact(futures: seq<FutureId>, key: Key, front: bool)
      requires Valid()
      modifies this`queueMap, this`queueList, this`ranks, this`next
      ensures View() == Join(old(View()), key, futures, front)
    {
      if key in queueMap {
        var oldFutures := queueMap[key].futures;
        queueMap := queueMap[key := Batch(next, oldFutures + futures)];
      } else {
        queueMap := queueMap[key := Batch(next, futures)];
        ghost var number: int := next;
        ranks := ranks[key := if front then -number else number];
        if front {
          queueList := [key] + queueList;
        } else {
          queueList := queueList + [key];
        }
      }
      next := next + 1;
    }

    method EnqueueMulti(futures: seq<FutureId>, key: Key, front: bool) returns (ok: bool)
      requires Valid() && Enabled(View(), Enqueue(key, futures, front))
      modifies this`outcomes, this`tickets, this`queueMap, this`queueList, this`ranks, this`next
      ensures Valid() && View() == Step(old(View()), Enqueue(key, futures, front))
      ensures ok == Admits(old(View()))
    {
      if closed || !workerRunning {
        return false;
      }
      Know(futures, key);
      Compact(futures, key, front);
      ok := true;
    }

    // ---- The worker ----

    method PopLeft() returns (key: Key, batch: Batch, ghost rank: int)
      requires queueList != [] && queueList[0] in queueMap && queueList[0] in ranks
      modifies this`queueList, this`queueMap, this`ranks
      ensures key == old(queueList[0]) && batch == old(queueMap[key]) && rank == old(ranks[key])
      ensures queueList == old(queueList[1..])
      ensures queueMap == map k | k in old(queueMap) && k != key :: old(queueMap)[k]
      ensures ranks == map k | k in old(ranks) && k != key :: old(ranks)[k]
    {
      key := queueList[0];
      batch, rank := queueMap[key], ranks[key];
      queueList := queueList[1..];
      queueMap := map k | k in queueMap && k != key :: queueMap[k];
      ranks := map k | k in ranks && k != key :: ranks[k];
    }

    method TakeNext()
      requires Valid() && Enabled(View(), Take)
      modifies this`queueList, this`queueMap, this`ranks, this`func, this`activeFutures, this`worker
      ensures Valid() && View() == Step(old(View()), Take)
    {
      var key, batch, rank := PopLeft();
      BeginBatch(batch);
      worker := Busy(Ran(key, batch.func, batch.futures, rank), false);
    }

    method BeginBatch(batch: Batch)
      modifies this`func, this`activeFutures
      ensures func == batch.func && activeFutures == batch.futures
    {
      func, activeFutures := batch.func, batch.futures;
    }

    /** The worker slept until `pausedUntil`, waited for the rate limiter and calls the function. */
    ghost method BeginCall(now: int)
      requires Valid() && Enabled(View(), CallFunction(now))
      modifies this
      ensures Valid() && View() == Step(old(View()), CallFunction(now))
    {
      log := log + [Call(worker.ran, now)];
      worker := worker.(called := true);
    }

    /** Every future of these that is not done gets the outcome. */
    method SettleAll(futures: seq<FutureId>, outcome: Outcome)
      requires !outcome.Pending?
      modifies this`outcomes
      ensures outcomes == Settle(old(outcomes), Members(futures), outcome)
    {
      var i := 0;
      assert Settle(outcomes, Members([]), outcome) == outcomes;
      while i < |futures|
        invariant 0 <= i <= |futures|
        invariant outcomes == Settle(old(outcomes), Members(futures[..i]), outcome)
      {
        SettleOneMore(old(outcomes), futures, i, outcome);
        if futures[i] in outcomes && outcomes[futures[i]].Pending? {
          outcomes := outcomes[futures[i] := outcome];
        }
        i := i + 1;
      }
      assert futures[..i] == futures;
    }

    method CallEnded(ending: Ending, now: int)
      requires Valid() && Enabled(View(), Finish(ending, now))
      modifies this
      ensures Valid() && View() == Step(old(View()), Finish(ending, now))
    {
      if ending.GroupRaised? {
        stranded := stranded + Open(outcomes, Members(activeFutures));
        WorkerDone(false);
        return;
      }
      SettleAll(activeFutures, OutcomeOf(ending, func));
      if ending.Raised? && ending.pause > 0 {
        pausedUntil := now + ending.pause;
      }
      WorkerDone(!closed);
    }

    /** The batch is dropped, and the worker goes on or is gone. */
    method WorkerDone(goesOn: bool)
      requires Valid()
      modifies this`activeFutures, this`workerRunning, this`worker
      ensures Valid() && View() == old(View()).(active := [], worker := if goesOn then Idle else Off)
    {
      activeFutures, workerRunning := [], goesOn;
      worker := if goesOn then Idle else Off;
    }

    method CancelledInWorker()
      requires Valid() && Enabled(View(), WorkerCancelled)
      modifies this
      ensures Valid() && View() == Step(old(View()), WorkerCancelled)
    {
      SettleAll(activeFutures, Cancelled);
      WorkerDone(false);
    }

    method LeaveLoop()
      requires Valid() && Enabled(View(), WorkerLeaves)
      modifies this
      ensures Valid() && View() == Step(old(View()), WorkerLeaves)
    {
      workerRunning, worker := false, Off;
    }

    // ---- Shutdown ----

    method BeginShutdown()
      requires Valid()
      modifies this`closed
      ensures Valid() && View() == Step(old(View()), ShutdownBegins)
    {
      closed := true;
    }

    method QueuedFutures() returns (queued: seq<FutureId>)
      ensures Members(queued) == Queued(queueMap)
    {
      var keys, left := queueMap.Keys, queueMap.Keys;
      queued := [];
      while left != {}
        invariant left <= keys
        invariant Members(queued) == Queued(map k | k in keys - left :: queueMap[k])
        decreases left
      {
        var key :| key in left;
        QueuedOneMore(queueMap, keys - left, key);
        ghost var before := queued;
        queued := queued + queueMap[key].futures;
        assert Members(queued) == Members(before) + Members(queueMap[key].futures);
        assert keys - (left - {key}) == (keys - left) + {key};
        left := left - {key};
      }
      assert queueMap == map k | k in keys - left :: queueMap[k];
    }

    method ClearQueue()
      requires Valid() && closed
      modifies this`queueList, this`queueMap, this`ranks, this`outcomes
      ensures Valid() && View() == Step(old(View()), ShutdownClears)
    {
      var queued := QueuedFutures();
      queueList, queueMap, ranks := [], map[], map[];
      CancelAll(queued, activeFutures);
    }

    method CancelAll(queued: seq<FutureId>, active: seq<FutureId>)
      modifies this`outcomes
      ensures outcomes == Settle(old(outcomes), Members(queued) + Members(active), Cancelled)
    {
      SettleAll(queued, Cancelled);
      SettleAll(active, Cancelled);
      SettleBoth(old(outcomes), Members(queued), Members(active), Cancelled);
    }

    method CancelFuture(future: FutureId)
      requires Valid()
      modifies this`outcomes
      ensures Valid() && View() == Step(old(View()), CallerCancels(future))
    {
      if future in outcomes && outcomes[future].Pending? {
        outcomes := outcomes[future := Cancelled];
      }
      assert outcomes == Settle(old(outcomes), {future}, Cancelled);
    }
  }
}
