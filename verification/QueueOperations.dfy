/** What each section of the compacting queue achieves, in every state of every run: which outcome each
    future gets and when, what an admitted call joins, and what the worker does next. */
module QueueOperations {
  import opened QueueSpec
  import opened QueueInvariant
  import opened QueueRuns

  // ---- Outcomes ----

  /** What an open future is after the section: a call that returned resolves the futures of its batch and
      one that raised fails them, both with the function called last; a cancelled call or worker cancels
      them; shutdown cancels every open future but the stranded ones; and a caller cancels its own. */
  ghost predicate Outcomes(s: State, e: Event, f: FutureId, after: Outcome) {
    match e
    case Finish(ending, _) =>
      if f !in s.active then after.Pending?
      else
        && s.log != []
        && var func := s.log[|s.log| - 1].ran.func;
           (match ending
            case Returned => after == Resolved(func)
            case Raised(_) => after == Failed(func)
            case OperationCancelled => after == Cancelled
            case GroupRaised => after.Pending?)
    case WorkerCancelled => after == if f in s.active then Cancelled else Pending
    case ShutdownClears => after == if f in s.stranded then Pending else Cancelled
    case CallerCancels(future) => after == if f == future then Cancelled else Pending
    case _ => after.Pending?
  }

  /** The outcome of every known future, section by section: a done one keeps its outcome, and an open one
      gets the one above, which is none if it is not the futures' turn. */
  lemma EndingDecides(states: seq<State>, events: seq<Event>, n: nat, f: FutureId)
    requires IsRun(states, events) && n < |events| && f in states[n].outcomes
    ensures f in states[n + 1].outcomes
    ensures
      var before, after := states[n].outcomes[f], states[n + 1].outcomes[f];
      if before.Pending? then Outcomes(states[n], events[n], f, after) else after == before
  {
    Reachable(states, events, n);
    assert StepAt(states, events, n);
    var s, e := states[n], events[n];
    assert f in Members(s.active) <==> f in s.active;
    if e.ShutdownClears? && s.outcomes[f].Pending? {
      OnePlace(states, events, n, f);
    }
    StepDecides(s, e, f);
  }

  lemma StepDecides(s: State, e: Event, f: FutureId)
    requires FuturesOk(s) && WorkerOk(s.worker, s.log, s.pausedUntil) && Enabled(s, e) && f in s.outcomes
    requires s.outcomes[f].Pending? && e.ShutdownClears? ==>
               (f in s.stranded <==> f !in s.active && f !in Queued(s.waiting))
    ensures f in Step(s, e).outcomes
    ensures
      var before, after := s.outcomes[f], Step(s, e).outcomes[f];
      if before.Pending? then Outcomes(s, e, f, after) else after == before
  {
    assert f in Members(s.active) <==> f in s.active;
  }

  // ---- Admission ----

  /** An admitted call: its futures are known under its key and number, and open; they are appended to the
      batch of the key, or make a new one, which goes to the right end of the deque or, if asked for, to the
      left; and the batch has the new function. */
  ghost predicate Joins(s: State, key: Key, futures: seq<FutureId>, front: bool, t: State) {
    && (forall f :: f in t.tickets <==> f in s.tickets || f in futures)
    && (forall f | f in futures :: f in t.outcomes && t.tickets[f] == Ticket(key, s.next) && t.outcomes[f] == Pending)
    && (forall f | f in s.tickets && f !in futures :: t.tickets[f] == s.tickets[f])
    && key in t.waiting && t.waiting[key].func == s.next
    && t.waiting[key].futures == (if key in s.waiting then s.waiting[key].futures else []) + futures
    && (forall k | k != key :: k in t.waiting <==> k in s.waiting)
    && (forall k | k != key && k in t.waiting :: t.waiting[k] == s.waiting[k])
    && t.queue == (if key in s.waiting then s.queue else if front then [key] + s.queue else s.queue + [key])
    && t.next == s.next + 1
  }

  /** A call is admitted exactly if the queue is not closed and a worker runs; a refused call changes
      nothing. */
  lemma CallsJoin(
    states: seq<State>, events: seq<Event>, n: nat, key: Key, futures: seq<FutureId>, front: bool)
    requires IsRun(states, events) && n < |events| && events[n] == Enqueue(key, futures, front)
    ensures
      var s, t := states[n], states[n + 1];
      if !s.closed && !s.worker.Off? then Joins(s, key, futures, front, t) else t == s
  {
    Reachable(states, events, n);
    assert StepAt(states, events, n);
    if Admits(states[n]) {
      AdmitJoins(states[n], key, futures, front);
    }
  }

  lemma AdmitJoins(s: State, key: Key, futures: seq<FutureId>, front: bool)
    requires forall f | f in futures :: f !in s.tickets && f !in s.outcomes
    ensures Joins(s, key, futures, front, Admit(s, key, futures, front))
  {
    assert forall f :: f in futures <==> f in Members(futures);
    if key !in s.waiting {
      assert [] + futures == futures;
    }
  }

  /** Nothing but an admitted call makes a future, a ticket or a batch known, and nothing but taking it or
      shutdown makes a batch go; a batch that waits changes only when a call joins it. */
  lemma OthersKeepTheQueue(states: seq<State>, events: seq<Event>, n: nat, k: Key)
    requires IsRun(states, events) && n < |events| && !events[n].Enqueue?
    ensures
      var s, e, t := states[n], events[n], states[n + 1];
      var taken := e.Take? && s.queue != [] && s.queue[0] == k;
      && t.tickets == s.tickets && t.outcomes.Keys == s.outcomes.Keys && t.next == s.next
      && (k in t.waiting <==> k in s.waiting && !taken && !e.ShutdownClears?)
      && (k in t.waiting ==> k in s.waiting && t.waiting[k] == s.waiting[k])
      && t.queue == (if e.Take? && s.queue != [] then s.queue[1..] else if e.ShutdownClears? then [] else s.queue)
  {
    assert StepAt(states, events, n);
    StepKeepsTheQueue(states[n], events[n], k);
  }

  lemma StepKeepsTheQueue(s: State, e: Event, k: Key)
    requires Enabled(s, e) && !e.Enqueue?
    ensures
      var t := Step(s, e);
      var taken := e.Take? && s.queue != [] && s.queue[0] == k;
      && t.tickets == s.tickets && t.outcomes.Keys == s.outcomes.Keys && t.next == s.next
      && (k in t.waiting <==> k in s.waiting && !taken && !e.ShutdownClears?)
      && (k in t.waiting ==> k in s.waiting && t.waiting[k] == s.waiting[k])
      && t.queue == (if e.Take? && s.queue != [] then s.queue[1..] else if e.ShutdownClears? then [] else s.queue)
  {
    match e {
      case Take =>
      case Finish(_, _) =>
      case ShutdownClears =>
      case _ =>
    }
  }

  // ---- The worker ----

  /** A worker starts only while none runs and the queue is open; it takes the leftmost batch, as it waited,
      calls its function once, and afterwards goes on, unless the queue was closed meanwhile; an exception
      group, a cancellation and an empty closed queue end it. */
  ghost predicate WorkerMoves(s: State, e: Event, t: State) {
    match e
    case StartWorker => t.worker == if s.worker.Off? && !s.closed then Idle else s.worker
    case Take =>
      && s.queue != [] && s.queue[0] in s.waiting
      && t.worker.Busy? && !t.worker.called
      && t.worker.ran.key == s.queue[0]
      && t.worker.ran.func == s.waiting[s.queue[0]].func
      && t.worker.ran.futures == t.active == s.waiting[s.queue[0]].futures
    case CallFunction(now) =>
      && s.worker.Busy? && !s.worker.called && t.worker == Busy(s.worker.ran, true)
      && t.log == s.log + [Call(s.worker.ran, now)]
    case Finish(ending, _) => t.worker == (if ending.GroupRaised? || s.closed then Off else Idle) && t.active == []
    case WorkerCancelled => t.worker.Off? && t.active == []
    case WorkerLeaves => t.worker.Off? && s.closed
    case _ => t.worker == s.worker && t.active == s.active
  }

  /** What the worker does, and what nobody else does: only a call is logged, only a flood wait pauses the
      worker, for what it asked, and only shutdown closes the queue, for good. */
  lemma WorkerIsExact(states: seq<State>, events: seq<Event>, n: nat)
    requires IsRun(states, events) && n < |events|
    ensures
      var s, e, t := states[n], events[n], states[n + 1];
      && WorkerMoves(s, e, t)
      && (!e.CallFunction? ==> t.log == s.log)
      && t.pausedUntil ==
           (if e.Finish? && e.ending.Raised? && e.ending.pause > 0 then e.now + e.ending.pause else s.pausedUntil)
      && (t.closed <==> s.closed || e.ShutdownBegins?)
  {
    assert StepAt(states, events, n);
    StepMovesWorker(states[n], events[n]);
  }

  lemma StepMovesWorker(s: State, e: Event)
    requires Enabled(s, e)
    ensures
      var t := Step(s, e);
      && WorkerMoves(s, e, t)
      && (!e.CallFunction? ==> t.log == s.log)
      && t.pausedUntil ==
           (if e.Finish? && e.ending.Raised? && e.ending.pause > 0 then e.now + e.ending.pause else s.pausedUntil)
      && (t.closed <==> s.closed || e.ShutdownBegins?)
  {
  }
}
