/** What the compacting queue promises over whole runs. */
module QueueRuns {
  import opened QueueSpec
  import opened QueueInvariant

  ghost predicate StepAt(states: seq<State>, events: seq<Event>, i: nat)
    requires i < |events| && |states| == |events| + 1
  {
    Enabled(states[i], events[i]) && states[i + 1] == Step(states[i], events[i])
  }

  ghost predicate IsRun(states: seq<State>, events: seq<Event>) {
    && |states| == |events| + 1
    && states[0] == Start()
    && forall i :: 0 <= i < |events| ==> StepAt(states, events, i)
  }

  lemma {:induction false} Reachable(states: seq<State>, events: seq<Event>, i: nat)
    requires IsRun(states, events) && i < |states|
    ensures Inv(states[i])
  {
    if i == 0 {
      StartInv();
    } else {
      Reachable(states, events, i - 1);
      assert StepAt(states, events, i - 1);
      StepKeepsInv(states[i - 1], events[i - 1]);
    }
  }

  // ---- The deque and the map ----

  /** In every reachable state the deque has no key twice and holds exactly the keys of the map. */
  lemma QueueIsTheMap(states: seq<State>, events: seq<Event>, i: nat)
    requires IsRun(states, events) && i < |states|
    ensures
      var s := states[i];
      && (forall j, l :: 0 <= j < l < |s.queue| ==> s.queue[j] != s.queue[l])
      && (forall k :: k in s.waiting <==> k in s.queue)
  {
    Reachable(states, events, i);
    var s := states[i];
    assert QueueOk(s.queue, s.waiting.Keys, s.ranks, s.next);
  }

  // ---- Futures ----

  /** A future whose call was admitted and that is not done is in exactly one place: the batch waiting
      under its key, the batch being worked on, or stranded. */
  lemma OnePlace(states: seq<State>, events: seq<Event>, i: nat, f: FutureId)
    requires IsRun(states, events) && i < |states| && f in states[i].outcomes && states[i].outcomes[f].Pending?
    ensures
      var s := states[i];
      && f in s.tickets
      && (f in s.active || f in s.stranded <==> !WaitsUnderItsKey(s.waiting, s.tickets[f], f))
      && !(f in s.active && f in s.stranded)
      && (forall k :: k in s.waiting && f in s.waiting[k].futures ==> k == s.tickets[f].key)
      && (f in s.active ==> s.worker.Busy?)
  {
    Reachable(states, events, i);
    var s := states[i];
    assert f in Apart(s) || WaitsUnderItsKey(s.waiting, s.tickets[f], f);
    assert f in s.active <==> f in Members(s.active);
  }

  lemma OutcomeStays(s: State, e: Event, f: FutureId)
    requires Enabled(s, e) && f in s.outcomes && !s.outcomes[f].Pending?
    ensures f in Step(s, e).outcomes && Step(s, e).outcomes[f] == s.outcomes[f]
  {
  }

  /** A done future never changes again. */
  lemma {:induction false} DoneIsFinal(states: seq<State>, events: seq<Event>, i: nat, j: nat, f: FutureId)
    requires IsRun(states, events) && i <= j < |states| && f in states[i].outcomes && !states[i].outcomes[f].Pending?
    ensures f in states[j].outcomes && states[j].outcomes[f] == states[i].outcomes[f]
    decreases j
  {
    if i < j {
      DoneIsFinal(states, events, i, j - 1, f);
      assert StepAt(states, events, j - 1);
      OutcomeStays(states[j - 1], events[j - 1], f);
    }
  }

  /** When the worker's call ends or the worker is cancelled, a future of the batch that was open is done
      afterwards, except exactly if the function raised a group. */
  lemma BatchIsSettled(states: seq<State>, events: seq<Event>, i: nat, f: FutureId)
    requires IsRun(states, events) && i < |events| && (events[i].Finish? || events[i].WorkerCancelled?)
    requires f in states[i].active
    ensures states[i + 1].active == [] && f in states[i].outcomes && f in states[i + 1].outcomes
    ensures states[i + 1].outcomes[f].Pending? <==> Strands(states[i], events[i], f)
  {
    Reachable(states, events, i);
    assert StepAt(states, events, i);
    EndSettles(states[i], events[i], f);
  }

  lemma EndSettles(s: State, e: Event, f: FutureId)
    requires FuturesOk(s) && Enabled(s, e) && (e.Finish? || e.WorkerCancelled?) && f in s.active
    ensures Step(s, e).active == [] && f in s.outcomes && f in Step(s, e).outcomes
    ensures Step(s, e).outcomes[f].Pending? <==> Strands(s, e, f)
  {
    assert f in Members(s.active);
  }

  predicate Strands(s: State, e: Event, f: FutureId) {
    e.Finish? && e.ending.GroupRaised? && f in s.active && f in s.outcomes && s.outcomes[f].Pending?
  }

  lemma StrandedGrows(s: State, e: Event, f: FutureId)
    requires Enabled(s, e) && f in Step(s, e).stranded
    ensures f in s.stranded || Strands(s, e, f)
  {
  }

  /** A future is stranded by such a call only. */
  lemma {:induction false} StrandedByAGroup(states: seq<State>, events: seq<Event>, i: nat, f: FutureId) returns (m: nat)
    requires IsRun(states, events) && i < |states| && f in states[i].stranded
    ensures m < i && Strands(states[m], events[m], f)
  {
    assert i > 0;
    assert StepAt(states, events, i - 1);
    StrandedGrows(states[i - 1], events[i - 1], f);
    if f in states[i - 1].stranded {
      m := StrandedByAGroup(states, events, i - 1, f);
    } else {
      m := i - 1;
    }
  }

  lemma StrandedStep(s: State, e: Event, f: FutureId)
    requires FuturesOk(s) && Enabled(s, e) && f in s.stranded && f in s.outcomes && s.outcomes[f].Pending?
    requires e != CallerCancels(f)
    ensures f in Step(s, e).stranded && f in Step(s, e).outcomes && Step(s, e).outcomes[f].Pending?
  {
    assert f in Apart(s) && f !in Members(s.active);
    assert f !in Queued(s.waiting);
  }

  /** A stranded future stays open, through shutdown and all else, until its own caller cancels it. */
  lemma {:induction false} StrandedStays(states: seq<State>, events: seq<Event>, m: nat, j: nat, f: FutureId)
    requires IsRun(states, events) && m < j < |states| && Strands(states[m], events[m], f)
    requires forall k :: m < k < j ==> events[k] != CallerCancels(f)
    ensures f in states[j].stranded && f in states[j].outcomes && states[j].outcomes[f].Pending?
    decreases j
  {
    assert StepAt(states, events, j - 1);
    if j > m + 1 {
      StrandedStays(states, events, m, j - 1, f);
      Reachable(states, events, j - 1);
      StrandedStep(states[j - 1], events[j - 1], f);
    }
  }

  // ---- Order ----

  /** What a rank is: a new batch gets the number of the call that created it, negated if it was put in
      front, keeps it while it waits, and leaves only by being taken or cleared. */
  ghost predicate RankStepOk(s: State, e: Event, t: State, k: Key) {
    && (k in s.ranks && k in t.ranks ==> t.ranks[k] == s.ranks[k])
    && (k !in s.ranks && k in t.ranks ==>
          && e.Enqueue? && e.key == k
          && t.ranks[k] == if e.front then -(s.next as int) else s.next)
    && (k in s.ranks && k !in t.ranks ==> e.ShutdownClears? || (e.Take? && s.queue != [] && s.queue[0] == k))
  }

  lemma RankStep(s: State, e: Event, k: Key)
    requires Enabled(s, e) && s.ranks.Keys == s.waiting.Keys
    ensures RankStepOk(s, e, Step(s, e), k)
  {
    if e.Enqueue? {
      assert e.key in s.waiting <==> e.key in s.ranks;
    }
  }

  lemma RanksAreFirstNumbers(states: seq<State>, events: seq<Event>, i: nat, k: Key)
    requires IsRun(states, events) && i < |events|
    ensures RankStepOk(states[i], events[i], states[i + 1], k)
  {
    Reachable(states, events, i);
    assert StepAt(states, events, i);
    RankStep(states[i], events[i], k);
  }

  /** The batch taken is the one furthest ahead, its function is the latest that was admitted for the
      key, and it carries every future of the key that is not done or stranded. */
  lemma TakesTheLatest(states: seq<State>, events: seq<Event>, i: nat)
    requires IsRun(states, events) && i < |events| && events[i].Take?
    ensures states[i + 1].worker.Busy?
    ensures
      var s, left, ran := states[i], states[i + 1].ranks, states[i + 1].worker.ran;
      && (forall k | k in left :: ran.rank < left[k])
      && (forall f | f in s.tickets && f in s.outcomes && s.tickets[f].key == ran.key ::
            s.tickets[f].func <= ran.func && (s.outcomes[f].Pending? ==> f in ran.futures || f in s.stranded))
  {
    Reachable(states, events, i);
    assert StepAt(states, events, i);
    var s := states[i];
    KeysTake(s);
    forall f | f in s.tickets && s.outcomes[f].Pending?
      ensures WaitsUnderItsKey(s.waiting, s.tickets[f], f) || f in s.stranded
    {
      assert f !in Members(s.active);
    }
  }

  /** Two batches that were both appended on the right have their functions called in the order of
      their first enqueueing, and no function is ever called twice. */
  lemma CallsAreInOrder(states: seq<State>, events: seq<Event>, i: nat, a: nat, b: nat)
    requires IsRun(states, events) && i < |states| && a < b < |states[i].log|
    ensures
      var first, second := states[i].log[a].ran, states[i].log[b].ran;
      first.func != second.func && (first.rank > 0 && second.rank > 0 ==> first.rank < second.rank)
  {
    Reachable(states, events, i);
    assert LogOk(states[i].log);
  }

  /** A future that got a result or an error got it from a call made for its own key, and never from a
      function older than the one it came with. */
  lemma NeverOlder(states: seq<State>, events: seq<Event>, i: nat, f: FutureId) returns (n: nat)
    requires IsRun(states, events) && i < |states| && f in states[i].outcomes
    requires states[i].outcomes[f].Resolved? || states[i].outcomes[f].Failed?
    ensures
      var s := states[i];
      && f in s.tickets
      && s.outcomes[f].func >= s.tickets[f].func
      && n < |s.log| && s.log[n].ran.func == s.outcomes[f].func && s.log[n].ran.key == s.tickets[f].key
  {
    Reachable(states, events, i);
    var s := states[i];
    var m :| 0 <= m < |s.log| && Gave(s.log[m], s.outcomes[f].func, f);
    assert RanOk(s.log[m].ran, s.tickets);
    n := m;
  }

  // ---- Shutdown ----

  predicate AllSettled(s: State) {
    && s.closed && s.queue == [] && s.waiting == map[]
    && forall f | f in s.outcomes && s.outcomes[f].Pending? :: f in s.stranded
  }

  lemma ClearSettles(s: State)
    requires Inv(s) && s.closed
    ensures AllSettled(Step(s, ShutdownClears))
  {
    forall f | f in s.outcomes && s.outcomes[f].Pending?
      ensures f in Queued(s.waiting) + Members(s.active) + s.stranded
    {
      assert f in Apart(s) || WaitsUnderItsKey(s.waiting, s.tickets[f], f);
    }
  }

  lemma SettledStays(s: State, e: Event)
    requires AllSettled(s) && Enabled(s, e)
    ensures AllSettled(Step(s, e)) && Step(s, e).tickets == s.tickets && Step(s, e).outcomes.Keys == s.outcomes.Keys
  {
  }

  lemma {:induction false} AllSettledLasts(states: seq<State>, events: seq<Event>, i: nat, j: nat)
    requires IsRun(states, events) && i < j < |states| && events[i].ShutdownClears?
    ensures AllSettled(states[j]) && states[j].tickets == states[i].tickets
    ensures states[j].outcomes.Keys == states[i].outcomes.Keys
    decreases j
  {
    assert StepAt(states, events, j - 1);
    if j == i + 1 {
      Reachable(states, events, i);
      ClearSettles(states[i]);
    } else {
      AllSettledLasts(states, events, i, j - 1);
      SettledStays(states[j - 1], events[j - 1]);
    }
  }

  /** The function of the future's batch raised a group while the future was open, and its caller has not
      cancelled it since. */
  ghost predicate LeftOpen(states: seq<State>, events: seq<Event>, m: nat, j: nat, f: FutureId)
    requires m < j < |states| && |states| == |events| + 1
  {
    Strands(states[m], events[m], f) && forall k :: m < k < j ==> events[k] != CallerCancels(f)
  }

  /** Once shutdown has cleared the queue, none is admitted any more, whatever happens afterwards, and a
      future is still open exactly if the function of its batch raised a group while it was open, and
      its caller has not cancelled it since. */
  lemma ShutdownSettles(states: seq<State>, events: seq<Event>, i: nat, j: nat, f: FutureId)
    requires IsRun(states, events) && i < j < |states| && events[i].ShutdownClears? && f in states[j].outcomes
    ensures states[j].tickets == states[i].tickets && states[j].outcomes.Keys == states[i].outcomes.Keys
    ensures states[j].queue == [] && states[j].waiting == map[]
    ensures states[j].outcomes[f].Pending? <==> exists m: nat :: m < j && LeftOpen(states, events, m, j, f)
  {
    AllSettledLasts(states, events, i, j);
    if states[j].outcomes[f].Pending? {
      var m := StrandedByAGroup(states, events, j, f);
      forall k | m < k < j
        ensures events[k] != CallerCancels(f)
      {
        if events[k] == CallerCancels(f) {
          KnownStays(states, events, m, k, f);
          CancelledIsDone(states, events, k, j, f);
        }
      }
      assert LeftOpen(states, events, m, j, f);
    }
    forall m: nat | m < j && LeftOpen(states, events, m, j, f)
      ensures states[j].outcomes[f].Pending?
    {
      StrandedStays(states, events, m, j, f);
    }
  }

  lemma KnownStep(s: State, e: Event, f: FutureId)
    requires Enabled(s, e) && f in s.outcomes
    ensures f in Step(s, e).outcomes
  {
  }

  lemma {:induction false} KnownStays(states: seq<State>, events: seq<Event>, m: nat, k: nat, f: FutureId)
    requires IsRun(states, events) && m <= k < |states| && f in states[m].outcomes
    ensures f in states[k].outcomes
    decreases k
  {
    if m < k {
      KnownStays(states, events, m, k - 1, f);
      assert StepAt(states, events, k - 1);
      KnownStep(states[k - 1], events[k - 1], f);
    }
  }

  lemma CancelledIsDone(states: seq<State>, events: seq<Event>, k: nat, j: nat, f: FutureId)
    requires IsRun(states, events) && k < j < |states| && events[k] == CallerCancels(f) && f in states[k].outcomes
    ensures f in states[j].outcomes && !states[j].outcomes[f].Pending?
  {
    assert StepAt(states, events, k);
    DoneIsFinal(states, events, k + 1, j, f);
  }

  /** The promise that shutdown leaves every future done is false without that condition: a run in which
      a function raises a group and its future is open after shutdown has cleared the queue. */
  lemma GroupOutlivesShutdown() returns (states: seq<State>, events: seq<Event>)
    ensures IsRun(states, events) && ShutdownClears in events
    ensures 0 in states[|events|].outcomes && states[|events|].outcomes[0].Pending?
  {
    states, events := CalledOnce();
    OneMoreStep(states, events, Finish(GroupRaised, 0));
    states, events := states + [Step(states[|events|], Finish(GroupRaised, 0))], events + [Finish(GroupRaised, 0)];
    OneMoreStep(states, events, ShutdownBegins);
    states, events := states + [Step(states[|events|], ShutdownBegins)], events + [ShutdownBegins];
    OneMoreStep(states, events, ShutdownClears);
    states, events := states + [Step(states[|events|], ShutdownClears)], events + [ShutdownClears];
    assert events[|events| - 1] == ShutdownClears;
  }

  lemma OneMoreStep(states: seq<State>, events: seq<Event>, e: Event)
    requires IsRun(states, events) && Enabled(states[|events|], e)
    ensures IsRun(states + [Step(states[|events|], e)], events + [e])
  {
    var more, run := states + [Step(states[|events|], e)], events + [e];
    forall i | 0 <= i < |run|
      ensures StepAt(more, run, i)
    {
      assert i < |events| ==> StepAt(states, events, i);
    }
  }

  function KnownOnce(): State {
    Start().(worker := Idle, tickets := map[0 := Ticket(7, 1)], outcomes := map[0 := Pending], next := 2)
  }

  function QueuedOnce(): State {
    KnownOnce().(queue := [7], waiting := map[7 := Batch(1, [0])], ranks := map[7 := 1])
  }

  function TakenOnce(): State {
    KnownOnce().(worker := Busy(Ran(7, 1, [0], 1), false), active := [0])
  }

  lemma EnqueueOnce()
    ensures Step(Start().(worker := Idle), Enqueue(7, [0], false)) == QueuedOnce()
  {
    var t := Step(Start().(worker := Idle), Enqueue(7, [0], false));
    assert Members([0]) == {0};
    assert t.tickets == map[0 := Ticket(7, 1)] && t.outcomes == map[0 := Pending];
  }

  lemma TakeOnce()
    ensures Enabled(QueuedOnce(), Take) && Step(QueuedOnce(), Take) == TakenOnce()
  {
    var t := Step(QueuedOnce(), Take);
    assert t.waiting == map[] && t.ranks == map[];
  }

  /** One call with one future is admitted, taken and called. */
  lemma CalledOnce() returns (states: seq<State>, events: seq<Event>)
    ensures IsRun(states, events)
    ensures states[|events|] == TakenOnce().(
      worker := Busy(Ran(7, 1, [0], 1), true), log := [Call(Ran(7, 1, [0], 1), 0)])
  {
    EnqueueOnce();
    TakeOnce();
    states, events := [Start()], [];
    OneMoreStep(states, events, StartWorker);
    states, events := states + [Start().(worker := Idle)], events + [StartWorker];
    OneMoreStep(states, events, Enqueue(7, [0], false));
    states, events := states + [QueuedOnce()], events + [Enqueue(7, [0], false)];
    OneMoreStep(states, events, Take);
    states, events := states + [TakenOnce()], events + [Take];
    OneMoreStep(states, events, CallFunction(0));
    states, events := states + [Step(TakenOnce(), CallFunction(0))], events + [CallFunction(0)];
  }

  // ---- Flood waits ----

  lemma PauseGrows(s: State, e: Event)
    requires Inv(s) && Enabled(s, e)
    ensures Step(s, e).pausedUntil >= s.pausedUntil
  {
  }

  lemma {:induction false} PauseLasts(states: seq<State>, events: seq<Event>, i: nat, j: nat)
    requires IsRun(states, events) && i <= j < |states|
    ensures states[i].pausedUntil <= states[j].pausedUntil
    decreases j
  {
    if i < j {
      PauseLasts(states, events, i, j - 1);
      assert StepAt(states, events, j - 1);
      Reachable(states, events, j - 1);
      PauseGrows(states[j - 1], events[j - 1]);
    }
  }

  /** After a flood-wait error no function is called before the time it asked for has passed. */
  lemma FloodWaitIsHonoured(states: seq<State>, events: seq<Event>, i: nat, j: nat)
    requires IsRun(states, events) && i < j < |events|
    requires events[i].Finish? && events[i].ending.Raised? && events[i].ending.pause > 0 && events[j].CallFunction?
    ensures events[j].now >= events[i].now + events[i].ending.pause
  {
    assert StepAt(states, events, i);
    assert StepAt(states, events, j);
    PauseLasts(states, events, i + 1, j);
  }
}
