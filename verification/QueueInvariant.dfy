/** What every reachable state of the compacting queue satisfies. */
module QueueInvariant {
  import opened QueueSpec

  // ---- The deque and the map ----

  /** Every key stands somewhere in the deque. */
  ghost predicate Listed(queue: seq<Key>, keys: set<Key>) {
    forall k :: k in keys ==> k in queue
  }

  /** The deque is in the order of the ranks. */
  ghost predicate Ranked(queue: seq<Key>, ranks: map<Key, int>) {
    && (forall i :: 0 <= i < |queue| ==> queue[i] in ranks)
    && (forall i, j :: 0 <= i < j < |queue| ==> ranks[queue[i]] < ranks[queue[j]])
  }

  /** The deque holds the map's keys, each once, in the order of their ranks. */
  ghost predicate QueueOk(queue: seq<Key>, keys: set<Key>, ranks: map<Key, int>, next: int) {
    && ranks.Keys == keys
    && Listed(queue, keys)
    && Ranked(queue, ranks)
    && (forall k :: k in ranks ==> -next < ranks[k] < next)
  }

  lemma RestListed(queue: seq<Key>, keys: set<Key>)
    requires Listed(queue, keys) && queue != []
    ensures Listed(queue[1..], keys - {queue[0]})
  {
    forall k | k in keys - {queue[0]}
      ensures k in queue[1..]
    {
      assert queue == [queue[0]] + queue[1..];
    }
  }

  lemma FirstIsLeast(queue: seq<Key>, ranks: map<Key, int>, k: Key)
    requires Ranked(queue, ranks) && Listed(queue, ranks.Keys) && queue != [] && k in ranks && k != queue[0]
    ensures ranks[queue[0]] < ranks[k]
  {
    var i :| 0 <= i < |queue| && queue[i] == k;
  }

  lemma RestRanked(queue: seq<Key>, ranks: map<Key, int>, left: map<Key, int>)
    requires Ranked(queue, ranks) && queue != []
    requires left == map k | k in ranks && k != queue[0] :: ranks[k]
    ensures Ranked(queue[1..], left)
  {
    var rest := queue[1..];
    forall i | 0 <= i < |rest|
      ensures rest[i] in left && left[rest[i]] == ranks[queue[i + 1]]
    {
      assert ranks[queue[0]] < ranks[queue[i + 1]];
    }
  }

  lemma PopFirst(queue: seq<Key>, keys: set<Key>, ranks: map<Key, int>, next: int, left: map<Key, int>)
    requires QueueOk(queue, keys, ranks, next) && queue != []
    requires left == map k | k in ranks && k != queue[0] :: ranks[k]
    ensures QueueOk(queue[1..], keys - {queue[0]}, left, next)
    ensures forall k :: k in left ==> ranks[queue[0]] < left[k]
  {
    RestListed(queue, keys);
    RestRanked(queue, ranks, left);
    forall k | k in left
      ensures ranks[queue[0]] < left[k]
    {
      FirstIsLeast(queue, ranks, k);
    }
  }

  lemma ListedJoin(queue: seq<Key>, keys: set<Key>, key: Key)
    requires Listed(queue, keys)
    ensures Listed(queue + [key], keys + {key}) && Listed([key] + queue, keys + {key})
  {
    forall k | k in keys + {key}
      ensures k in queue + [key] && k in [key] + queue
    {
      assert k == key || k in queue;
    }
  }

  lemma AddBack(queue: seq<Key>, keys: set<Key>, ranks: map<Key, int>, next: int, key: Key)
    requires QueueOk(queue, keys, ranks, next) && key !in keys && next >= 1
    ensures QueueOk(queue + [key], keys + {key}, ranks[key := next], next + 1)
  {
    ListedJoin(queue, keys, key);
    RankedBack(queue, ranks, key, next);
  }

  lemma RankedBack(queue: seq<Key>, ranks: map<Key, int>, key: Key, rank: int)
    requires Ranked(queue, ranks) && key !in ranks && forall k :: k in ranks ==> ranks[k] < rank
    ensures Ranked(queue + [key], ranks[key := rank])
  {
    var more := queue + [key];
    forall i, j | 0 <= i < j < |more|
      ensures ranks[key := rank][more[i]] < ranks[key := rank][more[j]]
    {
      assert more[i] == queue[i] && queue[i] in ranks;
    }
  }

  lemma AddFront(queue: seq<Key>, keys: set<Key>, ranks: map<Key, int>, next: int, key: Key)
    requires QueueOk(queue, keys, ranks, next) && key !in keys && next >= 1
    ensures QueueOk([key] + queue, keys + {key}, ranks[key := -next], next + 1)
  {
    ListedJoin(queue, keys, key);
    RankedFront(queue, ranks, key, -next);
  }

  lemma RankedFront(queue: seq<Key>, ranks: map<Key, int>, key: Key, rank: int)
    requires Ranked(queue, ranks) && key !in ranks && forall k :: k in ranks ==> rank < ranks[k]
    ensures Ranked([key] + queue, ranks[key := rank])
  {
    var more := [key] + queue;
    forall i, j | 0 <= i < j < |more|
      ensures ranks[key := rank][more[i]] < ranks[key := rank][more[j]]
    {
      assert more[j] == queue[j - 1] && queue[j - 1] in ranks;
      if i > 0 {
        assert more[i] == queue[i - 1] && queue[i - 1] in ranks;
      }
    }
  }

  ghost predicate KeysOk(s: State) {
    s.next >= 1 && QueueOk(s.queue, s.waiting.Keys, s.ranks, s.next)
  }

  lemma KeysTake(s: State)
    requires KeysOk(s) && Enabled(s, Take)
    ensures KeysOk(TakeFirst(s))
    ensures forall k :: k in TakeFirst(s).ranks ==> s.ranks[s.queue[0]] < TakeFirst(s).ranks[k]
  {
    var t := TakeFirst(s);
    assert t.waiting.Keys == s.waiting.Keys - {s.queue[0]};
    PopFirst(s.queue, s.waiting.Keys, s.ranks, s.next, t.ranks);
  }

  lemma JoinKeys(s: State, key: Key, futures: seq<FutureId>, front: bool)
    ensures Join(s, key, futures, front).waiting.Keys == s.waiting.Keys + {key}
  {
  }

  lemma MoreRoom(queue: seq<Key>, keys: set<Key>, ranks: map<Key, int>, next: int)
    requires QueueOk(queue, keys, ranks, next)
    ensures QueueOk(queue, keys, ranks, next + 1)
  {
  }

  lemma KeysJoinOld(s: State, key: Key, futures: seq<FutureId>, front: bool)
    requires KeysOk(s) && key in s.waiting
    ensures KeysOk(Join(s, key, futures, front))
  {
    JoinKeys(s, key, futures, front);
    assert s.waiting.Keys + {key} == s.waiting.Keys;
    MoreRoom(s.queue, s.waiting.Keys, s.ranks, s.next);
  }

  lemma FrontKeeps(s: State, t: State, key: Key)
    requires KeysOk(s) && key !in s.waiting
    requires t.queue == [key] + s.queue && t.ranks == s.ranks[key := -(s.next as int)]
    requires t.waiting.Keys == s.waiting.Keys + {key} && t.next == s.next + 1
    ensures KeysOk(t)
  {
    AddFront(s.queue, s.waiting.Keys, s.ranks, s.next, key);
  }

  lemma BackKeeps(s: State, t: State, key: Key)
    requires KeysOk(s) && key !in s.waiting
    requires t.queue == s.queue + [key] && t.ranks == s.ranks[key := s.next]
    requires t.waiting.Keys == s.waiting.Keys + {key} && t.next == s.next + 1
    ensures KeysOk(t)
  {
    AddBack(s.queue, s.waiting.Keys, s.ranks, s.next, key);
  }

  lemma KeysJoin(s: State, key: Key, futures: seq<FutureId>, front: bool)
    requires KeysOk(s)
    ensures KeysOk(Join(s, key, futures, front))
  {
    if key in s.waiting {
      KeysJoinOld(s, key, futures, front);
    } else {
      JoinKeys(s, key, futures, front);
      if front {
        FrontKeeps(s, Join(s, key, futures, front), key);
      } else {
        BackKeeps(s, Join(s, key, futures, front), key);
      }
    }
  }

  lemma KeysStep(s: State, e: Event)
    requires KeysOk(s) && Enabled(s, e)
    ensures KeysOk(Step(s, e))
  {
    match e
    case Take => KeysTake(s);
    case Enqueue(key, futures, front) =>
      if Admits(s) {
        KeysJoin(Register(s, key, Members(futures)), key, futures, front);
      }
    case _ =>
  }

  // ---- Futures ----

  predicate WaitsUnderItsKey(waiting: map<Key, Batch>, ticket: Ticket, f: FutureId) {
    ticket.key in waiting && f in waiting[ticket.key].futures
  }

  ghost predicate ActiveOk(s: State) {
    s.active == if s.worker.Busy? then s.worker.ran.futures else []
  }

  /** Every waiting future waits in the batch of its own key and is not in `apart`. */
  ghost predicate WaitingOk(waiting: map<Key, Batch>, apart: set<FutureId>, tickets: map<FutureId, Ticket>) {
    forall k, f :: k in waiting && f in waiting[k].futures ==> f in tickets && tickets[f].key == k && f !in apart
  }

  /** Every future that is not done is waiting or in `apart`. */
  ghost predicate PendingOk(
    waiting: map<Key, Batch>, apart: set<FutureId>, tickets: map<FutureId, Ticket>, outcomes: map<FutureId, Outcome>)
  {
    && tickets.Keys == outcomes.Keys
    && apart <= tickets.Keys
    && (forall f :: f in outcomes && outcomes[f].Pending? ==> f in apart || WaitsUnderItsKey(waiting, tickets[f], f))
  }

  /** The futures that wait for nothing in the queue. */
  function Apart(s: State): set<FutureId> {
    Members(s.active) + s.stranded
  }

  /** A future waits in the batch of its own key, or belongs to the batch being worked on, or is
      stranded, only one of these; one that is in none is done. */
  ghost predicate FuturesOk(s: State) {
    && WaitingOk(s.waiting, Apart(s), s.tickets)
    && PendingOk(s.waiting, Apart(s), s.tickets, s.outcomes)
    && Members(s.active) !! s.stranded
  }

  lemma WaitingJoin(s: State, key: Key, futures: seq<FutureId>, front: bool, apart: set<FutureId>)
    requires WaitingOk(s.waiting, apart, s.tickets)
    requires forall f | f in futures :: f in s.tickets && s.tickets[f].key == key && f !in apart
    ensures WaitingOk(Join(s, key, futures, front).waiting, apart, s.tickets)
  {
  }

  lemma PendingJoin(s: State, key: Key, futures: seq<FutureId>, front: bool, apart: set<FutureId>)
    requires PendingOk(s.waiting, apart + Members(futures), s.tickets, s.outcomes)
    requires forall f | f in futures :: f in s.tickets && s.tickets[f].key == key
    ensures PendingOk(Join(s, key, futures, front).waiting, apart, s.tickets, s.outcomes)
  {
    var after := Join(s, key, futures, front).waiting;
    forall f | f in s.outcomes && s.outcomes[f].Pending?
      ensures f in apart || WaitsUnderItsKey(after, s.tickets[f], f)
    {
      if f !in apart && f !in Members(futures) {
        assert WaitsUnderItsKey(s.waiting, s.tickets[f], f);
      }
    }
  }

  lemma RegisterOk(s: State, key: Key, futures: set<FutureId>)
    requires FuturesOk(s) && futures !! s.tickets.Keys
    ensures
      var r := Register(s, key, futures);
      && WaitingOk(r.waiting, Apart(r), r.tickets)
      && PendingOk(r.waiting, Apart(r) + futures, r.tickets, r.outcomes)
      && (forall f | f in futures :: f in r.tickets && r.tickets[f].key == key && f !in Apart(r))
  {
    var r := Register(s, key, futures);
    forall f | f in r.outcomes && r.outcomes[f].Pending?
      ensures f in Apart(r) + futures || WaitsUnderItsKey(r.waiting, r.tickets[f], f)
    {
      if f !in futures {
        assert f in Apart(s) || WaitsUnderItsKey(s.waiting, s.tickets[f], f);
      }
    }
  }

  lemma FuturesEnqueue(s: State, key: Key, futures: seq<FutureId>, front: bool)
    requires FuturesOk(s)
    requires forall f | f in futures :: f !in s.tickets && f !in s.outcomes
    ensures FuturesOk(Admit(s, key, futures, front))
  {
    var r := Register(s, key, Members(futures));
    RegisterOk(s, key, Members(futures));
    WaitingJoin(r, key, futures, front, Apart(r));
    PendingJoin(r, key, futures, front, Apart(r));
  }

  lemma FuturesTake(s: State)
    requires FuturesOk(s) && s.active == [] && Enabled(s, Take)
    ensures FuturesOk(TakeFirst(s))
  {
    var t := TakeFirst(s);
    forall f | f in t.outcomes && t.outcomes[f].Pending?
      ensures f in Apart(t) || WaitsUnderItsKey(t.waiting, t.tickets[f], f)
    {
      assert f in Apart(s) || WaitsUnderItsKey(s.waiting, s.tickets[f], f);
    }
  }

  lemma FuturesFinish(s: State, ending: Ending, now: int)
    requires FuturesOk(s) && Enabled(s, Finish(ending, now))
    ensures FuturesOk(Step(s, Finish(ending, now)))
  {
  }

  lemma FuturesClear(s: State)
    requires FuturesOk(s) && s.closed
    ensures FuturesOk(Step(s, ShutdownClears))
  {
  }

  lemma FuturesStep(s: State, e: Event)
    requires ActiveOk(s) && FuturesOk(s) && Enabled(s, e)
    ensures ActiveOk(Step(s, e)) && FuturesOk(Step(s, e))
  {
    match e
    case Take => FuturesTake(s);
    case Finish(ending, now) => FuturesFinish(s, ending, now);
    case ShutdownClears => FuturesClear(s);
    case Enqueue(key, futures, front) =>
      if Admits(s) {
        FuturesEnqueue(s, key, futures, front);
      }
    case _ =>
  }

  // ---- Functions and their order ----

  /** A batch carries no future that came with a later function than its own. */
  ghost predicate RanOk(ran: Ran, tickets: map<FutureId, Ticket>) {
    forall f :: f in ran.futures ==> f in tickets && tickets[f].key == ran.key && tickets[f].func <= ran.func
  }

  lemma RanGrows(ran: Ran, s: State, key: Key, futures: set<FutureId>)
    requires RanOk(ran, s.tickets) && futures !! s.tickets.Keys
    ensures RanOk(ran, Register(s, key, futures).tickets)
  {
    forall f | f in ran.futures
      ensures Register(s, key, futures).tickets[f] == s.tickets[f]
    {
      assert f !in futures;
    }
  }

  /** The function a batch waits with is the latest that came for its key. */
  ghost predicate LatestOk(waiting: map<Key, Batch>, tickets: map<FutureId, Ticket>, next: nat) {
    && (forall f :: f in tickets ==> tickets[f].func < next)
    && (forall f :: f in tickets && tickets[f].key in waiting ==> tickets[f].func <= waiting[tickets[f].key].func)
  }

  ghost predicate RansOk(s: State) {
    && (s.worker.Busy? ==> RanOk(s.worker.ran, s.tickets))
    && (forall i :: 0 <= i < |s.log| ==> RanOk(s.log[i].ran, s.tickets))
  }

  lemma LatestJoin(
    waiting: map<Key, Batch>, more: map<Key, Batch>, tickets: map<FutureId, Ticket>, known: map<FutureId, Ticket>,
    next: nat, key: Key, futures: set<FutureId>)
    requires LatestOk(waiting, tickets, next) && key in more && more[key].func == next
    requires forall k :: k in more && k != key ==> k in waiting && more[k] == waiting[k]
    requires forall f :: f in known ==> if f in futures then known[f] == Ticket(key, next) else f in tickets && known[f] == tickets[f]
    ensures LatestOk(more, known, next + 1)
  {
  }

  lemma LatestEnqueue(s: State, key: Key, futures: seq<FutureId>, front: bool)
    requires LatestOk(s.waiting, s.tickets, s.next) && Members(futures) !! s.tickets.Keys
    ensures
      var t := Admit(s, key, futures, front);
      LatestOk(t.waiting, t.tickets, t.next)
  {
    var t := Admit(s, key, futures, front);
    LatestJoin(s.waiting, t.waiting, s.tickets, t.tickets, s.next, key, Members(futures));
  }

  lemma LatestStep(s: State, e: Event)
    requires LatestOk(s.waiting, s.tickets, s.next) && Enabled(s, e)
    ensures
      var t := Step(s, e);
      LatestOk(t.waiting, t.tickets, t.next)
  {
    if e.Enqueue? && Admits(s) {
      LatestEnqueue(s, e.key, e.futures, e.front);
    }
  }

  lemma RansTake(s: State)
    requires RansOk(s) && LatestOk(s.waiting, s.tickets, s.next) && FuturesOk(s) && Enabled(s, Take)
    ensures RansOk(TakeFirst(s))
  {
  }

  lemma RansEnqueue(s: State, key: Key, futures: seq<FutureId>, front: bool)
    requires RansOk(s) && Members(futures) !! s.tickets.Keys
    ensures RansOk(Admit(s, key, futures, front))
  {
    var r := Register(s, key, Members(futures));
    if s.worker.Busy? {
      RanGrows(s.worker.ran, s, key, Members(futures));
    }
    forall i | 0 <= i < |s.log|
      ensures RanOk(s.log[i].ran, r.tickets)
    {
      RanGrows(s.log[i].ran, s, key, Members(futures));
    }
  }

  lemma OthersKeepRans(s: State, e: Event)
    requires Enabled(s, e) && !e.Take? && !e.CallFunction? && !(e.Enqueue? && Admits(s))
    ensures
      var t := Step(s, e);
      t.tickets == s.tickets && t.log == s.log && (t.worker.Busy? ==> t.worker == s.worker)
  {
  }

  lemma RansFrame(s: State, t: State)
    requires RansOk(s) && t.tickets == s.tickets && t.log == s.log
    requires t.worker.Busy? ==> t.worker == s.worker
    ensures RansOk(t)
  {
  }

  lemma RansCall(s: State, now: int)
    requires RansOk(s) && Enabled(s, CallFunction(now))
    ensures RansOk(Step(s, CallFunction(now)))
  {
  }

  lemma RansStep(s: State, e: Event)
    requires RansOk(s) && LatestOk(s.waiting, s.tickets, s.next) && FuturesOk(s) && Enabled(s, e)
    ensures RansOk(Step(s, e))
  {
    if e.Take? {
      RansTake(s);
    } else if e.CallFunction? {
      RansCall(s, e.now);
    } else if e.Enqueue? && Admits(s) {
      RansEnqueue(s, e.key, e.futures, e.front);
    } else {
      OthersKeepRans(s, e);
      RansFrame(s, Step(s, e));
    }
  }

  predicate Before(a: FuncNo, aRank: int, b: FuncNo, bRank: int) {
    a != b && (aRank > 0 && bRank > 0 ==> aRank < bRank)
  }

  /** A batch already taken is ahead of everything that waits. */
  ghost predicate AheadOfAll(func: FuncNo, rank: int, waiting: map<Key, Batch>, ranks: map<Key, int>, next: nat) {
    && func < next && rank < next
    && (forall k :: k in waiting && k in ranks ==> Before(func, rank, waiting[k].func, ranks[k]))
  }

  /** No function is called twice, and batches that were appended on the right are worked on in the
      order in which they were first enqueued. */
  ghost predicate LogOk(log: seq<Call>) {
    forall i, j :: 0 <= i < j < |log| ==> Before(log[i].ran.func, log[i].ran.rank, log[j].ran.func, log[j].ran.rank)
  }

  ghost predicate LogAhead(log: seq<Call>, waiting: map<Key, Batch>, ranks: map<Key, int>, next: nat) {
    forall i :: 0 <= i < |log| ==> AheadOfAll(log[i].ran.func, log[i].ran.rank, waiting, ranks, next)
  }

  ghost predicate WorkerOk(worker: Worker, log: seq<Call>, pausedUntil: int) {
    worker.Busy? ==>
      if worker.called then log != [] && log[|log| - 1].ran == worker.ran && pausedUntil <= log[|log| - 1].at
      else
        forall i :: 0 <= i < |log| ==> Before(log[i].ran.func, log[i].ran.rank, worker.ran.func, worker.ran.rank)
  }

  ghost predicate WorkerAhead(worker: Worker, waiting: map<Key, Batch>, ranks: map<Key, int>, next: nat) {
    worker.Busy? && !worker.called ==> AheadOfAll(worker.ran.func, worker.ran.rank, waiting, ranks, next)
  }

  ghost predicate DistinctOk(waiting: map<Key, Batch>, next: nat) {
    && (forall k :: k in waiting ==> waiting[k].func < next)
    && (forall k, l :: k in waiting && l in waiting && k != l ==> waiting[k].func != waiting[l].func)
  }

  ghost predicate OrderOk(s: State) {
    && LogOk(s.log)
    && LogAhead(s.log, s.waiting, s.ranks, s.next)
    && WorkerOk(s.worker, s.log, s.pausedUntil)
    && WorkerAhead(s.worker, s.waiting, s.ranks, s.next)
    && DistinctOk(s.waiting, s.next)
  }

  lemma OrderTake(s: State)
    requires OrderOk(s) && KeysOk(s) && Enabled(s, Take)
    ensures OrderOk(TakeFirst(s))
  {
    KeysTake(s);
  }

  lemma AheadJoin(func: FuncNo, rank: int, s: State, key: Key, futures: seq<FutureId>, front: bool)
    requires AheadOfAll(func, rank, s.waiting, s.ranks, s.next) && s.ranks.Keys == s.waiting.Keys
    ensures
      var t := Join(s, key, futures, front);
      AheadOfAll(func, rank, t.waiting, t.ranks, t.next)
  {
    var t := Join(s, key, futures, front);
    forall k | k in t.waiting && k in t.ranks
      ensures Before(func, rank, t.waiting[k].func, t.ranks[k])
    {
      if k in s.waiting {
        assert Before(func, rank, s.waiting[k].func, s.ranks[k]);
      }
    }
  }

  lemma LogJoin(s: State, key: Key, futures: seq<FutureId>, front: bool)
    requires LogAhead(s.log, s.waiting, s.ranks, s.next) && s.ranks.Keys == s.waiting.Keys
    ensures
      var t := Join(s, key, futures, front);
      LogAhead(s.log, t.waiting, t.ranks, t.next)
  {
    var t := Join(s, key, futures, front);
    forall i | 0 <= i < |s.log|
      ensures AheadOfAll(s.log[i].ran.func, s.log[i].ran.rank, t.waiting, t.ranks, t.next)
    {
      AheadJoin(s.log[i].ran.func, s.log[i].ran.rank, s, key, futures, front);
    }
  }

  lemma DistinctJoin(s: State, key: Key, futures: seq<FutureId>, front: bool)
    requires DistinctOk(s.waiting, s.next)
    ensures
      var t := Join(s, key, futures, front);
      DistinctOk(t.waiting, t.next)
  {
  }

  lemma OrderEnqueue(s: State, key: Key, futures: seq<FutureId>, front: bool)
    requires OrderOk(s) && s.ranks.Keys == s.waiting.Keys
    ensures OrderOk(Admit(s, key, futures, front))
  {
    var r := Register(s, key, Members(futures));
    LogJoin(r, key, futures, front);
    DistinctJoin(r, key, futures, front);
    if s.worker.Busy? && !s.worker.called {
      AheadJoin(s.worker.ran.func, s.worker.ran.rank, r, key, futures, front);
    }
  }

  lemma OrderCall(s: State, now: int)
    requires OrderOk(s) && Enabled(s, CallFunction(now))
    ensures OrderOk(Step(s, CallFunction(now)))
  {
  }

  lemma OrderFinish(s: State, ending: Ending, now: int)
    requires OrderOk(s) && Enabled(s, Finish(ending, now))
    ensures OrderOk(Step(s, Finish(ending, now)))
  {
  }

  lemma OrderStep(s: State, e: Event)
    requires OrderOk(s) && KeysOk(s) && Enabled(s, e)
    ensures OrderOk(Step(s, e))
  {
    match e
    case Take => OrderTake(s);
    case CallFunction(now) => OrderCall(s, now);
    case Finish(ending, now) => OrderFinish(s, ending, now);
    case Enqueue(key, futures, front) =>
      if Admits(s) {
        OrderEnqueue(s, key, futures, front);
      }
    case _ =>
  }

  // ---- Outcomes ----

  predicate Gave(call: Call, func: FuncNo, f: FutureId) {
    call.ran.func == func && f in call.ran.futures
  }

  /** A result or an error comes from a call the worker made for a batch that held the future. */
  ghost predicate OutcomesOk(outcomes: map<FutureId, Outcome>, log: seq<Call>) {
    forall f :: f in outcomes && (outcomes[f].Resolved? || outcomes[f].Failed?) ==>
      exists i :: 0 <= i < |log| && Gave(log[i], outcomes[f].func, f)
  }

  /** A call for the batch settles its futures, and gives none of the others a result. */
  lemma OutcomesFinish(s: State, ending: Ending, now: int)
    requires OutcomesOk(s.outcomes, s.log) && WorkerOk(s.worker, s.log, s.pausedUntil) && ActiveOk(s)
    requires Enabled(s, Finish(ending, now))
    ensures OutcomesOk(Step(s, Finish(ending, now)).outcomes, s.log)
  {
    var t := Step(s, Finish(ending, now));
    forall f | f in t.outcomes && (t.outcomes[f].Resolved? || t.outcomes[f].Failed?)
      ensures exists i :: 0 <= i < |s.log| && Gave(s.log[i], t.outcomes[f].func, f)
    {
      if t.outcomes[f] != s.outcomes[f] {
        assert Gave(s.log[|s.log| - 1], t.outcomes[f].func, f);
      }
    }
  }

  /** No other step gives a result. */
  lemma OutcomesFrame(outcomes: map<FutureId, Outcome>, after: map<FutureId, Outcome>, log: seq<Call>, more: seq<Call>)
    requires OutcomesOk(outcomes, log) && log <= more
    requires forall f :: f in after && (after[f].Resolved? || after[f].Failed?) ==> f in outcomes && after[f] == outcomes[f]
    ensures OutcomesOk(after, more)
  {
    forall f | f in after && (after[f].Resolved? || after[f].Failed?)
      ensures exists i :: 0 <= i < |more| && Gave(more[i], after[f].func, f)
    {
      var i :| 0 <= i < |log| && Gave(log[i], outcomes[f].func, f);
      assert more[i] == log[i];
    }
  }

  lemma OutcomesStep(s: State, e: Event)
    requires OutcomesOk(s.outcomes, s.log) && WorkerOk(s.worker, s.log, s.pausedUntil) && ActiveOk(s) && Enabled(s, e)
    ensures OutcomesOk(Step(s, e).outcomes, Step(s, e).log)
  {
    if e.Finish? {
      OutcomesFinish(s, e.ending, e.now);
    } else {
      OutcomesFrame(s.outcomes, Step(s, e).outcomes, s.log, Step(s, e).log);
    }
  }

  // ---- Together ----

  ghost predicate Inv(s: State) {
    && KeysOk(s)
    && ActiveOk(s) && FuturesOk(s)
    && LatestOk(s.waiting, s.tickets, s.next) && RansOk(s)
    && OrderOk(s)
    && OutcomesOk(s.outcomes, s.log)
  }

  lemma StartInv()
    ensures Inv(Start())
  {
  }

  lemma StepKeepsInv(s: State, e: Event)
    requires Inv(s) && Enabled(s, e)
    ensures Inv(Step(s, e))
  {
    KeysStep(s, e);
    FuturesStep(s, e);
    LatestStep(s, e);
    RansStep(s, e);
    OrderStep(s, e);
    OutcomesStep(s, e);
  }
}
