/** The compacting work queue of messaging/limiter.py between its suspension points.

    Every admitted call gets the next number: it names the function that call brought and, through the
    futures' tickets, says which futures came with it. `queue` is the deque of keys and `waiting` the
    map from key to batch. A batch also has a rank, which orders it in the deque: its number if it
    was appended on the right, and the negated number if it was put in front. `log` records the
    function calls the worker made. Keys are told apart only, so they are numbers here. */
module QueueSpec {
  type Key = nat
  type FutureId = nat
  type FuncNo = nat

  datatype Batch = Batch(func: FuncNo, futures: seq<FutureId>)

  datatype Ticket = Ticket(key: Key, func: FuncNo)

  datatype Outcome = Pending | Resolved(func: FuncNo) | Failed(func: FuncNo) | Cancelled

  /** A batch the worker took out of the queue. */
  datatype Ran = Ran(key: Key, func: FuncNo, futures: seq<FutureId>, rank: int)

  datatype Worker = Off | Idle | Busy(ran: Ran, called: bool)

  datatype Call = Call(ran: Ran, at: int)

  /** How a called function ends; a flood-wait error pauses the worker for `pause`. `GroupRaised` is an
      exception group outside `Exception`: nothing in the worker catches it. */
  datatype Ending = Returned | Raised(pause: nat) | OperationCancelled | GroupRaised

  /** `stranded` are the futures that were open when the function of their batch raised a group. */
  datatype State = State(
    queue: seq<Key>, waiting: map<Key, Batch>, ranks: map<Key, int>, worker: Worker,
    active: seq<FutureId>, tickets: map<FutureId, Ticket>, outcomes: map<FutureId, Outcome>,
    next: FuncNo, closed: bool, pausedUntil: int, log: seq<Call>, stranded: set<FutureId>)

  datatype Event =
    | StartWorker
    | Enqueue(key: Key, futures: seq<FutureId>, front: bool)
    | Take
    | CallFunction(now: int)
    | Finish(ending: Ending, now: int)
    | WorkerCancelled
    | WorkerLeaves
    | ShutdownBegins
    | ShutdownClears
    | CallerCancels(future: FutureId)

  // ---- Futures ----

  function Members(futures: seq<FutureId>): set<FutureId> {
    set f | f in futures
  }

  function Queued(waiting: map<Key, Batch>): set<FutureId> {
    set k, f | k in waiting && f in waiting[k].futures :: f
  }

  /** Every one of these futures that is not done gets the outcome. */
  function Settle(outcomes: map<FutureId, Outcome>, who: set<FutureId>, outcome: Outcome): map<FutureId, Outcome> {
    map f | f in outcomes :: if f in who && outcomes[f].Pending? then outcome else outcomes[f]
  }

  function OutcomeOf(ending: Ending, func: FuncNo): Outcome
    requires !ending.GroupRaised?
  {
    match ending
    case Returned => Resolved(func)
    case Raised(_) => Failed(func)
    case OperationCancelled => Cancelled
  }

  function Open(outcomes: map<FutureId, Outcome>, futures: set<FutureId>): set<FutureId> {
    set f | f in futures && f in outcomes && outcomes[f].Pending?
  }

  // ---- Steps ----

  predicate Enabled(s: State, e: Event) {
    match e
    case StartWorker => true
    case Enqueue(_, futures, _) => forall f | f in futures :: f !in s.tickets && f !in s.outcomes
    case Take => s.worker.Idle? && !s.closed && s.queue != [] && s.queue[0] in s.waiting && s.queue[0] in s.ranks
    case CallFunction(now) => s.worker.Busy? && !s.worker.called && now >= s.pausedUntil
    case Finish(_, now) => s.worker.Busy? && s.worker.called && s.log != [] && now >= s.log[|s.log| - 1].at
    case WorkerCancelled => !s.worker.Off?
    case WorkerLeaves => s.worker.Idle? && s.closed
    case ShutdownBegins => true
    case ShutdownClears => s.closed
    case CallerCancels(_) => true
  }

  predicate Admits(s: State) {
    !s.closed && !s.worker.Off?
  }

  function Step(s: State, e: Event): State
    requires Enabled(s, e)
  {
    match e
    case StartWorker => if !s.closed && s.worker.Off? then s.(worker := Idle) else s
    case Enqueue(key, futures, front) => if Admits(s) then Admit(s, key, futures, front) else s
    case Take => TakeFirst(s)
    case CallFunction(now) =>
      s.(worker := s.worker.(called := true), log := s.log + [Call(s.worker.ran, now)])
    case Finish(ending, now) =>
      if ending.GroupRaised? then
        s.(stranded := s.stranded + Open(s.outcomes, Members(s.active)), active := [], worker := Off)
      else
        s.(outcomes := Settle(s.outcomes, Members(s.active), OutcomeOf(ending, s.worker.ran.func)),
           active := [],
           worker := if s.closed then Off else Idle,
           pausedUntil := if ending.Raised? && ending.pause > 0 then now + ending.pause else s.pausedUntil)
    case WorkerCancelled =>
      s.(outcomes := Settle(s.outcomes, Members(s.active), Cancelled), active := [], worker := Off)
    case WorkerLeaves => s.(worker := Off)
    case ShutdownBegins => s.(closed := true)
    case ShutdownClears =>
      s.(outcomes := Settle(s.outcomes, Queued(s.waiting) + Members(s.active), Cancelled),
         queue := [], waiting := map[], ranks := map[])
    case CallerCancels(future) => s.(outcomes := Settle(s.outcomes, {future}, Cancelled))
  }

  /** The futures of a call become known, under the next number. */
  function Register(s: State, key: Key, futures: set<FutureId>): State {
    s.(tickets := s.tickets + map f | f in futures :: Ticket(key, s.next),
       outcomes := s.outcomes + map f | f in futures :: Pending)
  }

  /** The call joins the batch of its key, whose function it replaces, or becomes a new batch. */
  function Join(s: State, key: Key, futures: seq<FutureId>, front: bool): State {
    if key in s.waiting then
      s.(waiting := s.waiting[key := Batch(s.next, s.waiting[key].futures + futures)], next := s.next + 1)
    else
      var number: int := s.next;
      s.(waiting := s.waiting[key := Batch(s.next, futures)],
         ranks := s.ranks[key := if front then -number else number],
         queue := if front then [key] + s.queue else s.queue + [key],
         next := s.next + 1)
  }

  function Admit(s: State, key: Key, futures: seq<FutureId>, front: bool): State {
    Join(Register(s, key, Members(futures)), key, futures, front)
  }

  function TakeFirst(s: State): State
    requires s.queue != [] && s.queue[0] in s.waiting && s.queue[0] in s.ranks
  {
    var key := s.queue[0];
    var batch := s.waiting[key];
    s.(queue := s.queue[1..],
       waiting := map k | k in s.waiting && k != key :: s.waiting[k],
       ranks := map k | k in s.ranks && k != key :: s.ranks[k],
       worker := Busy(Ran(key, batch.func, batch.futures, s.ranks[key]), false),
       active := batch.futures)
  }

  function Start(): State {
    State([], map[], map[], Off, [], map[], map[], 1, false, 0, [], {})
  }
}
