/** Provider generations and their leases: runtime/provider_manager.py between its suspension points.

    As for admission, one event is one section without an `await`. The operation that holds the replace
    lock and the operation that holds the close lock are fields of the state, because each spans several
    sections; everything else may run between those. A cancelled operation drops its lock where it
    waits. Cleanup of a generation is a shielded task: it always runs to an end, good or bad. */
module GenerationsSpec {
  import opened Options

  type GenId = nat
  type RuntimeId = nat

  /** Whoever keeps a generation in use: a request's lease or a running catalog refresh. */
  datatype Holder = Lease(id: nat) | Refresh(id: nat)

  datatype Generation = Generation(
    runtime: RuntimeId, activeLeases: nat, retired: bool, closed: bool, drained: bool, cleaning: bool)

  datatype RefreshTask = NoTask | Scheduled(generation: GenId) | Running(id: nat)

  /** What the holder of the replace lock waits for. */
  datatype LockOp =
    | Free
    | ReplaceCancelling(waitFor: Option<nat>)
    | ReplaceRetrying(pending: set<RuntimeId>)
    | CleaningCandidate(runtime: RuntimeId)
    | ClosingPrevious(generation: GenId)
    | RefreshCancelling(waitFor: Option<nat>)
    | Refreshing(id: nat)
    | Connecting(generation: GenId)
    | CloseCancelling(waitFor: Option<nat>)

  /** What the holder of the close lock waits for, once it has retired everything. */
  datatype CloseOp =
    | NotClosing
    | Stopping
    | Draining(generations: set<GenId>, waiting: set<GenId>)
    | Closing(generations: set<GenId>)
    | RetryingUnpublished(pending: set<RuntimeId>, allClosed: bool)

  /** `refresh` is the one remembered refresh task; `strays` are generations for which a scheduled task
      was overwritten before it started, and will start all the same. */
  datatype State = State(
    generations: map<GenId, Generation>, current: GenId, nextId: GenId, retired: set<GenId>,
    unpublished: set<RuntimeId>, cleaned: set<RuntimeId>, produced: nat,
    closing: bool, closed: bool, holders: map<Holder, GenId>, refresh: RefreshTask, strays: set<GenId>,
    lock: LockOp, closer: CloseOp)

  datatype Build = FactoryFails | CommitFails | Built

  datatype Event =
    | Acquire(lease: nat)
    | Release(lease: nat)
    | StartRefresh
    | RefreshStarts(task: nat)
    | StrayStarts(generation: GenId, task: nat)
    | RefreshEnds(task: nat)
    | ReplaceBegins
    | ReplaceRetries
    | RetriedCleanupEnds(runtime: RuntimeId, ok: bool)
    | ReplaceBuilds(build: Build)
    | CandidateCleanupEnds(ok: bool)
    | ReplaceReturns
    | ExplicitRefreshBegins
    | ExplicitRefreshRuns(task: nat)
    | ExplicitRefreshEnds
    | ConnectBegins
    | ConnectEnds
    | LockHolderCancelled
    | CleanupEnds(generation: GenId, ok: bool)
    | CloseBegins
    | CloseRetires
    | DrainSeen(generation: GenId)
    | CloseDrains
    | CloseCollects
    | CloseRetryEnds(runtime: RuntimeId, ok: bool)
    | CloseEnds
    | CloseCancelled

  // ---- Pieces of sections ----

  function Update(s: State, id: GenId, generation: Generation): State {
    s.(generations := s.generations[id := generation])
  }

  /** `active_leases += 1; drained.clear()`. */
  function Hold(s: State, holder: Holder, id: GenId): State
    requires id in s.generations
  {
    var g := s.generations[id];
    Update(s, id, g.(activeLeases := g.activeLeases + 1, drained := false)).(holders := s.holders[holder := id])
  }

  /** `_close_generation` up to the task it awaits. */
  function StartCleanup(s: State, id: GenId): State
    requires id in s.generations
  {
    var g := s.generations[id];
    if g.closed || g.activeLeases != 0 then s else Update(s, id, g.(cleaning := true))
  }

  function Without<K, V>(m: map<K, V>, key: K): map<K, V> {
    map k | k in m && k != key :: m[k]
  }

  /** `_release`: the last holder of a retired generation starts its cleanup, unless shutdown will. */
  function Unhold(s: State, holder: Holder): State
    requires holder in s.holders && s.holders[holder] in s.generations
  {
    var id := s.holders[holder];
    var g := s.generations[id];
    var left := s.(holders := Without(s.holders, holder));
    if g.activeLeases == 0 then left
    else if g.activeLeases > 1 then Update(left, id, g.(activeLeases := g.activeLeases - 1))
    else
      var drained := Update(left, id, g.(activeLeases := 0, drained := true));
      if g.retired && !s.closing then StartCleanup(drained, id) else drained
  }

  /** `_cancel_refresh`: a task that has not started never will; a running one is waited for. */
  function CancelRefresh(s: State): State {
    s.(refresh := NoTask)
  }

  function RefreshToAwait(s: State): Option<nat> {
    if s.refresh.Running? then Some(s.refresh.id) else None
  }

  predicate RefreshOver(s: State, waitFor: Option<nat>) {
    waitFor.Some? ==> Refresh(waitFor.value) !in s.holders
  }

  function RuntimeCleaned(s: State, runtime: RuntimeId): State {
    s.(unpublished := s.unpublished - {runtime}, cleaned := s.cleaned + {runtime})
  }

  /** The cleanup of a generation ended well: it is closed and its runtime is gone. */
  function GenerationCleaned(s: State, id: GenId): State
    requires id in s.generations
  {
    var g := s.generations[id];
    Update(s, id, g.(cleaning := false, closed := true)).(retired := s.retired - {id}, cleaned := s.cleaned + {g.runtime})
  }

  /** The published swap of `replace`, from the counter to the background refresh. */
  function Publish(s: State): State
    requires s.current in s.generations
  {
    var previous := s.generations[s.current];
    var candidate := Generation(s.produced, 0, false, false, true, false);
    s.(generations := s.generations[s.current := previous.(retired := true)][s.nextId := candidate],
       current := s.nextId,
       nextId := s.nextId + 1,
       produced := s.produced + 1,
       retired := s.retired + {s.current},
       strays := if s.refresh.Scheduled? then s.strays + {s.refresh.generation} else s.strays,
       refresh := Scheduled(s.nextId))
  }

  function RetireCurrent(s: State): State
    requires s.current in s.generations
  {
    var g := s.generations[s.current];
    if g.retired then s
    else Update(s, s.current, g.(retired := true)).(retired := s.retired + {s.current})
  }

  /** `_close_generation` for every generation of the shutdown snapshot. */
  function StartCleanups(s: State, ids: set<GenId>): State {
    s.(generations := map id | id in s.generations ::
         var g := s.generations[id];
         if id in ids && !g.closed && g.activeLeases == 0 then g.(cleaning := true) else g)
  }

  // ---- Steps ----

  predicate ReplaceHolds(lock: LockOp) {
    lock.ReplaceCancelling? || lock.ReplaceRetrying? || lock.CleaningCandidate? || lock.ClosingPrevious?
  }

  /** `start_model_list_refresh` is not called while a replacement is between cancelling the old refresh
      and publishing. It is called at startup only, when no operation holds the replace lock at all. */
  predicate StartupRule(s: State, e: Event) {
    e.StartRefresh? ==> !s.lock.ReplaceCancelling? && !s.lock.ReplaceRetrying?
  }

  /** When the section can start. */
  predicate Enabled(s: State, e: Event) {
    && s.current in s.generations
    && match e
       case Acquire(lease) => Lease(lease) !in s.holders
       case Release(lease) => Lease(lease) in s.holders ==> s.holders[Lease(lease)] in s.generations
       case StartRefresh => true
       case RefreshStarts(task) =>
         s.refresh.Scheduled? && s.refresh.generation in s.generations && Refresh(task) !in s.holders
       case StrayStarts(id, task) => id in s.strays && id in s.generations && Refresh(task) !in s.holders
       case RefreshEnds(task) =>
         Refresh(task) in s.holders && s.holders[Refresh(task)] in s.generations && s.lock != Refreshing(task)
       case ReplaceBegins => s.lock.Free?
       case ReplaceRetries => s.lock.ReplaceCancelling? && RefreshOver(s, s.lock.waitFor)
       case RetriedCleanupEnds(runtime, _) => s.lock.ReplaceRetrying? && runtime in s.lock.pending
       case ReplaceBuilds(_) => s.lock.ReplaceRetrying? && s.lock.pending == {} && s.nextId !in s.generations
       case CandidateCleanupEnds(_) => s.lock.CleaningCandidate?
       case ReplaceReturns =>
         && s.lock.ClosingPrevious?
         && s.lock.generation in s.generations
         && !s.generations[s.lock.generation].cleaning
       case ExplicitRefreshBegins => s.lock.Free?
       case ExplicitRefreshRuns(task) =>
         s.lock.RefreshCancelling? && RefreshOver(s, s.lock.waitFor) && Refresh(task) !in s.holders
       case ExplicitRefreshEnds =>
         && s.lock.Refreshing?
         && Refresh(s.lock.id) in s.holders
         && s.holders[Refresh(s.lock.id)] in s.generations
       case ConnectBegins => s.lock.Free?
       case ConnectEnds => s.lock.Connecting?
       case LockHolderCancelled => ReplaceHolds(s.lock) || s.lock.RefreshCancelling? || s.lock.Connecting?
       case CleanupEnds(id, _) => id in s.generations && s.generations[id].cleaning
       case CloseBegins => s.closer.NotClosing? && (s.closed || s.lock.Free?)
       case CloseRetires => s.closer.Stopping? && s.lock.CloseCancelling? && RefreshOver(s, s.lock.waitFor)
       case DrainSeen(id) =>
         s.closer.Draining? && id in s.closer.waiting && id in s.generations && s.generations[id].drained
       case CloseDrains =>
         s.closer.Draining? && s.closer.waiting == {} && s.closer.generations <= s.generations.Keys
       case CloseCollects =>
         s.closer.Closing? && forall id | id in s.closer.generations :: id in s.generations && !s.generations[id].cleaning
       case CloseRetryEnds(runtime, _) => s.closer.RetryingUnpublished? && runtime in s.closer.pending
       case CloseEnds => s.closer.RetryingUnpublished? && s.closer.pending == {}
       case CloseCancelled => !s.closer.NotClosing?
  }

  predicate Refused(s: State) {
    s.closing || s.closed
  }

  function Step(s: State, e: Event): State
    requires Enabled(s, e)
  {
    match e
    case Acquire(lease) => if Refused(s) then s else Hold(s, Lease(lease), s.current)
    case Release(lease) => if Lease(lease) in s.holders then Unhold(s, Lease(lease)) else s
    case StartRefresh => if Refused(s) || !s.refresh.NoTask? then s else s.(refresh := Scheduled(s.current))
    case RefreshStarts(task) =>
      if s.generations[s.refresh.generation].closed then s.(refresh := NoTask)
      else Hold(s, Refresh(task), s.refresh.generation).(refresh := Running(task))
    case StrayStarts(id, task) =>
      var left := s.(strays := s.strays - {id});
      if s.generations[id].closed then left else Hold(left, Refresh(task), id)
    case RefreshEnds(task) =>
      Unhold(s, Refresh(task)).(refresh := if s.refresh == Running(task) then NoTask else s.refresh)
    case ReplaceBegins =>
      if Refused(s) then s else CancelRefresh(s).(lock := ReplaceCancelling(RefreshToAwait(s)))
    case ReplaceRetries => s.(lock := ReplaceRetrying(s.unpublished))
    case RetriedCleanupEnds(runtime, ok) =>
      (if ok then RuntimeCleaned(s, runtime) else s).(lock := ReplaceRetrying(s.lock.pending - {runtime}))
    case ReplaceBuilds(build) =>
      (match build
       case FactoryFails => s.(lock := Free)
       case CommitFails =>
         s.(produced := s.produced + 1, unpublished := s.unpublished + {s.produced}, lock := CleaningCandidate(s.produced))
       case Built =>
         if s.generations[s.current].activeLeases == 0 then
           StartCleanup(Publish(s), s.current).(lock := ClosingPrevious(s.current))
         else Publish(s).(lock := Free))
    case CandidateCleanupEnds(ok) => (if ok then RuntimeCleaned(s, s.lock.runtime) else s).(lock := Free)
    case ReplaceReturns => s.(lock := Free)
    case ExplicitRefreshBegins =>
      if Refused(s) then s else CancelRefresh(s).(lock := RefreshCancelling(RefreshToAwait(s)))
    case ExplicitRefreshRuns(task) =>
      if s.generations[s.current].closed then s.(lock := Free)
      else Hold(s, Refresh(task), s.current).(lock := Refreshing(task))
    case ExplicitRefreshEnds => Unhold(s, Refresh(s.lock.id)).(lock := Free)
    case ConnectBegins => if Refused(s) then s else s.(lock := Connecting(s.current))
    case ConnectEnds => s.(lock := Free)
    case LockHolderCancelled => s.(lock := Free)
    case CleanupEnds(id, ok) =>
      if ok then GenerationCleaned(s, id) else Update(s, id, s.generations[id].(cleaning := false))
    case CloseBegins =>
      if s.closed then s
      else CancelRefresh(s).(closing := true, lock := CloseCancelling(RefreshToAwait(s)), closer := Stopping)
    case CloseRetires =>
      var retiring := RetireCurrent(s);
      retiring.(lock := Free, closer := Draining(retiring.retired, retiring.retired))
    case DrainSeen(id) => s.(closer := Draining(s.closer.generations, s.closer.waiting - {id}))
    case CloseDrains => StartCleanups(s, s.closer.generations).(closer := Closing(s.closer.generations))
    case CloseCollects =>
      s.(closer := RetryingUnpublished(
           s.unpublished, forall id | id in s.closer.generations :: s.generations[id].closed))
    case CloseRetryEnds(runtime, ok) =>
      (if ok then RuntimeCleaned(s, runtime) else s).(
        closer := RetryingUnpublished(s.closer.pending - {runtime}, s.closer.allClosed && ok))
    case CloseEnds => s.(closed := s.closer.allClosed, closer := NotClosing)
    case CloseCancelled =>
      s.(closer := NotClosing, lock := if s.lock.CloseCancelling? then Free else s.lock)
  }

  /** The manager as constructed: generation 1 on the first runtime the factory made. */
  function Start(): State {
    State(map[1 := Generation(0, 0, false, false, true, false)], 1, 2, {}, {}, {}, 1,
          false, false, map[], NoTask, {}, Free, NotClosing)
  }
}
