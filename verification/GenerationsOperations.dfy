/** What each section of the provider manager achieves, in every state of every run, said in the fields of
    the state: who holds what, when a generation is retired, cleaned and closed, what becomes of runtimes,
    and what waits for what. */
module GenerationsOperations {
  import opened Options
  import opened GenerationsSpec
  import opened GenerationsInvariant
  import opened GenerationsRuns

  // ---- Holding and giving back ----

  /** The section makes `holder` hold generation `id`: a lease that is granted, or a refresh that starts. */
  predicate Takes(s: State, e: Event, holder: Holder, id: GenId) {
    match e
    case Acquire(lease) => holder == Lease(lease) && id == s.current && !s.closing && !s.closed
    case RefreshStarts(task) => holder == Refresh(task) && s.refresh == Scheduled(id)
    case ExplicitRefreshRuns(task) => holder == Refresh(task) && id == s.current
    case _ => false
  }

  /** The section gives back what `holder` held. */
  predicate GivesBack(s: State, e: Event, holder: Holder) {
    match e
    case Release(lease) => holder == Lease(lease)
    case RefreshEnds(task) => holder == Refresh(task)
    case ExplicitRefreshEnds => s.lock.Refreshing? && holder == Refresh(s.lock.id)
    case _ => false
  }

  /** Whoever takes a generation holds it, whoever gives it back holds it no longer, and nobody else's hold
      is touched. */
  ghost predicate HoldsMove(s: State, e: Event, t: State, holder: Holder) {
    && (holder in t.holders <==> (holder in s.holders && !GivesBack(s, e, holder)) || exists id :: Takes(s, e, holder, id))
    && (holder in s.holders && holder in t.holders ==> t.holders[holder] == s.holders[holder])
    && (forall id :: Takes(s, e, holder, id) ==> holder !in s.holders && t.holders[holder] == id)
  }

  lemma StepMovesHolds(s: State, e: Event, holder: Holder)
    requires Inv(s) && Enabled(s, e)
    ensures HoldsMove(s, e, Step(s, e), holder)
  {
    if e.Release? || e.RefreshEnds? || e.ExplicitRefreshEnds? {
      ReleasesMoveHolds(s, e, holder);
    } else if Leases(e) {
      assert Placed(s, s.current, s.generations[s.current]);
      TakesMoveHolds(s, e, holder);
    } else {
      OthersKeepHolders(s, e);
    }
  }

  lemma UnholdDrops(s: State, holder: Holder)
    requires holder in s.holders && s.holders[holder] in s.generations
    ensures Unhold(s, holder).holders == map h | h in s.holders && h != holder :: s.holders[h]
  {
  }

  lemma OthersKeepHolders(s: State, e: Event)
    requires Enabled(s, e) && !Leases(e)
    ensures Step(s, e).holders == s.holders
  {
    match e {
      case ReplaceBuilds(_) =>
      case CleanupEnds(_, _) =>
      case CloseRetires =>
      case CloseDrains =>
      case _ =>
    }
  }

  lemma ReleasesMoveHolds(s: State, e: Event, holder: Holder)
    requires Enabled(s, e) && (e.Release? || e.RefreshEnds? || e.ExplicitRefreshEnds?)
    ensures HoldsMove(s, e, Step(s, e), holder)
  {
    match e {
      case Release(lease) =>
        if Lease(lease) in s.holders {
          UnholdDrops(s, Lease(lease));
        }
      case RefreshEnds(task) => UnholdDrops(s, Refresh(task));
      case ExplicitRefreshEnds => UnholdDrops(s, Refresh(s.lock.id));
    }
  }

  lemma TakesMoveHolds(s: State, e: Event, holder: Holder)
    requires LockOk(s) && CloserOk(s) && Enabled(s, e) && Placed(s, s.current, s.generations[s.current])
    requires e.Acquire? || e.RefreshStarts? || e.StrayStarts? || e.ExplicitRefreshRuns?
    ensures HoldsMove(s, e, Step(s, e), holder)
  {
    match e {
      case Acquire(lease) => assert Takes(s, e, holder, s.current) <==> holder == Lease(lease) && !Refused(s);
      case RefreshStarts(task) => assert Takes(s, e, holder, s.refresh.generation) <==> holder == Refresh(task);
      case StrayStarts(_, _) =>
      case ExplicitRefreshRuns(task) => assert Takes(s, e, holder, s.current) <==> holder == Refresh(task);
    }
  }

  /** In every run, section by section: who holds what afterwards. */
  lemma HoldsAreExact(states: seq<State>, events: seq<Event>, n: nat, holder: Holder)
    requires IsRun(states, events) && n < |events|
    ensures HoldsMove(states[n], events[n], states[n + 1], holder)
  {
    Reachable(states, events, n);
    assert StepAt(states, events, n);
    StepMovesHolds(states[n], events[n], holder);
  }

  /** A granted lease and a started refresh keep what they hold in use: from then on and until they give it
      back, whatever else happens, they hold the generation that was current or scheduled, and it is neither
      closed nor being cleaned, nor is its runtime gone. */
  lemma {:induction false} InUseUntilGivenBack(
    states: seq<State>, events: seq<Event>, i: nat, j: nat, holder: Holder, id: GenId)
    requires IsRun(states, events) && i < j < |states| && Takes(states[i], events[i], holder, id)
    requires forall k :: i < k < j ==> !GivesBack(states[k], events[k], holder)
    ensures
      var s := states[j];
      && holder in s.holders && s.holders[holder] == id && id in s.generations
      && !s.generations[id].cleaning && !s.generations[id].closed && s.generations[id].runtime !in s.cleaned
    decreases j
  {
    HoldsAreExact(states, events, j - 1, holder);
    if j > i + 1 {
      InUseUntilGivenBack(states, events, i, j - 1, holder, id);
    }
    UsedRuntimesAreLive(states, events, j, id);
  }

  // ---- The life of a generation ----

  ghost predicate Unheld(holders: map<Holder, GenId>, id: GenId) {
    forall h | h in holders :: holders[h] != id
  }

  lemma UnheldMeansZero(holders: map<Holder, GenId>, id: GenId, g: Generation)
    requires Counted(holders, id, g)
    ensures g.activeLeases == 0 <==> Unheld(holders, id)
  {
    if g.activeLeases == 0 {
      assert HoldersOf(holders, id) == {};
      forall h | h in holders
        ensures holders[h] != id
      {
        assert h !in HoldersOf(holders, id);
      }
    } else {
      assert HoldersOf(holders, id) != {};
      var h :| h in HoldersOf(holders, id);
    }
  }

  /** The section gives back a hold on the generation. */
  ghost predicate LetsGo(s: State, e: Event, id: GenId) {
    exists h :: h in s.holders && s.holders[h] == id && GivesBack(s, e, h)
  }

  /** The generation's cleanup begins: it is retired and not closed, nobody holds it any more, and this is
      its last release outside shutdown, or it was replaced, or shutdown cleans. */
  ghost predicate CleanupBegins(s: State, e: Event, t: State, id: GenId)
    requires id in s.generations
  {
    && !s.generations[id].closed
    && Unheld(t.holders, id)
    && (|| (s.generations[id].retired && !s.closing && LetsGo(s, e, id))
        || (e == ReplaceBuilds(Built) && id == s.current)
        || (e.CloseDrains? && s.closer.Draining? && id in s.closer.generations))
  }

  /** A generation keeps its runtime; it is retired when it is replaced or when shutdown retires it; its
      cleanup begins as above and is over when it ends; and it is closed by a cleanup that ended well. */
  ghost predicate LifeMoves(s: State, e: Event, t: State, id: GenId)
    requires id in s.generations
  {
    && id in t.generations
    && var g, h := s.generations[id], t.generations[id];
       && h.runtime == g.runtime
       && (h.retired <==> g.retired || (id == s.current && (e == ReplaceBuilds(Built) || e.CloseRetires?)))
       && (h.closed <==> g.closed || e == CleanupEnds(id, true))
       && (h.cleaning <==> (g.cleaning && !(e.CleanupEnds? && e.generation == id)) || CleanupBegins(s, e, t, id))
  }

  ghost predicate Known(s: State, id: GenId) {
    id in s.generations && Placed(s, id, s.generations[id]) && Counted(s.holders, id, s.generations[id])
  }

  lemma ReleaseChanges(s: State, holder: Holder, id: GenId)
    requires holder in s.holders && s.holders[holder] in s.generations && Known(s, id)
    requires s.generations[s.holders[holder]].activeLeases > 0
    ensures
      var t := Unhold(s, holder);
      && id in t.generations
      && var g, h := s.generations[id], t.generations[id];
         && h.runtime == g.runtime && h.retired == g.retired && h.closed == g.closed
         && (h.cleaning <==>
             g.cleaning || (s.holders[holder] == id && g.retired && !s.closing && !g.closed && h.activeLeases == 0))
  {
  }

  lemma ReleaseMovesLife(s: State, e: Event, t: State, holder: Holder, id: GenId)
    requires Core(s) && holder in s.holders && id in s.generations
    requires GivesBack(s, e, holder) && forall h :: GivesBack(s, e, h) ==> h == holder
    requires t.generations == Unhold(s, holder).generations && t.holders == Unhold(s, holder).holders
    ensures LifeMoves(s, e, t, id)
  {
    HolderCounts(s, holder);
    assert Known(s, id) by {
      assert Placed(s, id, s.generations[id]) && Counted(s.holders, id, s.generations[id]);
    }
    ReleaseChanges(s, holder, id);
    UnholdKeeps(s, holder);
    assert Counted(t.holders, id, t.generations[id]);
    UnheldMeansZero(t.holders, id, t.generations[id]);
    assert LetsGo(s, e, id) <==> s.holders[holder] == id;
  }

  lemma ReleasesMoveLife(s: State, e: Event, id: GenId)
    requires Core(s) && Enabled(s, e) && id in s.generations
    requires e.Release? || e.RefreshEnds? || e.ExplicitRefreshEnds?
    ensures LifeMoves(s, e, Step(s, e), id)
  {
    match e {
      case Release(lease) =>
        if Lease(lease) in s.holders {
          ReleaseMovesLife(s, e, Step(s, e), Lease(lease), id);
        }
      case RefreshEnds(task) => ReleaseMovesLife(s, e, Step(s, e), Refresh(task), id);
      case ExplicitRefreshEnds => ReleaseMovesLife(s, e, Step(s, e), Refresh(s.lock.id), id);
    }
  }

  lemma TakesMoveLife(s: State, e: Event, id: GenId)
    requires Enabled(s, e) && id in s.generations && s.strays == {}
    requires e.Acquire? || e.RefreshStarts? || e.StrayStarts? || e.ExplicitRefreshRuns?
    ensures LifeMoves(s, e, Step(s, e), id)
  {
    assert forall h :: !GivesBack(s, e, h);
    assert !LetsGo(s, e, id);
  }

  lemma BuildMovesLife(s: State, build: Build, id: GenId)
    requires Known(s, id) && Known(s, s.current) && Enabled(s, ReplaceBuilds(build)) && !s.closing
    ensures LifeMoves(s, ReplaceBuilds(build), Step(s, ReplaceBuilds(build)), id)
  {
    UnheldMeansZero(s.holders, id, s.generations[id]);
    assert Step(s, ReplaceBuilds(build)).holders == s.holders;
    assert !LetsGo(s, ReplaceBuilds(build), id);
  }

  lemma DrainsMoveLife(s: State, id: GenId)
    requires Known(s, id) && Enabled(s, CloseDrains)
    ensures LifeMoves(s, CloseDrains, Step(s, CloseDrains), id)
  {
    UnheldMeansZero(s.holders, id, s.generations[id]);
    assert !LetsGo(s, CloseDrains, id);
  }

  lemma RetiresMoveLife(s: State, id: GenId)
    requires Known(s, id) && Enabled(s, CloseRetires)
    ensures LifeMoves(s, CloseRetires, Step(s, CloseRetires), id)
  {
    assert !LetsGo(s, CloseRetires, id);
  }

  lemma CleanupMovesLife(s: State, of: GenId, ok: bool, id: GenId)
    requires Known(s, id) && Enabled(s, CleanupEnds(of, ok))
    ensures LifeMoves(s, CleanupEnds(of, ok), Step(s, CleanupEnds(of, ok)), id)
  {
    assert !LetsGo(s, CleanupEnds(of, ok), id);
  }

  lemma OthersMoveLife(s: State, e: Event, id: GenId)
    requires Known(s, id)
    requires Enabled(s, e) && !Leases(e) && !e.ReplaceBuilds? && !e.CleanupEnds? && !e.CloseRetires? && !e.CloseDrains?
    ensures LifeMoves(s, e, Step(s, e), id)
  {
    OthersKeepGenerations(s, e);
    assert !LetsGo(s, e, id);
  }

  lemma OthersKeepGenerations(s: State, e: Event)
    requires Enabled(s, e) && !Leases(e) && !e.ReplaceBuilds? && !e.CleanupEnds? && !e.CloseRetires? && !e.CloseDrains?
    ensures Step(s, e).generations == s.generations && Step(s, e).current == s.current && Step(s, e).nextId == s.nextId
  {
    match e {
      case RetriedCleanupEnds(_, _) =>
      case CandidateCleanupEnds(_) =>
      case CloseRetryEnds(_, _) =>
      case CloseCollects =>
      case CloseCancelled =>
      case _ =>
    }
  }

  lemma StepMovesLife(s: State, e: Event, id: GenId)
    requires Core(s) && LockOk(s) && Enabled(s, e) && Known(s, id) && Known(s, s.current)
    ensures LifeMoves(s, e, Step(s, e), id)
  {
    if e.Release? || e.RefreshEnds? || e.ExplicitRefreshEnds? {
      ReleasesMoveLife(s, e, id);
    } else if Leases(e) {
      TakesMoveLife(s, e, id);
    } else if e.ReplaceBuilds? {
      BuildMovesLife(s, e.build, id);
    } else if e.CloseDrains? {
      DrainsMoveLife(s, id);
    } else if e.CloseRetires? {
      RetiresMoveLife(s, id);
    } else if e.CleanupEnds? {
      CleanupMovesLife(s, e.generation, e.ok, id);
    } else {
      OthersMoveLife(s, e, id);
    }
  }

  /** The whole life of every generation, section by section. */
  lemma GenerationsMove(states: seq<State>, events: seq<Event>, n: nat, id: GenId)
    requires IsRun(states, events) && n < |events| && id in states[n].generations
    ensures LifeMoves(states[n], events[n], states[n + 1], id)
  {
    Reachable(states, events, n);
    assert StepAt(states, events, n);
    assert Known(states[n], id) && Known(states[n], states[n].current);
    StepMovesLife(states[n], events[n], id);
  }

  /** A section makes no generation but the one it publishes, under the next number; and what is current
      changes only so. */
  lemma OnlyReplaceMakesGenerations(states: seq<State>, events: seq<Event>, n: nat)
    requires IsRun(states, events) && n < |events|
    ensures NumbersMoved(states[n], states[n + 1], events[n] == ReplaceBuilds(Built))
  {
    Reachable(states, events, n);
    assert StepAt(states, events, n);
    NumbersMove(states[n], events[n]);
  }

  /** Holding and giving back touches no number, no runtime and no flag of shutdown. */
  lemma LeasesLeaveTheRest(s: State, e: Event)
    requires Enabled(s, e) && Leases(e)
    ensures
      var t := Step(s, e);
      && t == s.(generations := t.generations, holders := t.holders, refresh := t.refresh, strays := t.strays, lock := t.lock)
      && t.generations.Keys == s.generations.Keys
  {
    match e {
      case Release(lease) =>
        if Lease(lease) in s.holders {
          UnholdShape(s, Lease(lease));
        }
      case RefreshEnds(task) => UnholdShape(s, Refresh(task));
      case ExplicitRefreshEnds => UnholdShape(s, Refresh(s.lock.id));
      case _ =>
    }
  }

  ghost predicate NumbersMoved(s: State, t: State, built: bool) {
    && t.generations.Keys == s.generations.Keys + (if built then {s.nextId} else {})
    && t.current == (if built then s.nextId else s.current)
    && t.nextId == (if built then s.nextId + 1 else s.nextId)
    && (built ==> s.nextId in t.generations && t.generations[s.nextId] == Generation(s.produced, 0, false, false, true, false))
  }

  lemma BuildMovesNumbers(s: State, build: Build)
    requires Enabled(s, ReplaceBuilds(build)) && s.nextId != s.current
    ensures NumbersMoved(s, Step(s, ReplaceBuilds(build)), build.Built?)
  {
  }

  lemma CleaningMovesNumbers(s: State, e: Event)
    requires Enabled(s, e) && (e.CleanupEnds? || e.CloseRetires? || e.CloseDrains?)
    ensures NumbersMoved(s, Step(s, e), false)
  {
  }

  lemma NumbersMove(s: State, e: Event)
    requires Enabled(s, e) && (e.ReplaceBuilds? ==> s.nextId != s.current)
    ensures NumbersMoved(s, Step(s, e), e == ReplaceBuilds(Built))
  {
    if Leases(e) {
      LeasesLeaveTheRest(s, e);
    } else if e.ReplaceBuilds? {
      BuildMovesNumbers(s, e.build);
    } else if e.CleanupEnds? || e.CloseRetires? || e.CloseDrains? {
      CleaningMovesNumbers(s, e);
    } else {
      OthersKeepGenerations(s, e);
    }
  }

  // ---- Runtimes ----

  /** The cleanup of an unpublished runtime ended well. */
  predicate CleansCandidate(s: State, e: Event, r: RuntimeId) {
    || e == RetriedCleanupEnds(r, true)
    || e == CloseRetryEnds(r, true)
    || (e == CandidateCleanupEnds(true) && s.lock == CleaningCandidate(r))
  }

  /** A runtime is kept as unpublished from a failed commit until a cleanup of it ends well, and is cleaned
      from a cleanup that ended well on, of itself or of its generation. */
  ghost predicate RuntimeMoves(s: State, e: Event, t: State, r: RuntimeId) {
    && (r in t.unpublished <==>
          (r in s.unpublished && !CleansCandidate(s, e, r)) || (e == ReplaceBuilds(CommitFails) && r == s.produced))
    && (r in t.cleaned <==>
          || r in s.cleaned
          || CleansCandidate(s, e, r)
          || exists id :: e == CleanupEnds(id, true) && id in s.generations && s.generations[id].runtime == r)
    && t.produced == s.produced + (if e == ReplaceBuilds(CommitFails) || e == ReplaceBuilds(Built) then 1 else 0)
  }

  lemma RuntimesMove(states: seq<State>, events: seq<Event>, n: nat, r: RuntimeId)
    requires IsRun(states, events) && n < |events|
    ensures RuntimeMoves(states[n], events[n], states[n + 1], r)
  {
    Reachable(states, events, n);
    assert StepAt(states, events, n);
    StepMovesRuntime(states[n], events[n], r);
  }

  lemma StepMovesRuntime(s: State, e: Event, r: RuntimeId)
    requires LockOk(s) && Enabled(s, e)
    ensures RuntimeMoves(s, e, Step(s, e), r)
  {
    if Leases(e) {
      LeasesLeaveTheRest(s, e);
    } else if e.CleanupEnds? {
      CleanupMovesRuntime(s, e.generation, e.ok, r);
    } else if e.ReplaceBuilds? {
      BuildMovesRuntime(s, e.build, r);
    } else {
      OthersMoveRuntime(s, e, r);
    }
  }

  lemma CleanupMovesRuntime(s: State, id: GenId, ok: bool, r: RuntimeId)
    requires Enabled(s, CleanupEnds(id, ok))
    ensures RuntimeMoves(s, CleanupEnds(id, ok), Step(s, CleanupEnds(id, ok)), r)
  {
    assert ok ==> CleanupEnds(id, ok) == CleanupEnds(id, true);
  }

  lemma BuildMovesRuntime(s: State, build: Build, r: RuntimeId)
    requires Enabled(s, ReplaceBuilds(build))
    ensures RuntimeMoves(s, ReplaceBuilds(build), Step(s, ReplaceBuilds(build)), r)
  {
  }

  lemma OthersMoveRuntime(s: State, e: Event, r: RuntimeId)
    requires Enabled(s, e) && !Leases(e) && !e.CleanupEnds? && !e.ReplaceBuilds?
    ensures RuntimeMoves(s, e, Step(s, e), r)
  {
    if e.RetriedCleanupEnds? || e.CandidateCleanupEnds? || e.CloseRetryEnds? {
      CandidateMovesRuntime(s, e, r);
    } else {
      OthersKeepRuntimes(s, e);
    }
  }

  lemma CandidateMovesRuntime(s: State, e: Event, r: RuntimeId)
    requires Enabled(s, e) && (e.RetriedCleanupEnds? || e.CandidateCleanupEnds? || e.CloseRetryEnds?)
    ensures RuntimeMoves(s, e, Step(s, e), r)
  {
  }

  lemma OthersKeepRuntimes(s: State, e: Event)
    requires Enabled(s, e) && !Leases(e) && !Cleans(e) && !e.ReplaceBuilds?
    ensures
      var t := Step(s, e);
      t.unpublished == s.unpublished && t.cleaned == s.cleaned && t.produced == s.produced
  {
    match e {
      case CloseRetires =>
      case CloseDrains =>
      case _ =>
    }
  }

  /** A replacement builds only after it has tried every candidate that was kept before once more: one that
      is still kept had its cleanup fail again. */
  lemma {:induction false} KeptCandidatesAreRetried(
    states: seq<State>, events: seq<Event>, i: nat, j: nat, r: RuntimeId) returns (m: nat)
    requires IsRun(states, events) && i < j < |states| && Replacing(states, events, i, j)
    requires states[j].lock.ReplaceRetrying? && r in states[j].unpublished && r !in states[j].lock.pending
    ensures i < m < j && events[m] == RetriedCleanupEnds(r, false)
    decreases j
  {
    assert StepAt(states, events, j - 1);
    if events[j - 1] == RetriedCleanupEnds(r, false) {
      m := j - 1;
    } else {
      StillKept(states, events, j, r);
      m := KeptCandidatesAreRetried(states, events, i, j - 1, r);
    }
  }

  lemma StillKept(states: seq<State>, events: seq<Event>, j: nat, r: RuntimeId)
    requires IsRun(states, events) && 0 < j < |states|
    requires states[j].lock.ReplaceRetrying? && r in states[j].unpublished && r !in states[j].lock.pending
    requires events[j - 1] != RetriedCleanupEnds(r, false)
    ensures
      var s := states[j - 1];
      s.lock.ReplaceRetrying? && r in s.unpublished && r !in s.lock.pending && !events[j - 1].ReplaceBegins?
  {
    assert StepAt(states, events, j - 1);
    Reachable(states, events, j - 1);
    RuntimesMove(states, events, j - 1, r);
    PendingMoves(states[j - 1], events[j - 1]);
  }

  /** Where a replacement that is trying its kept candidates can come from. */
  lemma PendingMoves(s: State, e: Event)
    requires LockOk(s) && Enabled(s, e) && Step(s, e).lock.ReplaceRetrying?
    ensures
      var t := Step(s, e);
      || (e.ReplaceRetries? && t.lock.pending == s.unpublished && t.unpublished == s.unpublished)
      || (s.lock.ReplaceRetrying? && e.RetriedCleanupEnds? && t.lock.pending == s.lock.pending - {e.runtime})
      || (s.lock == t.lock && !e.ReplaceBegins? && !e.ReplaceBuilds?)
  {
    match e {
      case Release(lease) =>
        if Lease(lease) in s.holders {
          UnholdShape(s, Lease(lease));
        }
      case RefreshEnds(task) => UnholdShape(s, Refresh(task));
      case ExplicitRefreshEnds =>
      case _ =>
    }
  }

  // ---- Waiting for the old refresh ----

  /** An operation that cancels the background refresh and then waits for it. */
  predicate CancelsRefresh(s: State, e: Event) {
    (e.ReplaceBegins? && !Refused(s)) || (e.ExplicitRefreshBegins? && !Refused(s)) || (e.CloseBegins? && !s.closed)
  }

  /** The same operation going on after its wait. */
  predicate GoesOn(e: Event) {
    e.ReplaceRetries? || e.ExplicitRefreshRuns? || e.CloseRetires?
  }

  predicate Awaits(lock: LockOp, task: nat) {
    lock == ReplaceCancelling(Some(task)) || lock == RefreshCancelling(Some(task)) || lock == CloseCancelling(Some(task))
  }

  lemma CancellingAwaits(s: State, e: Event)
    requires Enabled(s, e) && CancelsRefresh(s, e)
    ensures Step(s, e).refresh.NoTask?
    ensures s.refresh.Running? ==> Awaits(Step(s, e).lock, s.refresh.id)
  {
  }

  lemma AwaitingStays(s: State, e: Event, task: nat)
    requires LockOk(s) && CloserOk(s) && Enabled(s, e) && Awaits(s.lock, task)
    ensures GoesOn(e) ==> Refresh(task) !in s.holders
    ensures !GoesOn(e) && !Step(s, e).lock.Free? ==> Awaits(Step(s, e).lock, task)
  {
    if LeavesTheLock(e) {
      OthersLeaveTheLock(s, e);
    }
  }

  lemma {:induction false} AwaitsUntilThen(states: seq<State>, events: seq<Event>, i: nat, j: nat)
    requires IsRun(states, events) && i < j < |states| && CancelsRefresh(states[i], events[i]) && states[i].refresh.Running?
    requires forall k :: i < k < j ==> !GoesOn(events[k])
    requires forall k :: i < k <= j ==> !states[k].lock.Free?
    ensures Awaits(states[j].lock, states[i].refresh.id)
    decreases j
  {
    assert StepAt(states, events, j - 1);
    if j > i + 1 {
      AwaitsUntilThen(states, events, i, j - 1);
      Reachable(states, events, j - 1);
      AwaitingStays(states[j - 1], events[j - 1], states[i].refresh.id);
    } else {
      CancellingAwaits(states[i], events[i]);
    }
  }

  /** A replacement, an explicit refresh and shutdown forget the background refresh when they begin, and do
      not go on before the one that was running then holds nothing any more. */
  lemma OldRefreshIsAwaited(states: seq<State>, events: seq<Event>, i: nat, j: nat)
    requires IsRun(states, events) && i < j < |events| && CancelsRefresh(states[i], events[i])
    requires GoesOn(events[j]) && forall k :: i < k < j ==> !GoesOn(events[k])
    requires forall k :: i < k <= j ==> !states[k].lock.Free?
    ensures states[i + 1].refresh.NoTask?
    ensures states[i].refresh.Running? ==> Refresh(states[i].refresh.id) !in states[j].holders
  {
    assert StepAt(states, events, i) && StepAt(states, events, j);
    CancellingAwaits(states[i], events[i]);
    if states[i].refresh.Running? {
      AwaitsUntilThen(states, events, i, j);
      Reachable(states, events, j);
      AwaitingStays(states[j], events[j], states[i].refresh.id);
    }
  }

  /** The one remembered refresh: a start schedules it for the current generation unless one is remembered
      or the manager is shutting down, a publication schedules the next; it runs once it holds its
      generation, and is forgotten when it ends or is cancelled. */
  lemma RefreshTaskMoves(states: seq<State>, events: seq<Event>, n: nat)
    requires IsRun(states, events) && n < |events|
    ensures
      var s, e, t := states[n], events[n], states[n + 1];
      t.refresh ==
        if e.StartRefresh? && s.refresh.NoTask? && !s.closing && !s.closed then Scheduled(s.current)
        else if e == ReplaceBuilds(Built) then Scheduled(t.current)
        else if e.RefreshStarts? then Running(e.task)
        else if (e.RefreshEnds? && s.refresh == Running(e.task)) || CancelsRefresh(s, e) then NoTask
        else s.refresh
  {
    Reachable(states, events, n);
    assert StepAt(states, events, n);
    var s, e := states[n], events[n];
    assert Placed(s, s.current, s.generations[s.current]);
    StepMovesRefresh(s, e);
  }

  lemma LeasesMoveRefresh(s: State, e: Event)
    requires Enabled(s, e) && Leases(e) && s.strays == {}
    requires e.RefreshStarts? ==> !s.generations[s.refresh.generation].closed
    ensures
      Step(s, e).refresh ==
        if e.RefreshStarts? then Running(e.task)
        else if e.RefreshEnds? && s.refresh == Running(e.task) then NoTask
        else s.refresh
  {
    match e {
      case Release(lease) =>
        if Lease(lease) in s.holders {
          UnholdShape(s, Lease(lease));
        }
      case RefreshEnds(running) => UnholdShape(s, Refresh(running));
      case ExplicitRefreshEnds => UnholdShape(s, Refresh(s.lock.id));
      case _ =>
    }
  }

  lemma StepMovesRefresh(s: State, e: Event)
    requires LockOk(s) && CloserOk(s) && Enabled(s, e) && Placed(s, s.current, s.generations[s.current])
    ensures
      var t := Step(s, e);
      t.refresh ==
        if e.StartRefresh? && s.refresh.NoTask? && !s.closing && !s.closed then Scheduled(s.current)
        else if e == ReplaceBuilds(Built) then Scheduled(t.current)
        else if e.RefreshStarts? then Running(e.task)
        else if (e.RefreshEnds? && s.refresh == Running(e.task)) || CancelsRefresh(s, e) then NoTask
        else s.refresh
  {
    if Leases(e) {
      LeasesMoveRefresh(s, e);
    } else if e.ReplaceBuilds? {
      BuildMovesRefresh(s, e.build);
    } else {
      OthersMoveRefresh(s, e);
    }
  }

  lemma BuildMovesRefresh(s: State, build: Build)
    requires Enabled(s, ReplaceBuilds(build))
    ensures
      var t := Step(s, ReplaceBuilds(build));
      t.refresh == if build.Built? then Scheduled(t.current) else s.refresh
  {
  }

  lemma OthersMoveRefresh(s: State, e: Event)
    requires Enabled(s, e) && !Leases(e) && !e.ReplaceBuilds?
    ensures
      Step(s, e).refresh ==
        if e.StartRefresh? && s.refresh.NoTask? && !Refused(s) then Scheduled(s.current)
        else if CancelsRefresh(s, e) then NoTask
        else s.refresh
  {
    match e {
      case CleanupEnds(_, _) =>
      case CloseRetires =>
      case CloseDrains =>
      case _ =>
    }
  }

  // ---- Locks ----

  /** The replace lock is taken by whoever begins an operation while it is free and the manager accepts it,
      and is free again when the operation ends, fails or is cancelled, and when shutdown has retired
      everything. */
  lemma LockIsTakenAndFreed(states: seq<State>, events: seq<Event>, n: nat)
    requires IsRun(states, events) && n < |events|
    ensures
      var s, e, t := states[n], events[n], states[n + 1];
      t.lock.Free? <==>
        if s.lock.Free? then !CancelsRefresh(s, e) && !(e.ConnectBegins? && !Refused(s))
        else
          || e == ReplaceBuilds(FactoryFails)
          || (e == ReplaceBuilds(Built) && exists h :: h in s.holders && s.holders[h] == s.current)
          || e.CandidateCleanupEnds? || e.ReplaceReturns? || e.ExplicitRefreshEnds? || e.ConnectEnds?
          || e.LockHolderCancelled? || e.CloseRetires?
          || (e.CloseCancelled? && s.lock.CloseCancelling?)
  {
    Reachable(states, events, n);
    assert StepAt(states, events, n);
    var s := states[n];
    assert Placed(s, s.current, s.generations[s.current]) && Counted(s.holders, s.current, s.generations[s.current]);
    UnheldMeansZero(s.holders, s.current, s.generations[s.current]);
    StepMovesLock(s, events[n]);
  }

  /** The section belongs to nobody who holds the replace lock. */
  predicate LeavesTheLock(e: Event) {
    || (Leases(e) && !e.ExplicitRefreshRuns? && !e.ExplicitRefreshEnds?)
    || e.StartRefresh? || e.CleanupEnds? || e.DrainSeen? || e.CloseDrains? || e.CloseCollects?
    || e.CloseRetryEnds? || e.CloseEnds?
  }

  lemma OthersLeaveTheLock(s: State, e: Event)
    requires Enabled(s, e) && LeavesTheLock(e)
    ensures Step(s, e).lock == s.lock
  {
    match e {
      case Release(lease) =>
        if Lease(lease) in s.holders {
          UnholdShape(s, Lease(lease));
        }
      case RefreshEnds(running) => UnholdShape(s, Refresh(running));
      case _ =>
    }
  }

  lemma BuildMovesLock(s: State, build: Build)
    requires Enabled(s, ReplaceBuilds(build))
    ensures
      Step(s, ReplaceBuilds(build)).lock.Free? <==>
      build.FactoryFails? || (build.Built? && s.generations[s.current].activeLeases > 0)
  {
  }

  lemma StepMovesLock(s: State, e: Event)
    requires LockOk(s) && CloserOk(s) && Enabled(s, e) && Placed(s, s.current, s.generations[s.current])
    ensures
      var t := Step(s, e);
      t.lock.Free? <==>
        if s.lock.Free? then !CancelsRefresh(s, e) && !(e.ConnectBegins? && !Refused(s))
        else
          || e == ReplaceBuilds(FactoryFails)
          || (e == ReplaceBuilds(Built) && s.generations[s.current].activeLeases > 0)
          || e.CandidateCleanupEnds? || e.ReplaceReturns? || e.ExplicitRefreshEnds? || e.ConnectEnds?
          || e.LockHolderCancelled? || e.CloseRetires?
          || (e.CloseCancelled? && s.lock.CloseCancelling?)
  {
    if LeavesTheLock(e) {
      OthersLeaveTheLock(s, e);
    } else if e.ReplaceBuilds? {
      BuildMovesLock(s, e.build);
    } else if e.ExplicitRefreshEnds? {
      UnholdShape(s, Refresh(s.lock.id));
    } else {
      HoldersMoveTheLock(s, e);
    }
  }

  lemma HoldersMoveTheLock(s: State, e: Event)
    requires LockOk(s) && CloserOk(s) && Enabled(s, e) && Placed(s, s.current, s.generations[s.current])
    requires !LeavesTheLock(e) && !e.ReplaceBuilds? && !e.ExplicitRefreshEnds?
    ensures
      Step(s, e).lock.Free? <==>
        if s.lock.Free? then !CancelsRefresh(s, e) && !(e.ConnectBegins? && !Refused(s))
        else
          || e.CandidateCleanupEnds? || e.ReplaceReturns? || e.ConnectEnds?
          || e.LockHolderCancelled? || e.CloseRetires?
          || (e.CloseCancelled? && s.lock.CloseCancelling?)
  {
  }

  // ---- Shutdown ----

  /** A `close` that gets to its end succeeds if and only if no retired generation is open and no candidate is
      kept. Nothing else makes the manager closed, and only `close` makes it refuse. */
  lemma CloseSucceedsIffClean(states: seq<State>, events: seq<Event>, n: nat)
    requires IsRun(states, events) && n < |events|
    ensures
      var s, e, t := states[n], events[n], states[n + 1];
      && (t.closed <==> s.closed || (e.CloseEnds? && s.retired == {} && s.unpublished == {}))
      && (t.closing <==> s.closing || e.CloseBegins?)
  {
    Reachable(states, events, n);
    assert StepAt(states, events, n);
    if !events[n].CloseBegins? && !events[n].CloseEnds? {
      OthersKeepTheFlags(states[n], events[n]);
    }
  }

  /** When shutdown cleans, every generation that is not closed is being cleaned. */
  lemma ShutdownCleansEverything(states: seq<State>, events: seq<Event>, n: nat)
    requires IsRun(states, events) && n < |events| && events[n].CloseDrains?
    ensures
      var s, t := states[n], states[n + 1];
      && t.generations.Keys == s.generations.Keys
      && forall id | id in t.generations :: t.generations[id].closed || t.generations[id].cleaning
  {
    Reachable(states, events, n);
    assert StepAt(states, events, n);
    forall id | id in states[n].generations
      ensures id in states[n].closer.generations || states[n].generations[id].closed
    {
      assert Placed(states[n], id, states[n].generations[id]);
    }
  }

  /** What shutdown waits for: once it has retired everything, the end of every use of what is open; then
      the cleanup of each; then another cleanup of every candidate that is kept. It gives up only when it is
      cancelled, and nothing but its own sections moves it on. */
  ghost predicate CloserMoves(s: State, e: Event, t: State) {
    match e
    case CloseBegins => t.closer == if s.closed then s.closer else Stopping
    case CloseRetires =>
      && t.closer.Draining? && t.closer.generations == t.closer.waiting
      && forall id :: id in t.closer.waiting <==> id in t.generations && !t.generations[id].closed
    case DrainSeen(id) =>
      && s.closer.Draining? && id in s.generations && s.generations[id].activeLeases == 0
      && t.closer == Draining(s.closer.generations, s.closer.waiting - {id})
    case CloseDrains =>
      s.closer.Draining? && s.closer.waiting == {} && t.closer == Closing(s.closer.generations)
    case CloseCollects => t.closer.RetryingUnpublished? && t.closer.pending == s.unpublished
    case CloseRetryEnds(runtime, _) =>
      && s.closer.RetryingUnpublished? && t.closer.RetryingUnpublished?
      && t.closer.pending == s.closer.pending - {runtime}
    case CloseEnds => t.closer.NotClosing?
    case CloseCancelled => t.closer.NotClosing?
    case _ => t.closer == s.closer
  }

  lemma ShutdownWaitsForAll(states: seq<State>, events: seq<Event>, n: nat)
    requires IsRun(states, events) && n < |events|
    ensures CloserMoves(states[n], events[n], states[n + 1])
  {
    Reachable(states, events, n);
    assert StepAt(states, events, n);
    var s, e := states[n], events[n];
    if Leases(e) {
      LeasesLeaveTheRest(s, e);
    } else if e.CloseRetires? {
      RetiringWaits(s);
    } else {
      assert e.DrainSeen? ==> Counted(s.holders, e.generation, s.generations[e.generation]);
      OthersMoveCloser(s, e);
    }
  }

  lemma RetiringWaits(s: State)
    requires Inv(s) && Enabled(s, CloseRetires)
    ensures CloserMoves(s, CloseRetires, Step(s, CloseRetires))
  {
    forall id | id in s.generations
      ensures id in s.retired <==> s.generations[id].retired && !s.generations[id].closed
    {
      assert Placed(s, id, s.generations[id]);
    }
  }

  lemma OthersMoveCloser(s: State, e: Event)
    requires Enabled(s, e) && !Leases(e) && !e.CloseRetires?
    requires e.DrainSeen? ==> s.generations[e.generation].activeLeases == 0
    ensures CloserMoves(s, e, Step(s, e))
  {
    match e {
      case ReplaceBuilds(_) =>
      case CleanupEnds(_, _) =>
      case CloseDrains =>
      case _ =>
    }
  }
}
