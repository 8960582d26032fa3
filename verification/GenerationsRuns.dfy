/** What the provider manager promises over whole runs: no use after close, no lost runtime. */
module GenerationsRuns {
  import opened Options
  import opened GenerationsSpec
  import opened GenerationsInvariant

  ghost predicate StepAt(states: seq<State>, events: seq<Event>, i: nat)
    requires i < |events| && |states| == |events| + 1
  {
    Enabled(states[i], events[i]) && states[i + 1] == Step(states[i], events[i])
  }

  /** Any interleaving at all. */
  ghost predicate IsAnyRun(states: seq<State>, events: seq<Event>) {
    && |states| == |events| + 1
    && states[0] == Start()
    && forall i :: 0 <= i < |events| ==> StepAt(states, events, i)
  }

  /** A run that keeps to the rule for `start_model_list_refresh`. */
  ghost predicate IsRun(states: seq<State>, events: seq<Event>) {
    && IsAnyRun(states, events)
    && forall i :: 0 <= i < |events| ==> StartupRule(states[i], events[i])
  }

  lemma {:induction false} Reachable(states: seq<State>, events: seq<Event>, i: nat)
    requires IsRun(states, events) && i < |states|
    ensures Inv(states[i])
  {
    if i == 0 {
      StartInv();
    } else {
      Reachable(states, events, i - 1);
      assert StepAt(states, events, i - 1);
      StepKeepsInv(states[i - 1], events[i - 1]);
    }
  }

  // ---- No use after close ----

  /** Retired with nothing holding it: the only kind of generation whose cleanup may begin. */
  ghost predicate Spent(s: State, id: GenId) {
    id in s.generations && s.generations[id].retired && s.generations[id].activeLeases == 0
  }

  lemma UnholdKeepsSpent(s: State, holder: Holder, id: GenId)
    requires Inv(s) && holder in s.holders && Spent(s, id)
    ensures Spent(Unhold(s, holder), id)
  {
    HolderCounts(s, holder);
    UnholdShape(s, holder);
  }

  lemma BuildKeepsSpent(s: State, build: Build, id: GenId)
    requires Inv(s) && Enabled(s, ReplaceBuilds(build)) && Spent(s, id)
    ensures Spent(Step(s, ReplaceBuilds(build)), id)
  {
  }

  lemma LeasesKeepSpent(s: State, e: Event, id: GenId)
    requires Inv(s) && Enabled(s, e) && Leases(e) && Spent(s, id)
    ensures Spent(Step(s, e), id)
  {
    assert Placed(s, s.current, s.generations[s.current]);
    match e {
      case Release(lease) =>
        if Lease(lease) in s.holders {
          UnholdKeepsSpent(s, Lease(lease), id);
        }
      case RefreshEnds(task) => UnholdKeepsSpent(s, Refresh(task), id);
      case ExplicitRefreshEnds => UnholdKeepsSpent(s, Refresh(s.lock.id), id);
      case _ =>
    }
  }

  lemma StepKeepsSpent(s: State, e: Event, id: GenId)
    requires Inv(s) && Enabled(s, e) && Spent(s, id)
    ensures Spent(Step(s, e), id)
  {
    if Leases(e) {
      LeasesKeepSpent(s, e, id);
    } else if e.ReplaceBuilds? {
      BuildKeepsSpent(s, e.build, id);
    } else {
      OtherStepKeepsSpent(s, e, id);
    }
  }

  lemma OtherStepKeepsSpent(s: State, e: Event, id: GenId)
    requires Enabled(s, e) && !Leases(e) && !e.ReplaceBuilds? && Spent(s, id)
    ensures Spent(Step(s, e), id)
  {
    match e {
      case CleanupEnds(_, _) =>
      case CloseRetires =>
      case CloseDrains =>
      case _ =>
    }
  }

  lemma {:induction false} SpentLasts(states: seq<State>, events: seq<Event>, i: nat, j: nat, id: GenId)
    requires IsRun(states, events) && i <= j < |states| && Spent(states[i], id)
    ensures Spent(states[j], id)
    decreases j - i
  {
    if i < j {
      Reachable(states, events, i);
      assert StepAt(states, events, i);
      StepKeepsSpent(states[i], events[i], id);
      SpentLasts(states, events, i + 1, j, id);
    }
  }

  lemma SpentHasNoHolders(s: State, id: GenId)
    requires Inv(s) && Spent(s, id)
    ensures forall h | h in s.holders :: s.holders[h] != id
  {
    assert Counted(s.holders, id, s.generations[id]);
    assert HoldersOf(s.holders, id) == {};
    forall h | h in s.holders
      ensures s.holders[h] != id
    {
      assert h !in HoldersOf(s.holders, id);
    }
  }

  /** Cleanup runs, or has run, only on a retired generation that nothing holds; from that moment on
      and for the rest of the run no lease and no refresh ever holds it again. */
  lemma NoUseAfterClose(states: seq<State>, events: seq<Event>, i: nat, j: nat, id: GenId)
    requires IsRun(states, events) && i <= j < |states| && id in states[i].generations
    requires states[i].generations[id].cleaning || states[i].generations[id].closed
    ensures Spent(states[i], id) && Spent(states[j], id)
    ensures forall h | h in states[j].holders :: states[j].holders[h] != id
  {
    Reachable(states, events, i);
    assert Placed(states[i], id, states[i].generations[id]);
    SpentLasts(states, events, i, j, id);
    Reachable(states, events, j);
    SpentHasNoHolders(states[j], id);
  }

  /** What anybody may be using is alive: in every reachable state the runtime behind an unreleased lease,
      a running refresh or an account change in progress is neither cleaned nor being cleaned. */
  lemma UsedRuntimesAreLive(states: seq<State>, events: seq<Event>, i: nat, id: GenId)
    requires IsRun(states, events) && i < |states|
    requires (exists h :: h in states[i].holders && states[i].holders[h] == id) || states[i].lock == Connecting(id)
    ensures
      var s := states[i];
      && id in s.generations
      && !s.generations[id].cleaning && !s.generations[id].closed
      && s.generations[id].runtime !in s.cleaned && s.generations[id].runtime !in s.unpublished
  {
    Reachable(states, events, i);
    var s := states[i];
    assert Placed(s, s.current, s.generations[s.current]);
    if h :| h in s.holders && s.holders[h] == id {
      HolderCounts(s, h);
    }
    assert Placed(s, id, s.generations[id]) && OwnsRuntime(s, id, s.generations[id]);
  }

  lemma DrainedMeansUnheld(s: State, id: GenId)
    requires Inv(s) && id in s.generations
    ensures s.generations[id].drained <==> forall h | h in s.holders :: s.holders[h] != id
    ensures s.generations[id].activeLeases == 0 <==> s.generations[id].drained
  {
    assert Counted(s.holders, id, s.generations[id]);
    if s.generations[id].drained {
      assert HoldersOf(s.holders, id) == {};
      forall h | h in s.holders
        ensures s.holders[h] != id
      {
        assert h !in HoldersOf(s.holders, id);
      }
    } else {
      assert HoldersOf(s.holders, id) != {};
      var h :| h in HoldersOf(s.holders, id);
    }
  }

  /** In every reachable state the count is exactly the unreleased leases plus the running refreshes, and
      the event that shutdown waits for is set exactly when there are none. */
  lemma LeaseCountIsExact(states: seq<State>, events: seq<Event>, i: nat, id: GenId)
    requires IsRun(states, events) && i < |states| && id in states[i].generations
    ensures
      var s := states[i];
      && s.generations[id].activeLeases == |HoldersOf(s.holders, id)|
      && (s.generations[id].drained <==> forall h | h in s.holders :: s.holders[h] != id)
  {
    Reachable(states, events, i);
    assert Counted(states[i].holders, id, states[i].generations[id]);
    DrainedMeansUnheld(states[i], id);
  }

  /** When shutdown starts cleaning, nothing at all is in use, although it saw the generations drained one
      by one. */
  lemma ShutdownCleansWhenIdle(states: seq<State>, events: seq<Event>, i: nat)
    requires IsRun(states, events) && i < |events| && events[i].CloseDrains?
    ensures states[i].holders == map[]
  {
    Reachable(states, events, i);
    assert StepAt(states, events, i);
    var s := states[i];
    forall id | id in s.generations
      ensures s.generations[id].activeLeases == 0
    {
      assert Placed(s, id, s.generations[id]);
      assert id in s.closer.generations ==> id in s.closer.generations - s.closer.waiting;
    }
    forall h | h in s.holders
      ensures false
    {
      HolderCounts(s, h);
    }
  }

  // ---- No lost runtime ----

  predicate Published(s: State, r: RuntimeId) {
    s.current in s.generations && s.generations[s.current].runtime == r && !s.generations[s.current].retired
  }

  ghost predicate RetiredOpen(s: State, r: RuntimeId) {
    exists id :: id in s.retired && id in s.generations && s.generations[id].runtime == r
  }

  function One(b: bool): nat {
    if b then 1 else 0
  }

  /** In every reachable state every runtime the factory ever made is in exactly one place: published,
      retired and not yet closed, kept as unpublished, or cleaned. */
  lemma RuntimeConservation(states: seq<State>, events: seq<Event>, i: nat, r: RuntimeId)
    requires IsRun(states, events) && i < |states| && r < states[i].produced
    ensures
      var s := states[i];
      One(Published(s, r)) + One(RetiredOpen(s, r)) + One(r in s.unpublished) + One(r in s.cleaned) == 1
  {
    Reachable(states, events, i);
    var s := states[i];
    forall id | id in s.generations
      ensures s.generations[id].runtime == r ==> r !in s.unpublished && (r in s.cleaned <==> s.generations[id].closed)
      ensures id in s.retired <==> s.generations[id].retired && !s.generations[id].closed
      ensures !s.generations[id].retired ==> id == s.current
    {
      assert Placed(s, id, s.generations[id]) && OwnsRuntime(s, id, s.generations[id]);
    }
    if r !in s.unpublished && r !in s.cleaned {
      var owner :| owner in s.generations && s.generations[owner].runtime == r;
      assert s.generations[owner].retired <==> owner in s.retired;
    }
  }

  // ---- Replacement ----

  /** What no event but a successful build changes while a replacement holds the lock. */
  ghost predicate KeepsPublished(s: State, t: State) {
    && t.current == s.current && t.nextId == s.nextId
    && t.generations.Keys == s.generations.Keys
    && t.retired <= s.retired
    && (forall id | id in s.generations ::
          && t.generations[id].runtime == s.generations[id].runtime
          && t.generations[id].retired == s.generations[id].retired
          && (s.generations[id].closed ==> t.generations[id].closed))
  }

  lemma UnholdKeepsPublished(s: State, holder: Holder)
    requires holder in s.holders && s.holders[holder] in s.generations
    ensures KeepsPublished(s, Unhold(s, holder))
  {
  }

  lemma HoldKeepsPublished(s: State, holder: Holder, id: GenId)
    requires id in s.generations
    ensures KeepsPublished(s, Hold(s, holder, id))
  {
  }

  lemma CleanupKeepsPublished(s: State, id: GenId, ok: bool)
    requires Enabled(s, CleanupEnds(id, ok))
    ensures KeepsPublished(s, Step(s, CleanupEnds(id, ok)))
  {
  }

  /** Events that touch no generation at all. */
  lemma OtherStepKeepsPublished(s: State, e: Event)
    requires Enabled(s, e) && ReplaceHolds(s.lock)
    requires !Leases(e) && !e.CleanupEnds? && !e.CloseDrains? && e != ReplaceBuilds(Built)
    ensures
      var t := Step(s, e);
      t.generations == s.generations && t.current == s.current && t.nextId == s.nextId && t.retired == s.retired
  {
    match e {
      case ReplaceBuilds(_) =>
      case RetriedCleanupEnds(_, _) =>
      case CandidateCleanupEnds(_) =>
      case CloseRetryEnds(_, _) =>
      case CloseCollects =>
      case CloseCancelled =>
      case _ =>
    }
  }

  lemma LeaseStepKeepsPublished(s: State, e: Event)
    requires Enabled(s, e) && ReplaceHolds(s.lock) && Leases(e)
    ensures KeepsPublished(s, Step(s, e))
  {
    match e {
      case Acquire(lease) => HoldKeepsPublished(s, Lease(lease), s.current);
      case Release(lease) =>
        if Lease(lease) in s.holders {
          UnholdKeepsPublished(s, Lease(lease));
        }
      case RefreshStarts(task) => HoldKeepsPublished(s, Refresh(task), s.refresh.generation);
      case StrayStarts(id, task) => HoldKeepsPublished(s.(strays := s.strays - {id}), Refresh(task), id);
      case RefreshEnds(task) => UnholdKeepsPublished(s, Refresh(task));
    }
  }

  lemma DrainsKeepPublished(s: State)
    requires Enabled(s, CloseDrains)
    ensures KeepsPublished(s, Step(s, CloseDrains))
  {
  }

  lemma HeldStepKeepsPublished(s: State, e: Event)
    requires Enabled(s, e) && ReplaceHolds(s.lock) && e != ReplaceBuilds(Built)
    ensures KeepsPublished(s, Step(s, e))
  {
    if Leases(e) {
      LeaseStepKeepsPublished(s, e);
    } else if e.CleanupEnds? {
      CleanupKeepsPublished(s, e.generation, e.ok);
    } else if e.CloseDrains? {
      DrainsKeepPublished(s);
    } else {
      OtherStepKeepsPublished(s, e);
    }
  }

  lemma LeasesProduceNothing(s: State, e: Event)
    requires Enabled(s, e) && Leases(e)
    ensures Step(s, e).produced == s.produced
  {
    match e {
      case Release(lease) =>
        if Lease(lease) in s.holders {
          UnholdShape(s, Lease(lease));
        }
      case RefreshEnds(task) => UnholdShape(s, Refresh(task));
      case ExplicitRefreshEnds => UnholdShape(s, Refresh(s.lock.id));
      case _ =>
    }
  }

  lemma HeldStepProduces(s: State, e: Event)
    requires Enabled(s, e) && e != ReplaceBuilds(Built)
    ensures Step(s, e).produced == s.produced + if e == ReplaceBuilds(CommitFails) then 1 else 0
  {
    if Leases(e) {
      LeasesProduceNothing(s, e);
    } else {
      match e {
        case ReplaceBuilds(_) =>
        case CleanupEnds(_, _) =>
        case CloseRetires =>
        case CloseDrains =>
        case _ =>
      }
    }
  }

  /** The replacement that got the lock at `i` still holds it before `j`, and never built. */
  ghost predicate Replacing(states: seq<State>, events: seq<Event>, i: nat, j: nat)
    requires IsRun(states, events) && i < j < |states|
  {
    && events[i].ReplaceBegins? && !Refused(states[i])
    && (forall k :: i < k < j ==> ReplaceHolds(states[k].lock) && events[k] != ReplaceBuilds(Built))
  }

  /** How many candidates this replacement built and lost: its commit failed or has not. */
  function FailedCommits(events: seq<Event>, i: nat, j: nat): nat
    requires i <= j <= |events|
    decreases j
  {
    if i == j then 0
    else FailedCommits(events, i, j - 1) + if events[j - 1] == ReplaceBuilds(CommitFails) then 1 else 0
  }

  lemma KeptTwice(s: State, t: State, u: State)
    requires KeepsPublished(s, t) && KeepsPublished(t, u)
    ensures KeepsPublished(s, u)
  {
  }

  lemma BeginKeepsPublished(s: State)
    requires Enabled(s, ReplaceBegins)
    ensures KeepsPublished(s, Step(s, ReplaceBegins)) && Step(s, ReplaceBegins).produced == s.produced
  {
  }

  lemma {:induction false} ReplacingKeepsPublished(states: seq<State>, events: seq<Event>, i: nat, j: nat)
    requires IsRun(states, events) && i < j < |states| && Replacing(states, events, i, j)
    ensures KeepsPublished(states[i], states[j])
    ensures states[j].produced == states[i].produced + FailedCommits(events, i, j)
    decreases j
  {
    assert StepAt(states, events, j - 1);
    if j > i + 1 {
      ReplacingKeepsPublished(states, events, i, j - 1);
      HeldStepKeepsPublished(states[j - 1], events[j - 1]);
      HeldStepProduces(states[j - 1], events[j - 1]);
      KeptTwice(states[i], states[j - 1], states[j]);
    } else {
      assert FailedCommits(events, i, i) == 0;
      BeginKeepsPublished(states[i]);
    }
  }

  /** A replacement that fails, in its factory, its commit or by being cancelled at any of its waits,
      and whatever leases, refreshes and cleanups did meanwhile: what is published and the next number
      are what they were when it began, no generation is retired by it, the retired set only loses
      generations that were cleaned, and every candidate it built is kept as unpublished or cleaned,
      exactly one of the two. */
  lemma FailedReplaceChangesNothing(states: seq<State>, events: seq<Event>, i: nat, j: nat)
    requires IsRun(states, events) && i < j < |states| && Replacing(states, events, i, j)
    ensures
      var s, t := states[i], states[j];
      && t.current == s.current && t.nextId == s.nextId && t.generations.Keys == s.generations.Keys
      && (forall id | id in s.generations ::
            t.generations[id].runtime == s.generations[id].runtime && t.generations[id].retired == s.generations[id].retired)
      && t.retired <= s.retired
      && (forall id | id in s.retired - t.retired ::
            id in t.generations && t.generations[id].closed && t.generations[id].runtime in t.cleaned)
      && t.produced == s.produced + FailedCommits(events, i, j)
      && (forall r | s.produced <= r < t.produced :: r in t.unpublished <==> r !in t.cleaned)
  {
    ReplacingKeepsPublished(states, events, i, j);
    Reachable(states, events, i);
    Reachable(states, events, j);
    var s, t := states[i], states[j];
    forall id | id in t.generations
      ensures t.generations[id].runtime < s.produced
      ensures id in s.retired - t.retired ==> t.generations[id].closed && t.generations[id].runtime in t.cleaned
    {
      assert OwnsRuntime(s, id, s.generations[id]) && OwnsRuntime(t, id, t.generations[id]);
      assert Placed(s, id, s.generations[id]) && Placed(t, id, t.generations[id]);
    }
  }

  /** Only the replacement itself moves the lock it holds. */
  lemma OthersKeepTheLock(s: State, e: Event)
    requires Enabled(s, e) && ReplaceHolds(s.lock)
    requires Leases(e) || e.CleanupEnds? || e.DrainSeen? || e.CloseDrains? || e.CloseCollects? || e.CloseRetryEnds?
    ensures Step(s, e).lock == s.lock
  {
    match e {
      case Release(lease) =>
        if Lease(lease) in s.holders {
          UnholdShape(s, Lease(lease));
        }
      case RefreshEnds(task) => UnholdShape(s, Refresh(task));
      case _ =>
    }
  }

  lemma HeldStepKeepsLock(s: State, e: Event)
    requires Enabled(s, e) && ReplaceHolds(s.lock) && !s.lock.ClosingPrevious? && e != ReplaceBuilds(Built)
    ensures e == ReplaceBuilds(CommitFails) ==> !s.lock.CleaningCandidate?
    ensures
      var t := Step(s, e);
      ReplaceHolds(t.lock) ==>
        && !t.lock.ClosingPrevious?
        && (t.lock.CleaningCandidate? <==> s.lock.CleaningCandidate? || e == ReplaceBuilds(CommitFails))
  {
    if Leases(e) || e.CleanupEnds? || e.DrainSeen? || e.CloseDrains? || e.CloseCollects? || e.CloseRetryEnds? {
      OthersKeepTheLock(s, e);
    }
  }

  /** A replacement builds at most one candidate. */
  lemma {:induction false} OneCandidate(states: seq<State>, events: seq<Event>, i: nat, j: nat)
    requires IsRun(states, events) && i < j < |states| && Replacing(states, events, i, j)
    ensures FailedCommits(events, i, j) <= 1
    ensures ReplaceHolds(states[j].lock) ==> (FailedCommits(events, i, j) == 1 <==> states[j].lock.CleaningCandidate?)
    ensures ReplaceHolds(states[j].lock) ==> !states[j].lock.ClosingPrevious?
    decreases j
  {
    assert StepAt(states, events, j - 1);
    if j > i + 1 {
      OneCandidate(states, events, i, j - 1);
      HeldStepKeepsLock(states[j - 1], events[j - 1]);
    } else {
      assert FailedCommits(events, i, i) == 0;
    }
  }

  /** A replacement that succeeds publishes the new runtime under the next number, keeps every lease
      where it was, and starts cleaning the previous generation exactly when nothing holds it. */
  lemma ReplacePublishes(states: seq<State>, events: seq<Event>, i: nat)
    requires IsRun(states, events) && i < |events| && events[i] == ReplaceBuilds(Built)
    ensures
      var s, t := states[i], states[i + 1];
      && t.current == s.nextId && t.nextId == s.nextId + 1
      && s.current in s.generations && s.current in t.generations
      && Published(t, s.produced) && RetiredOpen(t, s.generations[s.current].runtime)
      && t.holders == s.holders
      && (t.generations[s.current].cleaning <==> forall h | h in s.holders :: s.holders[h] != s.current)
  {
    Reachable(states, events, i);
    assert StepAt(states, events, i);
    var s, t := states[i], states[i + 1];
    assert Placed(s, s.current, s.generations[s.current]);
    DrainedMeansUnheld(s, s.current);
    assert s.current in t.retired && t.generations[s.current].runtime == s.generations[s.current].runtime;
  }

  // ---- Shutdown ----

  lemma ClosedIsClean(s: State)
    requires Inv(s) && s.closed
    ensures s.holders == map[]
    ensures forall r | 0 <= r < s.produced :: r in s.cleaned
    ensures forall id | id in s.generations :: s.generations[id].closed
  {
    forall id | id in s.generations
      ensures s.generations[id].closed && s.generations[id].activeLeases == 0
      ensures s.generations[id].runtime in s.cleaned
    {
      assert Placed(s, id, s.generations[id]) && OwnsRuntime(s, id, s.generations[id]);
    }
    forall h | h in s.holders
      ensures false
    {
      HolderCounts(s, h);
    }
  }

  /** A `close` that returns normally leaves every runtime cleaned and nothing in use. */
  lemma CloseIsComplete(states: seq<State>, events: seq<Event>, i: nat)
    requires IsRun(states, events) && i < |events| && events[i].CloseEnds? && states[i + 1].closed
    ensures
      var s := states[i + 1];
      && s.holders == map[]
      && (forall r | 0 <= r < s.produced :: r in s.cleaned)
      && (forall id | id in s.generations :: s.generations[id].closed)
      && s.unpublished == {} && s.retired == {}
  {
    Reachable(states, events, i + 1);
    ClosedIsClean(states[i + 1]);
  }

  /** Only `close` moves the flags of the shutdown. */
  lemma OthersKeepTheFlags(s: State, e: Event)
    requires Enabled(s, e) && !e.CloseBegins? && !e.CloseEnds?
    ensures Step(s, e).closing == s.closing && Step(s, e).closed == s.closed
  {
    if Leases(e) {
      LeasesKeepTheFlags(s, e);
    } else {
      match e {
        case ReplaceBuilds(_) =>
        case CleanupEnds(_, _) =>
        case CloseRetires =>
        case CloseDrains =>
        case _ =>
      }
    }
  }

  lemma LeasesKeepTheFlags(s: State, e: Event)
    requires Enabled(s, e) && Leases(e)
    ensures Step(s, e).closing == s.closing && Step(s, e).closed == s.closed
  {
    match e {
      case Release(lease) =>
        if Lease(lease) in s.holders {
          UnholdShape(s, Lease(lease));
        }
      case RefreshEnds(task) => UnholdShape(s, Refresh(task));
      case ExplicitRefreshEnds => UnholdShape(s, Refresh(s.lock.id));
      case _ =>
    }
  }

  lemma StepKeepsClosed(s: State, e: Event)
    requires Inv(s) && Enabled(s, e)
    ensures s.closing ==> Step(s, e).closing
    ensures s.closed ==> Step(s, e).closed
    ensures s.closing && e.Acquire? ==> Step(s, e) == s
  {
    if !e.CloseBegins? && !e.CloseEnds? {
      OthersKeepTheFlags(s, e);
    }
  }

  /** Once `close` has returned normally, the rest of the run keeps everything cleaned and unused, and
      every acquire is refused. */
  lemma {:induction false} ClosedForGood(states: seq<State>, events: seq<Event>, i: nat, j: nat)
    requires IsRun(states, events) && i <= j < |states| && states[i].closed
    ensures states[j].closed && states[j].holders == map[]
    ensures forall r | 0 <= r < states[j].produced :: r in states[j].cleaned
    ensures j < |events| && events[j].Acquire? ==> states[j + 1] == states[j]
    decreases j - i
  {
    Reachable(states, events, i);
    if i < j {
      assert StepAt(states, events, i);
      StepKeepsClosed(states[i], events[i]);
      ClosedForGood(states, events, i + 1, j);
    } else {
      ClosedIsClean(states[i]);
      if j < |events| {
        assert StepAt(states, events, j);
        StepKeepsClosed(states[j], events[j]);
      }
    }
  }

  // ---- Why the startup rule is needed ----

  lemma OneMoreStep(states: seq<State>, events: seq<Event>, e: Event)
    requires IsAnyRun(states, events) && Enabled(states[|events|], e)
    ensures IsAnyRun(states + [Step(states[|events|], e)], events + [e])
  {
    var more, run := states + [Step(states[|events|], e)], events + [e];
    forall i | 0 <= i < |run|
      ensures StepAt(more, run, i)
    {
      assert i < |events| ==> StepAt(states, events, i);
    }
  }

  lemma RefreshStartedEarly() returns (states: seq<State>, events: seq<Event>)
    ensures IsAnyRun(states, events)
    ensures states[|events|] == Start().(lock := ReplaceRetrying({}), refresh := Scheduled(1))
  {
    states, events := [Start()], [];
    OneMoreStep(states, events, ReplaceBegins);
    states, events := states + [Start().(lock := ReplaceCancelling(None))], events + [ReplaceBegins];
    OneMoreStep(states, events, ReplaceRetries);
    states, events := states + [Start().(lock := ReplaceRetrying({}))], events + [ReplaceRetries];
    OneMoreStep(states, events, StartRefresh);
    states, events := states + [Start().(lock := ReplaceRetrying({}), refresh := Scheduled(1))], events + [StartRefresh];
  }

  /** The state after the swap that overwrote the early refresh. */
  function Swapped(): State {
    State(map[1 := Generation(0, 0, true, false, true, true), 2 := Generation(1, 0, false, false, true, false)],
          2, 3, {1}, {}, {}, 2, false, false, map[], Scheduled(2), {1}, ClosingPrevious(1), NotClosing)
  }

  function Held(): State {
    Swapped().(generations := Swapped().generations[1 := Generation(0, 1, true, false, false, true)],
               holders := map[Refresh(0) := 1], strays := {})
  }

  /** Without the rule for `start_model_list_refresh` there is a run in which it is called while a
      replacement is between cancelling the old refresh and publishing: its task first runs after the
      swap and holds a runtime that is being cleaned, and then one that is cleaned. */
  lemma RefreshDuringReplaceIsUnsafe() returns (states: seq<State>, events: seq<Event>)
    ensures IsAnyRun(states, events) && |events| >= 2
    ensures
      var s := states[|events| - 1];
      Refresh(0) in s.holders && s.holders[Refresh(0)] in s.generations && s.generations[s.holders[Refresh(0)]].cleaning
    ensures
      var s := states[|events|];
      Refresh(0) in s.holders && s.holders[Refresh(0)] in s.generations && s.generations[s.holders[Refresh(0)]].closed
  {
    states, events := RefreshStartedEarly();
    OneMoreStep(states, events, ReplaceBuilds(Built));
    assert Step(states[|events|], ReplaceBuilds(Built)) == Swapped();
    states, events := states + [Swapped()], events + [ReplaceBuilds(Built)];
    OneMoreStep(states, events, StrayStarts(1, 0));
    assert Step(Swapped(), StrayStarts(1, 0)) == Held();
    states, events := states + [Held()], events + [StrayStarts(1, 0)];
    OneMoreStep(states, events, CleanupEnds(1, true));
    states, events := states + [Step(Held(), CleanupEnds(1, true))], events + [CleanupEnds(1, true)];
  }
}
