/** The invariant of every reachable state of the provider manager, and that each section keeps it. */
module GenerationsInvariant {
  import opened GenerationsSpec

  function HoldersOf(holders: map<Holder, GenId>, id: GenId): set<Holder> {
    set h | h in holders && holders[h] == id
  }

  /** The lease count of a generation is the number of its unreleased leases and running refreshes, and
      the drained event says whether that is zero. */
  ghost predicate Counted(holders: map<Holder, GenId>, id: GenId, g: Generation) {
    && g.activeLeases == |HoldersOf(holders, id)|
    && (g.drained <==> g.activeLeases == 0)
  }

  ghost predicate CountsOk(s: State) {
    && (forall id | id in s.generations :: Counted(s.holders, id, s.generations[id]))
    && (forall h | h in s.holders :: s.holders[h] in s.generations)
  }

  /** Where a generation can be in its life. */
  ghost predicate Placed(s: State, id: GenId, g: Generation) {
    && id < s.nextId
    && (!g.retired ==> id == s.current)
    && (g.retired && id == s.current ==> s.closing)
    && (g.cleaning || g.closed ==> g.retired && g.activeLeases == 0)
    && !(g.cleaning && g.closed)
    && (id in s.retired <==> g.retired && !g.closed)
  }

  ghost predicate PlacesOk(s: State) {
    && s.current in s.generations
    && s.retired <= s.generations.Keys
    && (forall id | id in s.generations :: Placed(s, id, s.generations[id]))
  }

  ghost predicate OwnsRuntime(s: State, id: GenId, g: Generation) {
    && g.runtime < s.produced
    && g.runtime !in s.unpublished
    && (g.runtime in s.cleaned <==> g.closed)
  }

  /** The runtimes of the generations are distinct, and every runtime the factory made has an owner. */
  ghost predicate RuntimesOk(s: State) {
    && (forall id | id in s.generations :: OwnsRuntime(s, id, s.generations[id]))
    && (forall i, j | i in s.generations && j in s.generations && i != j ::
          s.generations[i].runtime != s.generations[j].runtime)
    && (forall r | r in s.unpublished :: r < s.produced && r !in s.cleaned)
    && (forall r | r in s.cleaned :: r < s.produced)
    && (forall r | 0 <= r < s.produced && r !in s.unpublished && r !in s.cleaned ::
          exists id :: id in s.generations && s.generations[id].runtime == r)
  }

  ghost predicate LockOk(s: State) {
    && s.strays == {}
    && (!s.lock.Free? && !s.lock.CloseCancelling? ==> !s.closing)
    && (s.refresh.Scheduled? ==>
          && s.refresh.generation == s.current
          && !s.closing
          && !s.lock.ReplaceCancelling? && !s.lock.ReplaceRetrying?)
    && (s.lock.Connecting? ==> s.lock.generation == s.current)
    && (s.lock.ReplaceRetrying? ==> s.lock.pending <= s.unpublished)
    && (s.lock.CleaningCandidate? ==> s.lock.runtime in s.unpublished)
  }

  ghost predicate AllRetired(s: State) {
    forall id | id in s.generations :: s.generations[id].retired
  }

  ghost predicate CloserOk(s: State) {
    && (!s.closer.NotClosing? ==> s.closing)
    && (s.closer.Stopping? <==> s.lock.CloseCancelling?)
    && (s.closer.Draining? || s.closer.Closing? ==>
          AllRetired(s) && s.retired <= s.closer.generations <= s.generations.Keys)
    && (s.closer.Draining? ==> forall id | id in s.closer.generations - s.closer.waiting :: s.generations[id].activeLeases == 0)
    && (s.closer.Closing? ==> forall id | id in s.closer.generations :: s.generations[id].activeLeases == 0)
    && (s.closer.RetryingUnpublished? ==>
          && AllRetired(s)
          && s.closer.pending <= s.unpublished
          && (forall id | id in s.generations :: !s.generations[id].cleaning)
          && (s.closer.allClosed <==> s.retired == {} && s.unpublished <= s.closer.pending))
    && (s.closed ==> s.closing && s.closer.NotClosing? && AllRetired(s) && s.retired == {} && s.unpublished == {})
  }

  ghost predicate Inv(s: State) {
    PlacesOk(s) && CountsOk(s) && RuntimesOk(s) && LockOk(s) && CloserOk(s)
  }

  lemma StartInv()
    ensures Inv(Start())
  {
  }

  /** The part of the invariant that does not look at the locks. */
  ghost predicate Core(s: State) {
    PlacesOk(s) && CountsOk(s) && RuntimesOk(s)
  }

  // ---- Counting holders ----

  lemma HoldersAdded(holders: map<Holder, GenId>, holder: Holder, id: GenId, other: GenId)
    requires holder !in holders
    ensures |HoldersOf(holders[holder := id], other)| == |HoldersOf(holders, other)| + if other == id then 1 else 0
  {
    var more := HoldersOf(holders[holder := id], other);
    if other == id {
      assert more == HoldersOf(holders, other) + {holder};
    } else {
      assert more == HoldersOf(holders, other);
    }
  }

  lemma HoldersDropped(holders: map<Holder, GenId>, holder: Holder, other: GenId)
    requires holder in holders
    ensures |HoldersOf(Without(holders, holder), other)| ==
              |HoldersOf(holders, other)| - if other == holders[holder] then 1 else 0
  {
    var less := HoldersOf(Without(holders, holder), other);
    if other == holders[holder] {
      assert HoldersOf(holders, other) == less + {holder};
    } else {
      assert HoldersOf(holders, other) == less;
    }
  }

  // ---- Runtimes ----

  /** Nothing is made, cleaned or handed over. */
  ghost predicate SameRuntimes(s: State, t: State) {
    && t.generations.Keys == s.generations.Keys
    && (forall id | id in s.generations ::
          && t.generations[id].runtime == s.generations[id].runtime
          && t.generations[id].closed == s.generations[id].closed)
    && t.unpublished == s.unpublished && t.cleaned == s.cleaned && t.produced == s.produced
  }

  lemma RuntimesFrame(s: State, t: State)
    requires RuntimesOk(s) && SameRuntimes(s, t)
    ensures RuntimesOk(t)
  {
    forall r | 0 <= r < t.produced && r !in t.unpublished && r !in t.cleaned
      ensures exists id :: id in t.generations && t.generations[id].runtime == r
    {
      var id :| id in s.generations && s.generations[id].runtime == r;
      assert t.generations[id].runtime == r;
    }
  }

  /** A published candidate owns the runtime that was made for it. */
  lemma RuntimeAdded(s: State, t: State, id: GenId)
    requires RuntimesOk(s) && id !in s.generations && t.generations.Keys == s.generations.Keys + {id}
    requires forall i | i in s.generations ::
               && t.generations[i].runtime == s.generations[i].runtime
               && t.generations[i].closed == s.generations[i].closed
    requires t.generations[id].runtime == s.produced && !t.generations[id].closed
    requires t.unpublished == s.unpublished && t.cleaned == s.cleaned && t.produced == s.produced + 1
    ensures RuntimesOk(t)
  {
    forall i | i in t.generations
      ensures OwnsRuntime(t, i, t.generations[i])
      ensures i != id ==> t.generations[i].runtime < s.produced
    {
      if i in s.generations {
        assert OwnsRuntime(s, i, s.generations[i]);
      }
    }
    forall r | 0 <= r < t.produced && r !in t.unpublished && r !in t.cleaned
      ensures exists i :: i in t.generations && t.generations[i].runtime == r
    {
      if r == s.produced {
        assert t.generations[id].runtime == r;
      } else {
        var i :| i in s.generations && s.generations[i].runtime == r;
        assert t.generations[i].runtime == r;
      }
    }
  }

  /** Nothing is held or released. */
  ghost predicate SameCounts(s: State, t: State) {
    && t.holders == s.holders && t.generations.Keys == s.generations.Keys
    && (forall id | id in s.generations ::
          && t.generations[id].activeLeases == s.generations[id].activeLeases
          && t.generations[id].drained == s.generations[id].drained)
  }

  lemma CountsFrame(s: State, t: State)
    requires CountsOk(s) && SameCounts(s, t)
    ensures CountsOk(t)
  {
    forall id | id in t.generations
      ensures Counted(t.holders, id, t.generations[id])
    {
      assert Counted(s.holders, id, s.generations[id]);
    }
  }

  /** Nothing is published, retired or closed; only retired generations that nothing holds begin their
      cleanup, and only generations that are not retired are held more. */
  ghost predicate SamePlaces(s: State, t: State) {
    && t.generations.Keys == s.generations.Keys
    && t.current == s.current && t.nextId == s.nextId && t.retired == s.retired && t.closing == s.closing
    && (forall id | id in s.generations ::
          var g, h := s.generations[id], t.generations[id];
          && h.retired == g.retired
          && h.closed == g.closed
          && (h.cleaning ==> g.cleaning || (h.retired && !h.closed && h.activeLeases == 0))
          && (h.activeLeases <= g.activeLeases || !h.retired))
  }

  lemma PlacesFrame(s: State, t: State)
    requires PlacesOk(s) && SamePlaces(s, t)
    ensures PlacesOk(t)
  {
    forall id | id in t.generations
      ensures Placed(t, id, t.generations[id])
    {
      assert Placed(s, id, s.generations[id]);
    }
  }

  // ---- The pieces of sections ----

  lemma HoldKeepsCounts(s: State, holder: Holder, id: GenId)
    requires CountsOk(s) && holder !in s.holders && id in s.generations
    ensures CountsOk(Hold(s, holder, id))
  {
    var t := Hold(s, holder, id);
    forall i | i in s.generations
      ensures Counted(t.holders, i, t.generations[i])
    {
      assert Counted(s.holders, i, s.generations[i]);
      HoldersAdded(s.holders, holder, id, i);
    }
  }

  lemma HoldShape(s: State, holder: Holder, id: GenId)
    requires id in s.generations && !s.generations[id].retired
    ensures SameRuntimes(s, Hold(s, holder, id)) && SamePlaces(s, Hold(s, holder, id))
  {
  }

  lemma HoldKeeps(s: State, holder: Holder, id: GenId)
    requires Core(s) && holder !in s.holders && id in s.generations && !s.generations[id].retired
    ensures Core(Hold(s, holder, id))
  {
    HoldShape(s, holder, id);
    HoldKeepsCounts(s, holder, id);
    RuntimesFrame(s, Hold(s, holder, id));
    PlacesFrame(s, Hold(s, holder, id));
  }

  lemma StartCleanupShape(s: State, id: GenId)
    requires id in s.generations && s.generations[id].retired
    ensures
      var t := StartCleanup(s, id);
      SameRuntimes(s, t) && SameCounts(s, t) && SamePlaces(s, t)
  {
  }

  /** What keeps runtimes, counts and places keeps the core. */
  lemma SameKeeps(s: State, t: State)
    requires Core(s) && SameRuntimes(s, t) && SameCounts(s, t) && SamePlaces(s, t)
    ensures Core(t)
  {
    RuntimesFrame(s, t);
    CountsFrame(s, t);
    PlacesFrame(s, t);
  }

  lemma StartCleanupKeeps(s: State, id: GenId)
    requires Core(s) && id in s.generations && s.generations[id].retired
    ensures Core(StartCleanup(s, id))
  {
    StartCleanupShape(s, id);
    SameKeeps(s, StartCleanup(s, id));
  }

  /** A holder counts, so the guard of `_release` against a spent count never fires. */
  lemma HolderCounts(s: State, holder: Holder)
    requires CountsOk(s) && holder in s.holders
    ensures s.generations[s.holders[holder]].activeLeases > 0
  {
    var id := s.holders[holder];
    assert Counted(s.holders, id, s.generations[id]);
    assert holder in HoldersOf(s.holders, id);
  }

  lemma DropKeepsCounts(s: State, holder: Holder)
    requires CountsOk(s) && holder in s.holders && s.generations[s.holders[holder]].activeLeases > 0
    ensures CountsOk(Dropped(s, holder))
  {
    var t := Dropped(s, holder);
    forall i | i in t.generations
      ensures Counted(t.holders, i, t.generations[i])
    {
      assert Counted(s.holders, i, s.generations[i]);
      HoldersDropped(s.holders, holder, i);
    }
  }

  /** One holder fewer, before the cleanup that may start. */
  function Dropped(s: State, holder: Holder): State
    requires holder in s.holders && s.holders[holder] in s.generations
    requires s.generations[s.holders[holder]].activeLeases > 0
  {
    var id := s.holders[holder];
    var g := s.generations[id];
    var fewer := g.(activeLeases := g.activeLeases - 1, drained := g.drained || g.activeLeases == 1);
    Update(s.(holders := Without(s.holders, holder)), id, fewer)
  }

  lemma DroppedShape(s: State, holder: Holder)
    requires holder in s.holders && s.holders[holder] in s.generations
    requires s.generations[s.holders[holder]].activeLeases > 0
    ensures SameRuntimes(s, Dropped(s, holder)) && SamePlaces(s, Dropped(s, holder))
    ensures
      var id := s.holders[holder];
      var g, t := s.generations[id], Dropped(s, holder);
      Unhold(s, holder) == if g.activeLeases == 1 && g.retired && !s.closing then StartCleanup(t, id) else t
  {
  }

  lemma UnholdKeeps(s: State, holder: Holder)
    requires Core(s) && holder in s.holders
    ensures Core(Unhold(s, holder))
  {
    HolderCounts(s, holder);
    var id, t := s.holders[holder], Dropped(s, holder);
    DroppedShape(s, holder);
    DropKeepsCounts(s, holder);
    RuntimesFrame(s, t);
    PlacesFrame(s, t);
    if s.generations[id].retired {
      StartCleanupKeeps(t, id);
    }
  }

  lemma PublishKeepsPlaces(s: State)
    requires PlacesOk(s) && !s.closing && s.nextId !in s.generations
    ensures PlacesOk(Publish(s))
  {
    var t := Publish(s);
    forall i | i in t.generations
      ensures Placed(t, i, t.generations[i])
    {
      assert Placed(s, s.current, s.generations[s.current]);
      if i in s.generations {
        assert Placed(s, i, s.generations[i]);
      }
    }
  }

  lemma PublishKeepsCounts(s: State)
    requires CountsOk(s) && s.current in s.generations && s.nextId !in s.generations
    ensures CountsOk(Publish(s))
  {
    var t := Publish(s);
    assert HoldersOf(s.holders, s.nextId) == {};
    forall i | i in t.generations
      ensures Counted(t.holders, i, t.generations[i])
    {
      if i in s.generations {
        assert Counted(s.holders, i, s.generations[i]);
      }
    }
  }

  lemma PublishKeeps(s: State)
    requires Core(s) && !s.closing && s.nextId !in s.generations
    ensures Core(Publish(s))
  {
    RuntimeAdded(s, Publish(s), s.nextId);
    PublishKeepsPlaces(s);
    PublishKeepsCounts(s);
  }

  lemma RetireCurrentShape(s: State)
    requires s.current in s.generations
    ensures SameRuntimes(s, RetireCurrent(s)) && SameCounts(s, RetireCurrent(s))
  {
  }

  lemma RetireCurrentKeeps(s: State)
    requires Core(s) && s.closing
    ensures Core(RetireCurrent(s)) && AllRetired(RetireCurrent(s))
  {
    RetireCurrentShape(s);
    RuntimesFrame(s, RetireCurrent(s));
    CountsFrame(s, RetireCurrent(s));
    RetireCurrentPlaces(s);
  }

  lemma RetireCurrentPlaces(s: State)
    requires PlacesOk(s) && s.closing
    ensures PlacesOk(RetireCurrent(s)) && AllRetired(RetireCurrent(s))
  {
    var t := RetireCurrent(s);
    forall i | i in t.generations
      ensures Placed(t, i, t.generations[i]) && t.generations[i].retired
    {
      assert Placed(s, i, s.generations[i]);
    }
  }

  lemma StartCleanupsShape(s: State, ids: set<GenId>)
    requires AllRetired(s)
    ensures
      var t := StartCleanups(s, ids);
      SameRuntimes(s, t) && SameCounts(s, t) && SamePlaces(s, t) && AllRetired(t)
  {
  }

  lemma StartCleanupsKeeps(s: State, ids: set<GenId>)
    requires Core(s) && AllRetired(s)
    ensures Core(StartCleanups(s, ids)) && AllRetired(StartCleanups(s, ids))
  {
    StartCleanupsShape(s, ids);
    SameKeeps(s, StartCleanups(s, ids));
  }

  lemma RuntimeCleanedKeeps(s: State, runtime: RuntimeId)
    requires Core(s) && runtime in s.unpublished
    ensures Core(RuntimeCleaned(s, runtime))
  {
    var t := RuntimeCleaned(s, runtime);
    forall i | i in t.generations
      ensures Placed(t, i, t.generations[i]) && OwnsRuntime(t, i, t.generations[i])
    {
      assert Placed(s, i, s.generations[i]) && OwnsRuntime(s, i, s.generations[i]);
    }
  }

  lemma CommitFailsKeeps(s: State)
    requires Core(s)
    ensures Core(s.(produced := s.produced + 1, unpublished := s.unpublished + {s.produced}))
  {
    var t := s.(produced := s.produced + 1, unpublished := s.unpublished + {s.produced});
    forall i | i in t.generations
      ensures Placed(t, i, t.generations[i]) && OwnsRuntime(t, i, t.generations[i])
    {
      assert Placed(s, i, s.generations[i]) && OwnsRuntime(s, i, s.generations[i]);
    }
  }

  /** One generation was closed and its runtime cleaned. */
  ghost predicate OneCleaned(s: State, t: State, id: GenId) {
    && id in s.generations && t.generations.Keys == s.generations.Keys
    && (forall i | i in s.generations ::
          && t.generations[i].runtime == s.generations[i].runtime
          && t.generations[i].closed == (s.generations[i].closed || i == id))
    && t.unpublished == s.unpublished && t.produced == s.produced
    && t.cleaned == s.cleaned + {s.generations[id].runtime}
  }

  lemma RuntimeCleanedOnce(s: State, t: State, id: GenId)
    requires RuntimesOk(s) && OneCleaned(s, t, id)
    ensures RuntimesOk(t)
  {
    forall i | i in t.generations
      ensures OwnsRuntime(t, i, t.generations[i])
    {
      assert OwnsRuntime(s, i, s.generations[i]) && OwnsRuntime(s, id, s.generations[id]);
    }
    forall r | 0 <= r < t.produced && r !in t.unpublished && r !in t.cleaned
      ensures exists i :: i in t.generations && t.generations[i].runtime == r
    {
      var i :| i in s.generations && s.generations[i].runtime == r;
      assert t.generations[i].runtime == r;
    }
  }

  lemma CleanedKeepsPlaces(s: State, id: GenId)
    requires PlacesOk(s) && id in s.generations && s.generations[id].cleaning
    ensures PlacesOk(GenerationCleaned(s, id))
  {
    var t := GenerationCleaned(s, id);
    forall i | i in t.generations
      ensures Placed(t, i, t.generations[i])
    {
      assert Placed(s, i, s.generations[i]) && Placed(s, id, s.generations[id]);
    }
  }

  lemma CleanedKeeps(s: State, id: GenId)
    requires Core(s) && id in s.generations && s.generations[id].cleaning
    ensures Core(GenerationCleaned(s, id))
  {
    CleanedShape(s, id);
    RuntimeCleanedOnce(s, GenerationCleaned(s, id), id);
    CountsFrame(s, GenerationCleaned(s, id));
    CleanedKeepsPlaces(s, id);
  }

  lemma CleanedShape(s: State, id: GenId)
    requires id in s.generations
    ensures OneCleaned(s, GenerationCleaned(s, id), id) && SameCounts(s, GenerationCleaned(s, id))
  {
  }

  lemma CleanupFailedShape(s: State, id: GenId)
    requires id in s.generations
    ensures
      var t := Update(s, id, s.generations[id].(cleaning := false));
      SameRuntimes(s, t) && SameCounts(s, t) && SamePlaces(s, t)
  {
  }

  lemma CleanupFailedKeeps(s: State, id: GenId)
    requires Core(s) && id in s.generations && s.generations[id].cleaning
    ensures Core(Update(s, id, s.generations[id].(cleaning := false)))
  {
    CleanupFailedShape(s, id);
    SameKeeps(s, Update(s, id, s.generations[id].(cleaning := false)));
  }

  /** The locks do not matter to the core. */
  lemma CoreFrame(s: State, t: State)
    requires Core(s)
    requires t == s.(lock := t.lock, closer := t.closer, refresh := t.refresh, closed := t.closed, closing := t.closing)
    requires s.closing ==> t.closing
    ensures Core(t)
  {
    forall i | i in t.generations
      ensures Placed(t, i, t.generations[i]) && OwnsRuntime(t, i, t.generations[i])
    {
      assert Placed(s, i, s.generations[i]) && OwnsRuntime(s, i, s.generations[i]);
    }
  }

  predicate Leases(e: Event) {
    || e.Acquire? || e.Release? || e.RefreshStarts? || e.StrayStarts? || e.RefreshEnds?
    || e.ExplicitRefreshRuns? || e.ExplicitRefreshEnds?
  }

  predicate Cleans(e: Event) {
    e.RetriedCleanupEnds? || e.CandidateCleanupEnds? || e.CleanupEnds? || e.CloseRetryEnds?
  }

  lemma HoldStepKeepsCore(s: State, e: Event)
    requires Core(s) && LockOk(s) && CloserOk(s) && Enabled(s, e)
    requires e.Acquire? || e.RefreshStarts? || e.StrayStarts? || e.ExplicitRefreshRuns?
    ensures Core(Step(s, e))
  {
    var t := Step(s, e);
    assert Placed(s, s.current, s.generations[s.current]);
    match e {
      case Acquire(lease) =>
        if !Refused(s) {
          HoldKeeps(s, Lease(lease), s.current);
        }
      case RefreshStarts(task) =>
        HoldKeeps(s, Refresh(task), s.refresh.generation);
        CoreFrame(Hold(s, Refresh(task), s.refresh.generation), t);
      case StrayStarts(_, _) =>
      case ExplicitRefreshRuns(task) =>
        HoldKeeps(s, Refresh(task), s.current);
        CoreFrame(Hold(s, Refresh(task), s.current), t);
    }
  }

  lemma UnholdStepKeepsCore(s: State, e: Event)
    requires Core(s) && Enabled(s, e) && (e.Release? || e.RefreshEnds? || e.ExplicitRefreshEnds?)
    ensures Core(Step(s, e))
  {
    var t := Step(s, e);
    match e {
      case Release(lease) =>
        if Lease(lease) in s.holders {
          UnholdKeeps(s, Lease(lease));
        }
      case RefreshEnds(task) =>
        UnholdKeeps(s, Refresh(task));
        CoreFrame(Unhold(s, Refresh(task)), t);
      case ExplicitRefreshEnds =>
        UnholdKeeps(s, Refresh(s.lock.id));
        CoreFrame(Unhold(s, Refresh(s.lock.id)), t);
    }
  }

  lemma CleaningStepKeepsCore(s: State, e: Event)
    requires Core(s) && LockOk(s) && CloserOk(s) && Enabled(s, e) && Cleans(e)
    ensures Core(Step(s, e))
  {
    var t := Step(s, e);
    match e {
      case RetriedCleanupEnds(runtime, ok) =>
        RuntimeCleanedKeeps(s, runtime);
        CoreFrame(if ok then RuntimeCleaned(s, runtime) else s, t);
      case CandidateCleanupEnds(ok) =>
        RuntimeCleanedKeeps(s, s.lock.runtime);
        CoreFrame(if ok then RuntimeCleaned(s, s.lock.runtime) else s, t);
      case CleanupEnds(id, ok) =>
        if ok {
          CleanedKeeps(s, id);
        } else {
          CleanupFailedKeeps(s, id);
        }
      case CloseRetryEnds(runtime, ok) =>
        RuntimeCleanedKeeps(s, runtime);
        CoreFrame(if ok then RuntimeCleaned(s, runtime) else s, t);
    }
  }

  lemma ShutdownStepKeepsCore(s: State, e: Event)
    requires Core(s) && CloserOk(s) && Enabled(s, e) && (e.CloseRetires? || e.CloseDrains?)
    ensures Core(Step(s, e))
  {
    var t := Step(s, e);
    if e.CloseRetires? {
      RetireCurrentKeeps(s);
      CoreFrame(RetireCurrent(s), t);
    } else {
      StartCleanupsKeeps(s, s.closer.generations);
      CoreFrame(StartCleanups(s, s.closer.generations), t);
    }
  }

  lemma StepKeepsCore(s: State, e: Event)
    requires Inv(s) && Enabled(s, e)
    ensures Core(Step(s, e))
  {
    if e.Release? || e.RefreshEnds? || e.ExplicitRefreshEnds? {
      UnholdStepKeepsCore(s, e);
    } else if Leases(e) {
      HoldStepKeepsCore(s, e);
    } else if Cleans(e) {
      CleaningStepKeepsCore(s, e);
    } else if e.CloseRetires? || e.CloseDrains? {
      ShutdownStepKeepsCore(s, e);
    } else if e.ReplaceBuilds? {
      BuildKeepsCore(s, e.build);
    } else {
      CoreFrame(s, Step(s, e));
    }
  }

  lemma BuildKeepsCore(s: State, build: Build)
    requires Inv(s) && Enabled(s, ReplaceBuilds(build))
    ensures Core(Step(s, ReplaceBuilds(build)))
  {
    var t := Step(s, ReplaceBuilds(build));
    match build {
      case FactoryFails => CoreFrame(s, t);
      case CommitFails =>
        CommitFailsKeeps(s);
        CoreFrame(s.(produced := s.produced + 1, unpublished := s.unpublished + {s.produced}), t);
      case Built =>
        PublishKeeps(s);
        StartCleanupKeeps(Publish(s), s.current);
        CoreFrame(if s.generations[s.current].activeLeases == 0 then StartCleanup(Publish(s), s.current) else Publish(s), t);
    }
  }

  // ---- Locks and shutdown ----

  /** Releasing touches the counts and the cleanup of one generation and nothing else. */
  lemma UnholdShape(s: State, holder: Holder)
    requires holder in s.holders && s.holders[holder] in s.generations
    ensures
      var t := Unhold(s, holder);
      && t == s.(generations := t.generations, holders := t.holders)
      && t.generations.Keys == s.generations.Keys
      && (forall id | id in s.generations ::
            && t.generations[id].retired == s.generations[id].retired
            && t.generations[id].closed == s.generations[id].closed
            && (s.closing ==> t.generations[id].cleaning == s.generations[id].cleaning)
            && t.generations[id].activeLeases <= s.generations[id].activeLeases)
  {
  }

  lemma StepKeepsLock(s: State, e: Event)
    requires LockOk(s) && CloserOk(s) && Enabled(s, e) && StartupRule(s, e)
    ensures LockOk(Step(s, e))
  {
    match e {
      case Release(lease) =>
        if Lease(lease) in s.holders {
          UnholdShape(s, Lease(lease));
        }
      case RefreshEnds(task) => UnholdShape(s, Refresh(task));
      case ExplicitRefreshEnds => UnholdShape(s, Refresh(s.lock.id));
      case _ =>
    }
  }

  /** While anyone holds the replace lock for a replacement, a refresh or an account, or a refresh is
      scheduled, shutdown has not begun. */
  lemma ShutdownExcludes(s: State)
    requires Inv(s) && s.closing
    ensures s.lock.Free? || s.lock.CloseCancelling?
    ensures !s.refresh.Scheduled?
  {
  }

  lemma CloserFrame(s: State, t: State)
    requires CloserOk(s)
    requires t == s.(generations := t.generations, holders := t.holders, refresh := t.refresh, lock := t.lock,
                     retired := t.retired, cleaned := t.cleaned, unpublished := t.unpublished)
    requires t.generations.Keys == s.generations.Keys
    requires forall id | id in s.generations ::
               && t.generations[id].retired == s.generations[id].retired
               && t.generations[id].activeLeases <= s.generations[id].activeLeases
    requires t.retired <= s.retired && s.unpublished == t.unpublished
    requires s.closer.RetryingUnpublished? ==>
               t.retired == s.retired && forall id | id in t.generations :: !t.generations[id].cleaning
    requires s.lock.CloseCancelling? <==> t.lock.CloseCancelling?
    ensures CloserOk(t)
  {
  }

  /** Before shutdown begins, the close lock is free. */
  lemma NothingClosing(s: State)
    requires CloserOk(s) && !s.closing
    ensures s.closer.NotClosing? && !s.closed
  {
  }

  lemma RetireKeepsCloser(s: State)
    requires Inv(s) && Enabled(s, CloseRetires)
    ensures CloserOk(Step(s, CloseRetires))
  {
    RetireCurrentPlaces(s);
  }

  lemma DrainsKeepCloser(s: State)
    requires Inv(s) && Enabled(s, CloseDrains)
    ensures CloserOk(Step(s, CloseDrains))
  {
  }

  lemma CollectKeepsCloser(s: State)
    requires Inv(s) && Enabled(s, CloseCollects)
    ensures CloserOk(Step(s, CloseCollects))
  {
    forall id | id in s.generations
      ensures !s.generations[id].cleaning
      ensures id in s.retired <==> !s.generations[id].closed
    {
      assert Placed(s, id, s.generations[id]);
    }
  }

  lemma RetryKeepsCloser(s: State, runtime: RuntimeId, ok: bool)
    requires CloserOk(s) && Enabled(s, CloseRetryEnds(runtime, ok))
    ensures CloserOk(Step(s, CloseRetryEnds(runtime, ok)))
  {
    var t := Step(s, CloseRetryEnds(runtime, ok));
    assert runtime in s.unpublished;
    if ok {
      assert s.unpublished <= s.closer.pending <==> t.unpublished <= t.closer.pending by {
        assert forall r :: r in s.unpublished <==> r in t.unpublished || r == runtime;
        assert forall r :: r in s.closer.pending <==> r in t.closer.pending || r == runtime;
      }
    } else {
      assert runtime in t.unpublished && runtime !in t.closer.pending;
    }
  }

  lemma CloseStepKeepsCloser(s: State, e: Event)
    requires Inv(s) && Enabled(s, e)
    requires e.CloseRetires? || e.DrainSeen? || e.CloseDrains? || e.CloseCollects? || e.CloseRetryEnds? || e.CloseEnds?
    ensures CloserOk(Step(s, e))
  {
    match e {
      case CloseRetires => RetireKeepsCloser(s);
      case DrainSeen(id) => assert Counted(s.holders, id, s.generations[id]);
      case CloseDrains => DrainsKeepCloser(s);
      case CloseCollects => CollectKeepsCloser(s);
      case CloseRetryEnds(runtime, ok) => RetryKeepsCloser(s, runtime, ok);
      case CloseEnds =>
    }
  }

  lemma CleanupKeepsCloser(s: State, id: GenId, ok: bool)
    requires CloserOk(s) && Enabled(s, CleanupEnds(id, ok))
    ensures CloserOk(Step(s, CleanupEnds(id, ok)))
  {
    CloserFrame(s, Step(s, CleanupEnds(id, ok)));
  }

  /** Nothing but releases and finished cleanups happens to a manager that is shutting down. */
  lemma ClosingStepKeepsCloser(s: State, e: Event)
    requires Inv(s) && Enabled(s, e) && s.closing
    requires !e.CloseRetires? && !e.DrainSeen? && !e.CloseDrains? && !e.CloseCollects? && !e.CloseRetryEnds? && !e.CloseEnds?
    ensures CloserOk(Step(s, e))
  {
    var t := Step(s, e);
    ShutdownExcludes(s);
    match e {
      case Release(lease) =>
        if Lease(lease) in s.holders {
          UnholdShape(s, Lease(lease));
          CloserFrame(s, t);
        }
      case RefreshEnds(task) =>
        UnholdShape(s, Refresh(task));
        CloserFrame(s, t);
      case StrayStarts(_, _) =>
      case CleanupEnds(id, ok) => CleanupKeepsCloser(s, id, ok);
      case CloseCancelled => assert CloserOk(t);
      case CloseBegins => assert CloserOk(t);
      case _ => assert t == s;
    }
  }

  lemma OpenStepKeepsCloser(s: State, e: Event)
    requires Inv(s) && Enabled(s, e) && !s.closing
    ensures CloserOk(Step(s, e))
  {
    NothingClosing(s);
    match e {
      case Release(lease) =>
        if Lease(lease) in s.holders {
          UnholdShape(s, Lease(lease));
        }
      case RefreshEnds(task) => UnholdShape(s, Refresh(task));
      case ExplicitRefreshEnds => UnholdShape(s, Refresh(s.lock.id));
      case _ =>
    }
  }

  lemma StepKeepsCloser(s: State, e: Event)
    requires Inv(s) && Enabled(s, e)
    ensures CloserOk(Step(s, e))
  {
    if !s.closing {
      OpenStepKeepsCloser(s, e);
    } else if e.CloseRetires? || e.DrainSeen? || e.CloseDrains? || e.CloseCollects? || e.CloseRetryEnds? || e.CloseEnds? {
      CloseStepKeepsCloser(s, e);
    } else {
      ClosingStepKeepsCloser(s, e);
    }
  }

  lemma StepKeepsInv(s: State, e: Event)
    requires Inv(s) && Enabled(s, e) && StartupRule(s, e)
    ensures Inv(Step(s, e))
  {
    StepKeepsCore(s, e);
    StepKeepsLock(s, e);
    StepKeepsCloser(s, e);
  }
}
