/** The objects of runtime/provider_manager.py. Each method is one section and moves the abstract state as
    `GenerationsSpec.Step` says; the promises about runs are in GenerationsRuns. Generations are looked up
    by number in one registry, which also remembers the closed ones that old leases still point to. */
module Generations {
  import opened Options
  import Spec = GenerationsSpec

  class ProviderGeneration {
    const id: Spec.GenId
    const runtime: Spec.RuntimeId
    var activeLeases: nat
    var retired: bool
    var closed: bool
    var drained: bool
    var cleaning: bool

    constructor (id: Spec.GenId, runtime: Spec.RuntimeId)
      ensures this.id == id && View() == Spec.Generation(runtime, 0, false, false, true, false)
    {
      this.id, this.runtime := id, runtime;
      activeLeases, retired, closed, drained, cleaning := 0, false, false, true, false;
    }

    function View(): Spec.Generation
      reads this
    {
      Spec.Generation(runtime, activeLeases, retired, closed, drained, cleaning)
    }
  }

  /** Starting the cleanups of a set one generation at a time. */
  lemma StartOneMore(s: Spec.State, done: set<Spec.GenId>, id: Spec.GenId)
    requires id in s.generations && id !in done
    ensures Spec.StartCleanup(Spec.StartCleanups(s, done), id) == Spec.StartCleanups(s, done + {id})
  {
    var one, more := Spec.StartCleanup(Spec.StartCleanups(s, done), id), Spec.StartCleanups(s, done + {id});
    assert one.generations == more.generations;
  }

  class ProviderRuntimeManager {
    var generations: map<Spec.GenId, ProviderGeneration>
    var current: Spec.GenId
    var nextId: Spec.GenId
    var retired: set<Spec.GenId>
    var unpublished: set<Spec.RuntimeId>
    var closing: bool
    var closed: bool
    var refresh: Spec.RefreshTask
    var strays: set<Spec.GenId>
    var lock: Spec.LockOp
    var closer: Spec.CloseOp
    var produced: nat
    var holders: map<Spec.Holder, Spec.GenId>
    ghost var cleaned: set<Spec.RuntimeId>

    ghost predicate Valid()
      reads this`generations, this`current, this`holders, generations.Values
    {
      && (forall id | id in generations :: generations[id].id == id)
      && current in generations
      && (forall h | h in holders :: holders[h] in generations)
    }

    ghost function Generations(): map<Spec.GenId, Spec.Generation>
      reads this`generations, generations.Values
    {
      map id | id in generations :: generations[id].View()
    }

    ghost function View(): Spec.State
      reads this, generations.Values
    {
      Spec.State(Generations(), current, nextId, retired, unpublished, cleaned, produced,
                 closing, closed, holders, refresh, strays, lock, closer)
    }

    constructor ()
      ensures Valid() && View() == Spec.Start()
    {
      var first := new ProviderGeneration(1, 0);
      generations, current, nextId, retired := map[1 := first], 1, 2, {};
      unpublished, cleaned, produced, closing, closed := {}, {}, 1, false, false;
      holders, refresh, strays, lock, closer := map[], Spec.NoTask, {}, Spec.Free, Spec.NotClosing;
    }

    predicate Refusing()
      reads this
    {
      closing || closed
    }

    // ---- Pieces ----

    /** Lease count and drained event of one generation. */
    method SetCount(id: Spec.GenId, count: nat, drained: bool)
      requires Valid() && id in generations
      modifies generations[id]
      ensures Valid()
      ensures View() == Spec.Update(old(View()), id, old(generations[id].View()).(activeLeases := count, drained := drained))
    {
      generations[id].activeLeases := count;
      generations[id].drained := drained;
    }

    method SetRetired(id: Spec.GenId)
      requires Valid() && id in generations
      modifies generations[id]
      ensures Valid()
      ensures View() == Spec.Update(old(View()), id, old(generations[id].View()).(retired := true))
    {
      ghost var before := Generations();
      generations[id].retired := true;
      assert Generations() == before[id := generations[id].View()];
    }

    /** The cleanup task of one generation, and whether it has succeeded. */
    method SetCleanup(id: Spec.GenId, cleaning: bool, closed: bool)
      requires Valid() && id in generations
      modifies generations[id]
      ensures Valid()
      ensures View() == Spec.Update(old(View()), id, old(generations[id].View()).(cleaning := cleaning, closed := closed))
    {
      ghost var before := Generations();
      generations[id].cleaning := cleaning;
      generations[id].closed := closed;
      assert Generations() == before[id := generations[id].View()];
    }

    method SetLock(next: Spec.LockOp)
      requires Valid()
      modifies this`lock
      ensures Valid() && View() == old(View()).(lock := next)
    {
      lock := next;
    }

    method SetCloser(next: Spec.CloseOp)
      requires Valid()
      modifies this`closer
      ensures Valid() && View() == old(View()).(closer := next)
    {
      closer := next;
    }

    method SetRefresh(next: Spec.RefreshTask)
      requires Valid()
      modifies this`refresh
      ensures Valid() && View() == old(View()).(refresh := next)
    {
      refresh := next;
    }

    method Hold(holder: Spec.Holder, id: Spec.GenId)
      requires Valid() && id in generations
      modifies this`holders, generations.Values
      ensures Valid() && View() == Spec.Hold(old(View()), holder, id)
    {
      SetCount(id, generations[id].activeLeases + 1, false);
      holders := holders[holder := id];
    }

    /** `_close_generation` up to the shielded task. */
    method CloseGeneration(id: Spec.GenId)
      requires Valid() && id in generations
      modifies generations[id]
      ensures Valid() && View() == Spec.StartCleanup(old(View()), id)
    {
      if !generations[id].closed && generations[id].activeLeases == 0 {
        SetCleanup(id, true, false);
      }
    }

    /** `_release`. */
    method ReleaseGeneration(holder: Spec.Holder)
      requires Valid() && holder in holders
      modifies this`holders, generations.Values
      ensures Valid() && View() == Spec.Unhold(old(View()), holder)
    {
      var id := holders[holder];
      var count := generations[id].activeLeases;
      holders := Spec.Without(holders, holder);
      if count > 0 {
        SetCount(id, count - 1, generations[id].drained || count == 1);
        if count == 1 && generations[id].retired && !closing {
          CloseGeneration(id);
        }
      }
    }

    method MarkCleaned(runtime: Spec.RuntimeId)
      requires Valid()
      modifies this`unpublished, this`cleaned
      ensures Valid() && View() == Spec.RuntimeCleaned(old(View()), runtime)
    {
      unpublished := unpublished - {runtime};
      cleaned := cleaned + {runtime};
    }

    // ---- Leases and refreshes ----

    method Acquire(lease: nat) returns (granted: bool)
      requires Valid() && Spec.Enabled(View(), Spec.Acquire(lease))
      modifies this`holders, generations.Values
      ensures Valid() && View() == Spec.Step(old(View()), Spec.Acquire(lease))
      ensures granted <==> !Spec.Refused(old(View()))
    {
      if Refusing() {
        return false;
      }
      Hold(Spec.Lease(lease), current);
      granted := true;
    }

    method Release(lease: nat)
      requires Valid() && Spec.Enabled(View(), Spec.Release(lease))
      modifies this`holders, generations.Values
      ensures Valid() && View() == Spec.Step(old(View()), Spec.Release(lease))
    {
      if Spec.Lease(lease) in holders {
        ReleaseGeneration(Spec.Lease(lease));
      }
    }

    method StartModelListRefresh()
      requires Valid() && Spec.Enabled(View(), Spec.StartRefresh)
      modifies this`refresh
      ensures Valid() && View() == Spec.Step(old(View()), Spec.StartRefresh)
    {
      if Refusing() || !refresh.NoTask? {
        return;
      }
      refresh := Spec.Scheduled(current);
    }

    method RefreshStarts(task: nat)
      requires Valid() && Spec.Enabled(View(), Spec.RefreshStarts(task))
      modifies this`refresh, this`holders, generations.Values
      ensures Valid() && View() == Spec.Step(old(View()), Spec.RefreshStarts(task))
    {
      var id := refresh.generation;
      if generations[id].closed {
        SetRefresh(Spec.NoTask);
        return;
      }
      Hold(Spec.Refresh(task), id);
      SetRefresh(Spec.Running(task));
    }

    /** A refresh that was scheduled and then overwritten starts like any other. */
    method StrayStarts(id: Spec.GenId, task: nat)
      requires Valid() && Spec.Enabled(View(), Spec.StrayStarts(id, task))
      modifies this`strays, this`holders, generations.Values
      ensures Valid() && View() == Spec.Step(old(View()), Spec.StrayStarts(id, task))
    {
      DropStray(id);
      if !generations[id].closed {
        Hold(Spec.Refresh(task), id);
      }
    }

    method DropStray(id: Spec.GenId)
      requires Valid()
      modifies this`strays
      ensures Valid() && View() == old(View()).(strays := old(strays) - {id})
    {
      strays := strays - {id};
    }

    method RefreshEnds(task: nat)
      requires Valid() && Spec.Enabled(View(), Spec.RefreshEnds(task))
      modifies this`refresh, this`holders, generations.Values
      ensures Valid() && View() == Spec.Step(old(View()), Spec.RefreshEnds(task))
    {
      ReleaseGeneration(Spec.Refresh(task));
      if refresh == Spec.Running(task) {
        SetRefresh(Spec.NoTask);
      }
    }

    /** `_cancel_refresh` up to its wait: which running task, if any, has to end first. */
    method CancelRefresh() returns (waitFor: Option<nat>)
      requires Valid()
      modifies this`refresh
      ensures Valid() && View() == Spec.CancelRefresh(old(View()))
      ensures waitFor == Spec.RefreshToAwait(old(View()))
    {
      waitFor := if refresh.Running? then Some(refresh.id) else None;
      refresh := Spec.NoTask;
    }

    // ---- replace ----

    method ReplaceBegins() returns (refused: bool)
      requires Valid() && Spec.Enabled(View(), Spec.ReplaceBegins)
      modifies this`refresh, this`lock
      ensures Valid() && View() == Spec.Step(old(View()), Spec.ReplaceBegins)
      ensures refused <==> Spec.Refused(old(View()))
    {
      if Refusing() {
        return true;
      }
      var waitFor := CancelRefresh();
      lock := Spec.ReplaceCancelling(waitFor);
      refused := false;
    }

    method ReplaceRetries()
      requires Valid() && Spec.Enabled(View(), Spec.ReplaceRetries)
      modifies this`lock
      ensures Valid() && View() == Spec.Step(old(View()), Spec.ReplaceRetries)
    {
      lock := Spec.ReplaceRetrying(unpublished);
    }

    method RetriedCleanupEnds(runtime: Spec.RuntimeId, ok: bool)
      requires Valid() && Spec.Enabled(View(), Spec.RetriedCleanupEnds(runtime, ok))
      modifies this`lock, this`unpublished, this`cleaned
      ensures Valid() && View() == Spec.Step(old(View()), Spec.RetriedCleanupEnds(runtime, ok))
    {
      lock := Spec.ReplaceRetrying(lock.pending - {runtime});
      if ok {
        MarkCleaned(runtime);
      }
    }

    /** The publication of a built and committed candidate. */
    method Publish()
      requires Valid() && nextId !in generations
      modifies this`generations, this`current, this`nextId, this`produced, this`retired, this`refresh, this`strays, generations[current]
      ensures Valid() && View() == Spec.Publish(old(View()))
      ensures old(current) in generations && generations[old(current)] == old(generations[current])
    {
      SetRetired(current);
      AddCurrent();
      RememberRefresh(current);
    }

    /** The candidate's generation becomes the current one. */
    method AddCurrent()
      requires Valid() && nextId !in generations
      modifies this`generations, this`current, this`nextId, this`produced, this`retired
      ensures Valid() && old(nextId) in generations
      ensures generations == old(generations)[old(nextId) := generations[old(nextId)]]
      ensures View() == old(View()).(
                          generations := old(Generations())[
                            old(nextId) := Spec.Generation(old(produced), 0, false, false, true, false)],
                          current := old(nextId), nextId := old(nextId) + 1, produced := old(produced) + 1,
                          retired := old(retired) + {old(current)})
    {
      AddGeneration();
      PointAtNew();
    }

    method PointAtNew()
      requires Valid() && nextId in generations
      modifies this`current, this`nextId, this`produced, this`retired
      ensures Valid()
      ensures View() == old(View()).(
                          current := old(nextId), nextId := old(nextId) + 1, produced := old(produced) + 1,
                          retired := old(retired) + {old(current)})
    {
      retired := retired + {current};
      current := nextId;
      produced := produced + 1;
      nextId := nextId + 1;
    }

    /** The one remembered refresh task becomes this one; a scheduled one that it replaces is forgotten,
        not cancelled. */
    method RememberRefresh(id: Spec.GenId)
      requires Valid()
      modifies this`refresh, this`strays
      ensures Valid()
      ensures View() == old(View()).(
                          refresh := Spec.Scheduled(id),
                          strays := if old(refresh).Scheduled? then old(strays) + {old(refresh).generation} else old(strays))
    {
      strays := if refresh.Scheduled? then strays + {refresh.generation} else strays;
      refresh := Spec.Scheduled(id);
    }

    method AddGeneration()
      requires Valid() && nextId !in generations
      modifies this`generations
      ensures Valid() && nextId in generations && generations == old(generations)[nextId := generations[nextId]]
      ensures View() == old(View()).(generations := old(Generations())[
                                       nextId := Spec.Generation(produced, 0, false, false, true, false)])
    {
      var candidate := new ProviderGeneration(nextId, produced);
      generations := generations[candidate.id := candidate];
    }

    /** The factory and the commit, then either the failure path or the publication. */
    method ReplaceBuilds(build: Spec.Build)
      requires Valid() && Spec.Enabled(View(), Spec.ReplaceBuilds(build))
      modifies this, generations.Values
      ensures Valid() && View() == Spec.Step(old(View()), Spec.ReplaceBuilds(build))
    {
      match build {
        case FactoryFails => SetLock(Spec.Free);
        case CommitFails => KeepUnpublished();
        case Built => PublishAndClose();
      }
    }

    /** The candidate could not be committed: it is kept until its cleanup has ended well. */
    method KeepUnpublished()
      requires Valid()
      modifies this`unpublished, this`produced, this`lock
      ensures Valid()
      ensures View() == old(View()).(
                          produced := old(produced) + 1, unpublished := old(unpublished) + {old(produced)},
                          lock := Spec.CleaningCandidate(old(produced)))
    {
      unpublished := unpublished + {produced};
      lock := Spec.CleaningCandidate(produced);
      produced := produced + 1;
    }

    method PublishAndClose()
      requires Valid() && Spec.Enabled(View(), Spec.ReplaceBuilds(Spec.Built))
      modifies this, generations.Values
      ensures Valid() && View() == Spec.Step(old(View()), Spec.ReplaceBuilds(Spec.Built))
    {
      var previous := current;
      var idle := generations[previous].activeLeases == 0;
      Publish();
      if idle {
        CloseGeneration(previous);
      }
      SetLock(if idle then Spec.ClosingPrevious(previous) else Spec.Free);
    }

    method CandidateCleanupEnds(ok: bool)
      requires Valid() && Spec.Enabled(View(), Spec.CandidateCleanupEnds(ok))
      modifies this`lock, this`unpublished, this`cleaned
      ensures Valid() && View() == Spec.Step(old(View()), Spec.CandidateCleanupEnds(ok))
    {
      if ok {
        MarkCleaned(lock.runtime);
      }
      lock := Spec.Free;
    }

    /** `replace` returns, or whoever holds the replace lock and no lease is cancelled. */
    method LeaveReplaceLock(e: Spec.Event)
      requires Valid() && Spec.Enabled(View(), e)
      requires e.ReplaceReturns? || e.LockHolderCancelled? || e.ConnectEnds?
      modifies this`lock
      ensures Valid() && View() == Spec.Step(old(View()), e)
    {
      lock := Spec.Free;
    }

    // ---- refresh_model_list_cache and connected_provider_changed ----

    method ExplicitRefreshBegins()
      requires Valid() && Spec.Enabled(View(), Spec.ExplicitRefreshBegins)
      modifies this`refresh, this`lock
      ensures Valid() && View() == Spec.Step(old(View()), Spec.ExplicitRefreshBegins)
    {
      if Refusing() {
        return;
      }
      var waitFor := CancelRefresh();
      lock := Spec.RefreshCancelling(waitFor);
    }

    method ExplicitRefreshRuns(task: nat)
      requires Valid() && Spec.Enabled(View(), Spec.ExplicitRefreshRuns(task))
      modifies this`lock, this`holders, generations.Values
      ensures Valid() && View() == Spec.Step(old(View()), Spec.ExplicitRefreshRuns(task))
    {
      if generations[current].closed {
        SetLock(Spec.Free);
        return;
      }
      Hold(Spec.Refresh(task), current);
      SetLock(Spec.Refreshing(task));
    }

    method ExplicitRefreshEnds()
      requires Valid() && Spec.Enabled(View(), Spec.ExplicitRefreshEnds)
      modifies this`lock, this`holders, generations.Values
      ensures Valid() && View() == Spec.Step(old(View()), Spec.ExplicitRefreshEnds)
    {
      ReleaseGeneration(Spec.Refresh(lock.id));
      SetLock(Spec.Free);
    }

    method ConnectBegins()
      requires Valid() && Spec.Enabled(View(), Spec.ConnectBegins)
      modifies this`lock
      ensures Valid() && View() == Spec.Step(old(View()), Spec.ConnectBegins)
    {
      if !Refusing() {
        lock := Spec.Connecting(current);
      }
    }

    // ---- Cleanup and close ----

    /** The end of `_run_generation_cleanup`. */
    method CleanupEnds(id: Spec.GenId, ok: bool)
      requires Valid() && Spec.Enabled(View(), Spec.CleanupEnds(id, ok))
      modifies this`retired, this`cleaned, generations.Values
      ensures Valid() && View() == Spec.Step(old(View()), Spec.CleanupEnds(id, ok))
    {
      SetCleanup(id, false, ok || generations[id].closed);
      if ok {
        Forget(id);
      }
    }

    /** A cleaned generation leaves the retired ones. */
    method Forget(id: Spec.GenId)
      requires Valid() && id in generations
      modifies this`retired, this`cleaned
      ensures Valid()
      ensures View() == old(View()).(retired := old(retired) - {id}, cleaned := old(cleaned) + {generations[id].runtime})
    {
      retired := retired - {id};
      cleaned := cleaned + {generations[id].runtime};
    }

    method CloseBegins()
      requires Valid() && Spec.Enabled(View(), Spec.CloseBegins)
      modifies this`closing, this`refresh, this`lock, this`closer
      ensures Valid() && View() == Spec.Step(old(View()), Spec.CloseBegins)
    {
      if closed {
        return;
      }
      BeginClosing();
    }

    method BeginClosing()
      requires Valid()
      modifies this`closing, this`refresh, this`lock, this`closer
      ensures Valid()
      ensures View() == old(View()).(
                          refresh := Spec.NoTask, closing := true, closer := Spec.Stopping,
                          lock := Spec.CloseCancelling(Spec.RefreshToAwait(old(View()))))
    {
      var waitFor := CancelRefresh();
      closing := true;
      lock := Spec.CloseCancelling(waitFor);
      closer := Spec.Stopping;
    }

    method CloseRetires()
      requires Valid() && Spec.Enabled(View(), Spec.CloseRetires)
      modifies this`retired, this`lock, this`closer, generations.Values
      ensures Valid() && View() == Spec.Step(old(View()), Spec.CloseRetires)
    {
      RetireCurrent();
      SetLock(Spec.Free);
      SetCloser(Spec.Draining(retired, retired));
    }

    method RetireCurrent()
      requires Valid()
      modifies this`retired, generations.Values
      ensures Valid() && View() == Spec.RetireCurrent(old(View()))
    {
      if !generations[current].retired {
        SetRetired(current);
        ghost var marked := View();
        retired := retired + {current};
        assert View() == marked.(retired := retired);
      }
    }

    /** One of the awaited drained events was set. */
    method DrainSeen(id: Spec.GenId)
      requires Valid() && Spec.Enabled(View(), Spec.DrainSeen(id))
      modifies this`closer
      ensures Valid() && View() == Spec.Step(old(View()), Spec.DrainSeen(id))
    {
      closer := Spec.Draining(closer.generations, closer.waiting - {id});
    }

    /** `_close_generation` for every generation of the snapshot. */
    method CloseDrains()
      requires Valid() && Spec.Enabled(View(), Spec.CloseDrains)
      modifies this`closer, generations.Values
      ensures Valid() && View() == Spec.Step(old(View()), Spec.CloseDrains)
    {
      CloseAll(closer.generations);
      SetCloser(Spec.Closing(closer.generations));
    }

    method CloseAll(ids: set<Spec.GenId>)
      requires Valid() && ids <= generations.Keys
      modifies generations.Values
      ensures Valid() && View() == Spec.StartCleanups(old(View()), ids)
    {
      var done := {};
      assert View() == Spec.StartCleanups(View(), {});
      while ids - done != {}
        invariant done <= ids && Valid()
        invariant View() == Spec.StartCleanups(old(View()), done)
        decreases ids - done
      {
        var id :| id in ids - done;
        CloseGeneration(id);
        StartOneMore(old(View()), done, id);
        done := done + {id};
      }
      assert forall id | id in ids :: id !in ids - done;
      assert done == ids;
    }

    method CloseCollects()
      requires Valid() && Spec.Enabled(View(), Spec.CloseCollects)
      modifies this`closer
      ensures Valid() && View() == Spec.Step(old(View()), Spec.CloseCollects)
    {
      var allClosed := AllClosed(closer.generations);
      SetCloser(Spec.RetryingUnpublished(unpublished, allClosed));
    }

    method AllClosed(ids: set<Spec.GenId>) returns (all: bool)
      requires ids <= generations.Keys
      ensures all <==> forall id | id in ids :: generations[id].closed
    {
      all := true;
      var left := ids;
      while left != {}
        invariant left <= ids
        invariant all <==> forall id | id in ids - left :: generations[id].closed
        decreases |left|
      {
        var id :| id in left;
        all := all && generations[id].closed;
        left := left - {id};
      }
      assert ids - left == ids;
    }

    method CloseRetryEnds(runtime: Spec.RuntimeId, ok: bool)
      requires Valid() && Spec.Enabled(View(), Spec.CloseRetryEnds(runtime, ok))
      modifies this`closer, this`unpublished, this`cleaned
      ensures Valid() && View() == Spec.Step(old(View()), Spec.CloseRetryEnds(runtime, ok))
    {
      closer := Spec.RetryingUnpublished(closer.pending - {runtime}, closer.allClosed && ok);
      if ok {
        MarkCleaned(runtime);
      }
    }

    method CloseEnds() returns (failed: bool)
      requires Valid() && Spec.Enabled(View(), Spec.CloseEnds)
      modifies this`closed, this`closer
      ensures Valid() && View() == Spec.Step(old(View()), Spec.CloseEnds)
      ensures failed <==> !closed
    {
      failed := !closer.allClosed;
      closed := !failed;
      closer := Spec.NotClosing;
    }

    method CloseCancelled()
      requires Valid() && Spec.Enabled(View(), Spec.CloseCancelled)
      modifies this`lock, this`closer
      ensures Valid() && View() == Spec.Step(old(View()), Spec.CloseCancelled)
    {
      closer := Spec.NotClosing;
      if lock.CloseCancelling? {
        lock := Spec.Free;
      }
    }
  }
}
